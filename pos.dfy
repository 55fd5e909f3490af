/** The point-of-sale cart (src/components/POS/POS.tsx): a list of sale items, at most one
    per product, each with `subtotal = quantity * price`, built up by adding products,
    changing quantities and removing items, and turned into a sale at checkout. This screen
    works on the older product shape with a numeric `stock`. */
module Pos {
  import opened Seqs
  import opened Types
  import Text
  import Numbers

  datatype PosProduct = PosProduct(id: int, name: string, barcode: string, price: int, stock: int)

  type Cart = seq<SaleItem>

  /** The search box: the name contains the term ignoring case, or the bar code contains it. */
  predicate MatchesSearch(p: PosProduct, searchTerm: string)
  {
    Text.Includes(Text.ToLower(p.name), Text.ToLower(searchTerm)) || Text.Includes(p.barcode, searchTerm)
  }

  function FilteredProducts(products: seq<PosProduct>, searchTerm: string): (r: seq<PosProduct>)
    ensures forall p :: p in r <==> p in products && MatchesSearch(p, searchTerm)
    ensures IsSubseq(r, products)
  {
    FilterIsSubseq(products, (p: PosProduct) => MatchesSearch(p, searchTerm));
    Filter(products, (p: PosProduct) => MatchesSearch(p, searchTerm))
  }

  /** An empty search lists every product. */
  lemma EmptySearchShowsAll(products: seq<PosProduct>)
    ensures FilteredProducts(products, "") == products
  {
    forall p: PosProduct ensures MatchesSearch(p, "") {
      Text.IncludesEmpty(Text.ToLower(p.name));
    }
    FilterAll(products, (p: PosProduct) => MatchesSearch(p, ""));
  }

  // ---------------------------------------------------------------------------------------
  // Cart invariants

  predicate UniqueProducts(cart: Cart)
  {
    forall i, j :: 0 <= i < j < |cart| ==> cart[i].productId != cart[j].productId
  }

  predicate SubtotalsConsistent(cart: Cart)
  {
    forall i :: 0 <= i < |cart| ==> cart[i].subtotal == cart[i].quantity * cart[i].price
  }

  predicate PositiveQuantities(cart: Cart)
  {
    forall i :: 0 <= i < |cart| ==> cart[i].quantity >= 1
  }

  /** What every cart the screen can build satisfies. */
  predicate ValidCart(cart: Cart)
  {
    UniqueProducts(cart) && SubtotalsConsistent(cart) && PositiveQuantities(cart)
  }

  predicate InCart(cart: Cart, productId: int)
  {
    exists i :: 0 <= i < |cart| && cart[i].productId == productId
  }

  /** `cart.reduce((sum, item) => sum + item.subtotal, 0)`. */
  function CartTotal(cart: Cart): int
  {
    Sum(cart, (item: SaleItem) => item.subtotal)
  }

  /** In a consistent cart the total is the sum of quantity times price. */
  lemma {:induction false} CartTotalIsQuantityTimesPrice(cart: Cart)
    requires SubtotalsConsistent(cart)
    ensures CartTotal(cart) == Sum(cart, (item: SaleItem) => item.quantity * item.price)
  {
    if cart != [] {
      CartTotalIsQuantityTimesPrice(cart[1..]);
    }
  }

  // ---------------------------------------------------------------------------------------
  // Operations

  /** `cart.map(item => item.productId === id ? { ...item, quantity: n, subtotal: n * item.price } : item)`. */
  function SetQuantity(cart: Cart, productId: int, quantity: int): (r: Cart)
    ensures |r| == |cart|
    ensures forall i :: 0 <= i < |r| ==>
              r[i] == if cart[i].productId == productId
                      then cart[i].(quantity := quantity, subtotal := quantity * cart[i].price)
                      else cart[i]
  {
    seq(|cart|, i requires 0 <= i < |cart| =>
      if cart[i].productId == productId
      then cart[i].(quantity := quantity, subtotal := quantity * cart[i].price)
      else cart[i])
  }

  /** `cart.map(item => item.productId === id ? { ...item, quantity: item.quantity + 1, ... } : item)`. */
  function Increment(cart: Cart, productId: int): (r: Cart)
    ensures |r| == |cart|
    ensures forall i :: 0 <= i < |r| ==>
              r[i] == if cart[i].productId == productId
                      then cart[i].(quantity := cart[i].quantity + 1, subtotal := (cart[i].quantity + 1) * cart[i].price)
                      else cart[i]
  {
    seq(|cart|, i requires 0 <= i < |cart| =>
      if cart[i].productId == productId
      then cart[i].(quantity := cart[i].quantity + 1, subtotal := (cart[i].quantity + 1) * cart[i].price)
      else cart[i])
  }

  function WithoutProduct(cart: Cart, productId: int): Cart
  {
    Filter(cart, (item: SaleItem) => item.productId != productId)
  }

  /** `addToCart(product)`. */
  function AddToCart(cart: Cart, product: PosProduct): Cart
  {
    match Find(cart, (item: SaleItem) => item.productId == product.id)
    case Some(existingItem) =>
      if existingItem.quantity < product.stock then Increment(cart, product.id) else cart
    case None =>
      if product.stock > 0
      then cart + [SaleItem(product.id, product.name, 1, product.price, product.price)]
      else cart
  }

  /** `updateQuantity(productId, newQuantity)`, looking the product up in the catalogue. */
  function UpdateQuantity(cart: Cart, products: seq<PosProduct>, productId: int, newQuantity: int): Cart
  {
    match Find(products, (p: PosProduct) => p.id == productId)
    case None => cart
    case Some(product) =>
      if newQuantity == 0 then WithoutProduct(cart, productId)
      else if newQuantity <= product.stock then SetQuantity(cart, productId, newQuantity)
      else cart
  }

  /** `removeFromCart(productId)`. */
  function RemoveFromCart(cart: Cart, productId: int): Cart
  {
    WithoutProduct(cart, productId)
  }

  datatype PaymentChoice = Cash | Card | Transfer

  function PaymentChoiceName(m: PaymentChoice): string
  {
    match m
    case Cash => "cash"
    case Card => "card"
    case Transfer => "transfer"
  }

  /** What checkout leaves behind: the sale handed to `onSale` (none for an empty cart), the
      cart and the search box. */
  datatype Checkout = Checkout(sale: Option<Sale>, cart: Cart, searchTerm: string)

  /** `processSale()`, with the clock's reading passed in; the sale's id is that reading
      written in decimal. */
  function ProcessSale(cart: Cart, paymentMethod: PaymentChoice, searchTerm: string, now: Timestamp): Checkout
  {
    if |cart| == 0 then Checkout(None, cart, searchTerm)
    else
      var sale := Sale(Numbers.IntToString(now), cart, CartTotal(cart), None, now, MethodName(PaymentChoiceName(paymentMethod)));
      Checkout(Some(sale), [], "")
  }

  // ---------------------------------------------------------------------------------------
  // Properties of adding

  /** Adding a product already in the cart raises its quantity by one, with the subtotal
      recomputed, when the quantity is below the stock; otherwise the cart is unchanged. */
  lemma AddExisting(cart: Cart, product: PosProduct, i: nat)
    requires ValidCart(cart)
    requires i < |cart| && cart[i].productId == product.id
    ensures cart[i].quantity < product.stock ==>
              && |AddToCart(cart, product)| == |cart|
              && AddToCart(cart, product)[i] == cart[i].(quantity := cart[i].quantity + 1,
                                                          subtotal := (cart[i].quantity + 1) * cart[i].price)
              && forall j :: 0 <= j < |cart| && j != i ==> AddToCart(cart, product)[j] == cart[j]
    ensures cart[i].quantity >= product.stock ==> AddToCart(cart, product) == cart
  {
    var p := (item: SaleItem) => item.productId == product.id;
    FindIndexAt(cart, p, i);
  }

  /** Adding a product not in the cart appends one unit of it when it is in stock. */
  lemma AddNew(cart: Cart, product: PosProduct)
    requires !InCart(cart, product.id)
    ensures product.stock > 0 ==>
              AddToCart(cart, product) == cart + [SaleItem(product.id, product.name, 1, product.price, product.price)]
    ensures product.stock <= 0 ==> AddToCart(cart, product) == cart
  {
    var p := (item: SaleItem) => item.productId == product.id;
    assert forall i :: 0 <= i < |cart| ==> !p(cart[i]);
  }

  /** Adding keeps the cart valid. */
  lemma AddKeepsValid(cart: Cart, product: PosProduct)
    requires ValidCart(cart)
    ensures ValidCart(AddToCart(cart, product))
  {
    var p := (item: SaleItem) => item.productId == product.id;
    match FindIndex(cart, p)
    case Some(i) =>
      AddExisting(cart, product, i);
    case None =>
      AddNew(cart, product);
  }

  /** Adding never takes the product's quantity above its stock: its item is either the one
      that was there before or holds at most `stock` units. */
  lemma AddRespectsStock(cart: Cart, product: PosProduct)
    requires ValidCart(cart)
    ensures forall i :: 0 <= i < |AddToCart(cart, product)| && AddToCart(cart, product)[i].productId == product.id ==>
              (i < |cart| && AddToCart(cart, product)[i] == cart[i]) || AddToCart(cart, product)[i].quantity <= product.stock
  {
    var p := (item: SaleItem) => item.productId == product.id;
    match FindIndex(cart, p)
    case Some(i) =>
      AddExisting(cart, product, i);
    case None =>
      AddNew(cart, product);
  }

  // ---------------------------------------------------------------------------------------
  // Properties of updating and removing

  /** Removing keeps exactly the items of the other products, in order. */
  lemma RemoveSpec(cart: Cart, productId: int)
    ensures !InCart(RemoveFromCart(cart, productId), productId)
    ensures forall item :: item in cart && item.productId != productId ==> item in RemoveFromCart(cart, productId)
    ensures IsSubseq(RemoveFromCart(cart, productId), cart)
  {
    FilterIsSubseq(cart, (item: SaleItem) => item.productId != productId);
  }

  lemma {:induction false} SubseqKeepsValid(xs: Cart, ys: Cart)
    requires IsSubseq(xs, ys) && ValidCart(ys)
    ensures ValidCart(xs)
    decreases |ys|
  {
    if xs != [] && ys != [] {
      assert ValidCart(ys[1..]);
      if xs[0] == ys[0] {
        SubseqKeepsValid(xs[1..], ys[1..]);
        forall j | 0 < j < |xs| ensures xs[0].productId != xs[j].productId {
          assert xs[j] == xs[1..][j - 1];
          SubseqMember(xs[1..], ys[1..], j - 1);
        }
      } else {
        SubseqKeepsValid(xs, ys[1..]);
      }
    }
  }

  /** Every element of a subsequence is an element of the longer sequence. */
  lemma {:induction false} SubseqMember(xs: Cart, ys: Cart, k: nat)
    requires IsSubseq(xs, ys) && k < |xs|
    ensures exists m :: 0 <= m < |ys| && ys[m] == xs[k]
    decreases |ys|
  {
    assert ys != [];
    if xs[0] == ys[0] {
      if k > 0 {
        SubseqMember(xs[1..], ys[1..], k - 1);
        var m :| 0 <= m < |ys[1..]| && ys[1..][m] == xs[1..][k - 1];
        assert ys[m + 1] == xs[k];
      }
    } else {
      SubseqMember(xs, ys[1..], k);
      var m :| 0 <= m < |ys[1..]| && ys[1..][m] == xs[k];
      assert ys[m + 1] == xs[k];
    }
  }

  /** Setting a quantity of 0 removes the item, a quantity up to the stock replaces the
      quantity and subtotal of that product's item only, and an unknown product or a
      quantity above the stock changes nothing. */
  lemma UpdateQuantitySpec(cart: Cart, products: seq<PosProduct>, productId: int, n: int, k: nat)
    requires k < |products| && products[k].id == productId
    requires forall j :: 0 <= j < k ==> products[j].id != productId
    ensures n == 0 ==> UpdateQuantity(cart, products, productId, n) == RemoveFromCart(cart, productId)
    ensures n != 0 && n <= products[k].stock ==> UpdateQuantity(cart, products, productId, n) == SetQuantity(cart, productId, n)
    ensures n != 0 && n > products[k].stock ==> UpdateQuantity(cart, products, productId, n) == cart
  {
    FindIndexAt(products, (p: PosProduct) => p.id == productId, k);
  }

  lemma UpdateUnknownProduct(cart: Cart, products: seq<PosProduct>, productId: int, n: int)
    requires forall j :: 0 <= j < |products| ==> products[j].id != productId
    ensures UpdateQuantity(cart, products, productId, n) == cart
  {
    assert forall j :: 0 <= j < |products| ==> !(products[j].id == productId);
  }

  /** The screen's `-` and `+` buttons pass the current quantity minus or plus one, never a
      negative number; with any non-negative quantity the cart stays valid. */
  lemma UpdateKeepsValid(cart: Cart, products: seq<PosProduct>, productId: int, n: int)
    requires ValidCart(cart) && n >= 0
    ensures ValidCart(UpdateQuantity(cart, products, productId, n))
  {
    if n == 0 {
      RemoveKeepsValid(cart, productId);
    } else {
      SetQuantityKeepsValid(cart, productId, n);
    }
  }

  lemma SetQuantityKeepsValid(cart: Cart, productId: int, n: int)
    requires ValidCart(cart) && n >= 1
    ensures ValidCart(SetQuantity(cart, productId, n))
  {
  }

  /** A negative quantity below the stock is not refused: it is written into the item. */
  lemma NegativeQuantityAccepted()
    ensures var products := [PosProduct(7, "Leche", "775", 420, 5)];
            var cart := [SaleItem(7, "Leche", 1, 420, 420)];
            UpdateQuantity(cart, products, 7, -2) == [SaleItem(7, "Leche", -2, 420, -840)]
  {
    var products := [PosProduct(7, "Leche", "775", 420, 5)];
    FindIndexAt(products, (p: PosProduct) => p.id == 7, 0);
  }

  lemma RemoveKeepsValid(cart: Cart, productId: int)
    requires ValidCart(cart)
    ensures ValidCart(RemoveFromCart(cart, productId))
  {
    RemoveSpec(cart, productId);
    SubseqKeepsValid(RemoveFromCart(cart, productId), cart);
  }

  // ---------------------------------------------------------------------------------------
  // Checkout

  /** An empty cart emits nothing; otherwise the sale carries the cart as its items and the
      cart total as its total, and the cart and search box are cleared. */
  lemma ProcessSaleSpec(cart: Cart, paymentMethod: PaymentChoice, searchTerm: string, now: Timestamp)
    ensures cart == [] ==> ProcessSale(cart, paymentMethod, searchTerm, now) == Checkout(None, cart, searchTerm)
    ensures cart != [] ==>
              var c := ProcessSale(cart, paymentMethod, searchTerm, now);
              && c.sale.Some? && c.sale.value.items == cart && c.sale.value.total == CartTotal(cart)
              && c.sale.value.date == now
              && Numbers.ParseInt(c.sale.value.id) == Some(now)
              && c.cart == [] && c.searchTerm == ""
  {
    Numbers.ParseIntReadsString(now);
  }
}
