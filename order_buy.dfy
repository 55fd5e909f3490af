/** The purchase-order screen (src/components/OrderBuy/OrderBuy.tsx): the provider search
    over loaded orders, the detail list of a new order, creating the order and its detail
    records, and marking an order delivered, which raises product stock.

    The backend is seen only through the records these handlers write: a POST appends a
    record, a PUT overwrites a field of the record with that document id. Any request may
    throw; `failAt` is the number of requests of one handler that succeed before one fails
    (a value beyond the handler's request count means none fails). */
module OrderBuy {
  import opened Seqs
  import opened Types
  import Text
  import Numbers

  datatype Provider = Provider(id: int, razonSocial: string)

  /** A detail record of a loaded order. Its product relation may be missing, and a stored
      `cantidad` of null (what JSON makes of NaN) adds as 0. */
  datatype OrderDetail = OrderDetail(product: Option<int>, cantidad: Option<int>)

  datatype Order = Order(id: int, documentId: string, estado: bool, provider: Option<Provider>, details: seq<OrderDetail>)

  // ---------------------------------------------------------------------------------------
  // Search

  /** `order.provider?.razonSocial.toLowerCase().includes(term.toLowerCase())`: an order with
      no provider yields `undefined`, which the filter drops. */
  predicate MatchesProvider(o: Order, searchTerm: string)
  {
    o.provider.Some? && Text.Includes(Text.ToLower(o.provider.value.razonSocial), Text.ToLower(searchTerm))
  }

  function FilteredOrders(orders: seq<Order>, searchTerm: string): (r: seq<Order>)
    ensures forall o :: o in r <==> o in orders && MatchesProvider(o, searchTerm)
    ensures IsSubseq(r, orders)
  {
    FilterIsSubseq(orders, (o: Order) => MatchesProvider(o, searchTerm));
    Filter(orders, (o: Order) => MatchesProvider(o, searchTerm))
  }

  /** With an empty search the list holds exactly the orders that have a provider. */
  lemma EmptySearchShowsOrdersWithProvider(orders: seq<Order>)
    ensures FilteredOrders(orders, "") == Filter(orders, (o: Order) => o.provider.Some?)
  {
    forall o: Order | o.provider.Some? ensures MatchesProvider(o, "") {
      Text.IncludesEmpty(Text.ToLower(o.provider.value.razonSocial));
    }
    FilterEquivalent(orders, (o: Order) => MatchesProvider(o, ""), (o: Order) => o.provider.Some?);
  }

  // ---------------------------------------------------------------------------------------
  // Editing the detail list

  /** A line of the new order. The quantity comes from `parseInt` of the input, so it may be
      NaN (`None`). */
  datatype Entry = Entry(product: int, cantidad: Option<int>, productName: string)

  /** The part of the form the detail buttons work on: the lines, the selected product
      (`None` for null and for NaN) and the quantity input. */
  datatype DetailForm = DetailForm(entries: seq<Entry>, selectedProduct: Option<int>, cantidad: Option<int>)

  /** `!selectedProduct`: null, NaN and 0 are all falsy. */
  predicate NoSelection(v: Option<int>)
  {
    v.None? || v.value == 0
  }

  /** `cantidad <= 0`, which is false for NaN. */
  predicate NotPositive(v: Option<int>)
  {
    v.Some? && v.value <= 0
  }

  /** `agregarProductoDetalle()`. */
  function AgregarProductoDetalle(form: DetailForm, products: seq<Product>): DetailForm
  {
    if NoSelection(form.selectedProduct) || NotPositive(form.cantidad) then form
    else
      match Find(products, (p: Product) => p.id == form.selectedProduct.value)
      case None => form
      case Some(product) =>
        DetailForm(form.entries + [Entry(form.selectedProduct.value, form.cantidad, product.descripcion)], None, Some(1))
  }

  /** Without a selection, with a quantity at or below zero, or with a product that is not
      in the list, nothing changes; otherwise exactly one line is appended, carrying the
      selection, the quantity and the description of the first product with that id, and
      the inputs are reset. */
  lemma AgregarSpec(form: DetailForm, products: seq<Product>)
    ensures NoSelection(form.selectedProduct) || NotPositive(form.cantidad) ==>
              AgregarProductoDetalle(form, products) == form
    ensures !NoSelection(form.selectedProduct) && (forall i :: 0 <= i < |products| ==> products[i].id != form.selectedProduct.value) ==>
              AgregarProductoDetalle(form, products) == form
    ensures forall k :: 0 <= k < |products| && !NoSelection(form.selectedProduct) && !NotPositive(form.cantidad) &&
                        products[k].id == form.selectedProduct.value &&
                        (forall i :: 0 <= i < k ==> products[i].id != products[k].id) ==>
              AgregarProductoDetalle(form, products) ==
              DetailForm(form.entries + [Entry(products[k].id, form.cantidad, products[k].descripcion)], None, Some(1))
  {
    if !NoSelection(form.selectedProduct) {
      var p := (q: Product) => q.id == form.selectedProduct.value;
      forall k | 0 <= k < |products| && products[k].id == form.selectedProduct.value &&
                 (forall i :: 0 <= i < k ==> products[i].id != products[k].id)
        ensures Find(products, p) == Some(products[k])
      {
        FindIndexAt(products, p, k);
      }
    }
  }

  /** A quantity input that does not parse passes the guard and is added as a line. */
  lemma NaNQuantityAdded()
    ensures var products := [Product(4, "d4", "Aceite", 900, "6", "", 1, None)];
            var form := DetailForm([], Some(4), None);
            AgregarProductoDetalle(form, products).entries == [Entry(4, None, "Aceite")]
  {
    var products := [Product(4, "d4", "Aceite", 900, "6", "", 1, None)];
    FindIndexAt(products, (q: Product) => q.id == 4, 0);
  }

  /** `orderDetails.filter((_, i) => i !== index)`. */
  function EliminarProductoDetalle<T>(entries: seq<T>, index: int): (r: seq<T>)
    ensures |r| <= |entries|
  {
    if entries == [] then []
    else (if index == 0 then [] else [entries[0]]) + EliminarProductoDetalle(entries[1..], index - 1)
  }

  /** Removing the line at a valid index drops exactly that line and keeps the others in
      order; any other index changes nothing. */
  lemma {:induction false} EliminarSpec<T>(entries: seq<T>, index: int)
    ensures 0 <= index < |entries| ==> EliminarProductoDetalle(entries, index) == entries[..index] + entries[index + 1..]
    ensures !(0 <= index < |entries|) ==> EliminarProductoDetalle(entries, index) == entries
  {
    if entries != [] {
      EliminarSpec(entries[1..], index - 1);
      if index == 0 {
        assert entries[..0] + entries[1..] == entries[1..];
      } else if 0 < index < |entries| {
        assert entries[..index] + entries[index + 1..] == [entries[0]] + (entries[1..][..index - 1] + entries[1..][index..]);
      } else {
        assert [entries[0]] + entries[1..] == entries;
      }
    }
  }

  // ---------------------------------------------------------------------------------------
  // What the handlers write

  /** The body of `POST /order-buys`. */
  datatype NewOrder = NewOrder(fechaOrden: Timestamp, fechaEntrega: Option<Timestamp>, estado: bool, igv: Option<real>, provider: int)

  /** The body of `POST /detail-order-buys`. */
  datatype NewDetail = NewDetail(cantidad: Option<int>, product: int, orderBuy: int)

  /** The fields `PUT /order-buys/:documentId` sets. */
  datatype Delivery = Delivery(estado: bool, fechaEntrega: Timestamp)

  /** One detail record per line, all pointing at order `orderId`. */
  function DetailRecords(entries: seq<Entry>, orderId: int): (r: seq<NewDetail>)
    ensures |r| == |entries|
    ensures forall i :: 0 <= i < |r| ==> r[i] == NewDetail(entries[i].cantidad, entries[i].product, orderId)
  {
    seq(|entries|, i requires 0 <= i < |entries| => NewDetail(entries[i].cantidad, entries[i].product, orderId))
  }

  datatype SubmitOutcome = MissingProvider | NoDetails | Saved | Failed

  /** `parseInt(product.stock) + detail.cantidad`, written back with `toString()`: a stock
      that does not parse gives `"NaN"`, a null quantity adds nothing. */
  function ReceivedStock(stock: string, cantidad: Option<int>): string
  {
    Numbers.NumberToString(PlusOpt(Numbers.ParseInt(stock), if cantidad.Some? then cantidad.value else 0))
  }

  /** `products.find(p => p.id === detail.product?.id)`: a missing relation matches nothing. */
  function FindProduct(products: seq<Product>, id: Option<int>): (r: Option<Product>)
    ensures r.Some? ==> r.value in products && id == Some(r.value.id)
  {
    if id.None? then None else Find(products, (p: Product) => p.id == id.value)
  }

  /** The stock write one detail causes: none when its product is not in the loaded list,
      otherwise that product's new stock computed from the loaded value. */
  function WriteFor(products: seq<Product>, d: OrderDetail): (r: seq<(string, string)>)
    ensures |r| <= 1
    ensures |r| == 1 <==> FindProduct(products, d.product).Some?
  {
    match FindProduct(products, d.product)
    case Some(p) => [(p.documentId, ReceivedStock(p.stock, d.cantidad))]
    case None => []
  }

  /** The stock writes of `handleMarcarEntregado`, in order. */
  function DeliveryWrites(details: seq<OrderDetail>, products: seq<Product>): seq<(string, string)>
  {
    FlatMap(details, (d: OrderDetail) => WriteFor(products, d))
  }

  lemma DeliveryWritesStep(ds: seq<OrderDetail>, k: nat, products: seq<Product>)
    requires k < |ds|
    ensures DeliveryWrites(ds[..k + 1], products) == DeliveryWrites(ds[..k], products) + WriteFor(products, ds[k])
  {
    FlatMapStep(ds, k, (d: OrderDetail) => WriteFor(products, d));
  }

  /** The writes of a prefix of the details are a prefix of all the writes. */
  lemma DeliveryWritesPrefix(ds: seq<OrderDetail>, k: nat, products: seq<Product>)
    requires k <= |ds|
    ensures var w := DeliveryWrites(ds[..k], products);
            |w| <= |DeliveryWrites(ds, products)| && DeliveryWrites(ds, products)[..|w|] == w
  {
    FlatMapPrefix(ds, k, (d: OrderDetail) => WriteFor(products, d));
  }

  class Backend {
    var orders: seq<NewOrder>
    var details: seq<NewDetail>
    var deliveries: map<string, Delivery>
    var stock: map<string, string>

    constructor (stock0: map<string, string>)
      ensures orders == [] && details == [] && deliveries == map[] && stock == stock0
    {
      orders := [];
      details := [];
      deliveries := map[];
      stock := stock0;
    }

    /** `handleSubmit`: refuse without a provider or without lines; otherwise create the
        order, pending, then one detail record per line. Stock is never touched. */
    method Submit(selectedProvider: Option<int>, entries: seq<Entry>, fechaEntrega: Option<Timestamp>,
                  igv: Option<real>, now: Timestamp, failAt: nat) returns (outcome: SubmitOutcome)
      modifies this
      ensures stock == old(stock) && deliveries == old(deliveries)
      ensures outcome == MissingProvider <==> NoSelection(selectedProvider)
      ensures outcome == NoDetails <==> !NoSelection(selectedProvider) && entries == []
      ensures outcome == Saved <==> !NoSelection(selectedProvider) && entries != [] && failAt > |entries|
      ensures outcome == MissingProvider || outcome == NoDetails || (outcome == Failed && failAt == 0) ==>
                orders == old(orders) && details == old(details)
      ensures outcome == Saved || (outcome == Failed && failAt > 0) ==>
                && orders == old(orders) + [NewOrder(now, fechaEntrega, false, igv, selectedProvider.value)]
                && details == old(details) + DetailRecords(if outcome == Saved then entries else entries[..failAt - 1], |orders|)
    {
      if NoSelection(selectedProvider) {
        return MissingProvider;
      }
      if |entries| == 0 {
        return NoDetails;
      }
      if failAt == 0 {
        return Failed;
      }
      orders := orders + [NewOrder(now, fechaEntrega, false, igv, selectedProvider.value)];
      var orderId := |orders|;
      var k := 0;
      while k < |entries|
        invariant 0 <= k <= |entries| && k < failAt
        invariant orders == old(orders) + [NewOrder(now, fechaEntrega, false, igv, selectedProvider.value)]
        invariant orderId == |orders|
        invariant details == old(details) + DetailRecords(entries[..k], orderId)
        invariant stock == old(stock) && deliveries == old(deliveries)
      {
        if failAt == k + 1 {
          return Failed;
        }
        details := details + [NewDetail(entries[k].cantidad, entries[k].product, orderId)];
        assert DetailRecords(entries[..k + 1], orderId) == DetailRecords(entries[..k], orderId) + [NewDetail(entries[k].cantidad, entries[k].product, orderId)];
        k := k + 1;
      }
      assert entries[..k] == entries;
      return Saved;
    }

    /** `PUT /products/:documentId` with a new stock text. */
    method PutStock(documentId: string, nuevoStock: string)
      modifies this
      ensures stock == old(stock)[documentId := nuevoStock]
      ensures orders == old(orders) && details == old(details) && unchanged(this`deliveries)
    {
      stock := stock[documentId := nuevoStock];
    }

    /** The `PUT` of one detail, if it causes one. */
    method SendPut(writes: seq<(string, string)>)
      requires |writes| <= 1
      modifies this
      ensures stock == WriteAll(old(stock), writes)
      ensures orders == old(orders) && details == old(details) && unchanged(this`deliveries)
    {
      if writes != [] {
        WriteAllPush(stock, [], writes[0]);
        assert [] + [writes[0]] == writes;
        PutStock(writes[0].0, writes[0].1);
      }
    }

    /** The stock `PUT`s of `handleMarcarEntregado`, one per detail whose product is loaded,
        in order, when `budget` more requests can succeed: the result says whether all of
        them did, and a failing request stops the rest. */
    method PutStocks(ds: seq<OrderDetail>, products: seq<Product>, budget: nat) returns (ok: bool)
      modifies this
      ensures orders == old(orders) && details == old(details) && unchanged(this`deliveries)
      ensures ok <==> |DeliveryWrites(ds, products)| <= budget
      ensures ok ==> stock == WriteAll(old(stock), DeliveryWrites(ds, products))
      ensures !ok ==> stock == WriteAll(old(stock), DeliveryWrites(ds, products)[..budget])
    {
      var sent := 0;
      var k := 0;
      while k < |ds|
        invariant 0 <= k <= |ds|
        invariant sent == |DeliveryWrites(ds[..k], products)| <= budget
        invariant stock == WriteAll(old(stock), DeliveryWrites(ds[..k], products))
        invariant orders == old(orders) && details == old(details) && unchanged(this`deliveries)
      {
        var put := WriteFor(products, ds[k]);
        ghost var before := DeliveryWrites(ds[..k], products);
        DeliveryWritesStep(ds, k, products);
        if put != [] && sent == budget {
          DeliveryWritesPrefix(ds, k, products);
          DeliveryWritesPrefix(ds, k + 1, products);
          return false;
        }
        WriteAllAppend(old(stock), before, put);
        SendPut(put);
        sent := sent + |put|;
        k := k + 1;
      }
      assert ds[..k] == ds;
      return true;
    }

    /** `handleMarcarEntregado`: mark the order delivered first, then for each detail whose
        product is in the loaded list write `parseInt(loaded stock) + cantidad`. Request
        number `failAt` (counting from 1) is the first to fail, if any; the result says
        whether every request succeeded. */
    method MarkDelivered(selected: Option<Order>, products: seq<Product>, now: Timestamp, failAt: nat) returns (ok: bool)
      modifies this
      ensures orders == old(orders) && details == old(details)
      ensures selected.None? || failAt == 0 ==> !ok && deliveries == old(deliveries) && stock == old(stock)
      ensures selected.Some? && failAt > 0 ==>
                deliveries == old(deliveries)[selected.value.documentId := Delivery(true, now)]
      ensures selected.Some? && failAt > 0 ==>
                (ok <==> |DeliveryWrites(selected.value.details, products)| < failAt)
      ensures selected.Some? && ok ==>
                stock == WriteAll(old(stock), DeliveryWrites(selected.value.details, products))
      ensures selected.Some? && failAt > 0 && !ok ==>
                stock == WriteAll(old(stock), DeliveryWrites(selected.value.details, products)[..failAt - 1])
    {
      if selected.None? || failAt == 0 {
        return false;
      }
      deliveries := deliveries[selected.value.documentId := Delivery(true, now)];
      ok := PutStocks(selected.value.details, products, failAt - 1);
    }
  }

  // ---------------------------------------------------------------------------------------
  // The lost update, and the accumulating version

  /** None of the details writes to `key`. */
  predicate NoWriteTo(ds: seq<OrderDetail>, products: seq<Product>, key: string)
  {
    forall j :: 0 <= j < |ds| && FindProduct(products, ds[j].product).Some? ==>
      FindProduct(products, ds[j].product).value.documentId != key
  }

  lemma {:induction false} NoWriteToWrites(ds: seq<OrderDetail>, products: seq<Product>, key: string)
    requires NoWriteTo(ds, products, key)
    ensures forall i :: 0 <= i < |DeliveryWrites(ds, products)| ==> DeliveryWrites(ds, products)[i].0 != key
  {
    if ds != [] {
      var init := ds[..|ds| - 1];
      assert NoWriteTo(init, products, key) by {
        forall j | 0 <= j < |init| ensures init[j] == ds[j] { }
      }
      NoWriteToWrites(init, products, key);
      assert DeliveryWrites(ds, products) == DeliveryWrites(init, products) + WriteFor(products, ds[|ds| - 1]);
    }
  }

  /** Each write of `DeliveryWrites` is computed from the loaded snapshot alone, so the value
      left for a product is the one computed from the last detail naming it: earlier details
      naming the same product are overwritten, whatever other details follow. */
  lemma LastDetailWins(stock: map<string, string>, ds: seq<OrderDetail>, products: seq<Product>, p: Product, k: nat)
    requires k < |ds| && FindProduct(products, ds[k].product) == Some(p)
    requires NoWriteTo(ds[k + 1..], products, p.documentId)
    ensures p.documentId in WriteAll(stock, DeliveryWrites(ds, products))
    ensures WriteAll(stock, DeliveryWrites(ds, products))[p.documentId] == ReceivedStock(p.stock, ds[k].cantidad)
  {
    var f := (d: OrderDetail) => WriteFor(products, d);
    var head := DeliveryWrites(ds[..k + 1], products);
    var tail := DeliveryWrites(ds[k + 1..], products);
    assert ds[..k + 1] + ds[k + 1..] == ds;
    FlatMapAppend(ds[..k + 1], ds[k + 1..], f);
    assert DeliveryWrites(ds, products) == head + tail;
    DeliveryWritesStep(ds, k, products);
    assert head == DeliveryWrites(ds[..k], products) + [(p.documentId, ReceivedStock(p.stock, ds[k].cantidad))];
    WriteAllPush(stock, DeliveryWrites(ds[..k], products), (p.documentId, ReceivedStock(p.stock, ds[k].cantidad)));
    WriteAllAppend(stock, head, tail);
    NoWriteToWrites(ds[k + 1..], products, p.documentId);
    WriteAllUntouched(WriteAll(stock, head), tail, p.documentId);
  }

  /** `parseInt("10")` is 10. */
  lemma ParseTen()
    ensures Numbers.ParseInt("10") == Some(10)
  {
    Numbers.ParseIntReadsString(10);
    assert Numbers.IntToString(10) == "10";
  }

  /** Two lines of 3 and 4 units for a product holding 10 leave it at 14, not 17. */
  lemma LostUpdateExample()
    ensures var p := Product(5, "p5", "Azucar", 300, "10", "", 0, None);
            var ds := [OrderDetail(Some(5), Some(3)), OrderDetail(Some(5), Some(4))];
            Numbers.ParseInt(WriteAll(map["p5" := "10"], DeliveryWrites(ds, [p]))["p5"]) == Some(14)
  {
    var p := Product(5, "p5", "Azucar", 300, "10", "", 0, None);
    var ds := [OrderDetail(Some(5), Some(3)), OrderDetail(Some(5), Some(4))];
    FindIndexAt([p], (q: Product) => q.id == 5, 0);
    LastDetailWins(map["p5" := "10"], ds, [p], p, 1);
    ReceivedStockValue("10", Some(4));
    ParseTen();
  }

  /** The quantity the details add to product `id` (a null quantity adds 0). */
  function Received(ds: seq<OrderDetail>, id: int): int
  {
    if ds == [] then 0
    else Received(ds[..|ds| - 1], id) + Quantity(ds[|ds| - 1], id)
  }

  function PlusOpt(v: Option<int>, q: int): Option<int>
  {
    if v.Some? then Some(v.value + q) else None
  }

  /** The current stock text of a product: the store's value when it has one, else the
      loaded one. */
  function CurrentStock(stock: map<string, string>, p: Product): string
  {
    if p.documentId in stock then stock[p.documentId] else p.stock
  }

  /** One detail received against the current store: its product's current stock plus the
      quantity. */
  function ReceiveOne(stock: map<string, string>, d: OrderDetail, products: seq<Product>): map<string, string>
  {
    match FindProduct(products, d.product)
    case Some(p) => stock[p.documentId := ReceivedStock(CurrentStock(stock, p), d.cantidad)]
    case None => stock
  }

  /** The intended receiving: each write starts from the product's current stock, so every
      detail adds its quantity. */
  function ReceiveAll(stock: map<string, string>, ds: seq<OrderDetail>, products: seq<Product>): map<string, string>
  {
    if ds == [] then stock
    else ReceiveOne(ReceiveAll(stock, ds[..|ds| - 1], products), ds[|ds| - 1], products)
  }

  predicate UniqueDocumentIds(products: seq<Product>)
  {
    forall i, j :: 0 <= i < |products| && 0 <= j < |products| && products[i].documentId == products[j].documentId ==> i == j
  }

  predicate FirstWithId(products: seq<Product>, k: nat)
    requires k < |products|
  {
    forall i :: 0 <= i < k ==> products[i].id != products[k].id
  }

  /** `parseInt` of what `ReceivedStock` wrote: the old value plus the quantity, NaN staying NaN. */
  lemma ReceivedStockValue(stock: string, cantidad: Option<int>)
    ensures Numbers.ParseInt(ReceivedStock(stock, cantidad)) ==
            PlusOpt(Numbers.ParseInt(stock), if cantidad.Some? then cantidad.value else 0)
  {
    Numbers.ParseIntNumberToString(PlusOpt(Numbers.ParseInt(stock), if cantidad.Some? then cantidad.value else 0));
  }

  lemma PlusOptAdd(x: Option<int>, v: Option<int>, a: int, b: int, t: int)
    requires x == PlusOpt(v, a) && t == a + b
    ensures PlusOpt(x, b) == PlusOpt(v, t)
    ensures b == 0 ==> x == PlusOpt(v, t)
  {
  }

  /** Which product a detail writes to, in the list with unique document ids: the product
      at `k` exactly when the detail names its id. */
  lemma WritesTo(products: seq<Product>, k: nat, d: OrderDetail)
    requires k < |products| && UniqueDocumentIds(products) && FirstWithId(products, k)
    ensures FindProduct(products, d.product).Some? && FindProduct(products, d.product).value.documentId == products[k].documentId
            <==> d.product == Some(products[k].id)
    ensures d.product == Some(products[k].id) ==> FindProduct(products, d.product) == Some(products[k])
  {
    if d.product == Some(products[k].id) {
      FindIndexAt(products, (p: Product) => p.id == products[k].id, k);
    }
    var r := FindProduct(products, d.product);
    if r.Some? && r.value.documentId == products[k].documentId {
      var i :| 0 <= i < |products| && products[i] == r.value;
      assert i == k;
    }
  }

  /** The quantity one detail adds to product `id`. */
  function Quantity(d: OrderDetail, id: int): int
  {
    if d.product == Some(id) && d.cantidad.Some? then d.cantidad.value else 0
  }

  /** One received detail adds its quantity to the product it names and leaves every other
      product's stock as it was. */
  lemma ReceiveOneValue(stock: map<string, string>, d: OrderDetail, products: seq<Product>, k: nat)
    requires k < |products| && UniqueDocumentIds(products) && FirstWithId(products, k)
    ensures Numbers.ParseInt(CurrentStock(ReceiveOne(stock, d, products), products[k])) ==
            PlusOpt(Numbers.ParseInt(CurrentStock(stock, products[k])), Quantity(d, products[k].id))
  {
    var p := products[k];
    WritesTo(products, k, d);
    if d.product == Some(p.id) {
      assert CurrentStock(ReceiveOne(stock, d, products), p) == ReceivedStock(CurrentStock(stock, p), d.cantidad);
      ReceivedStockValue(CurrentStock(stock, p), d.cantidad);
    } else {
      assert CurrentStock(ReceiveOne(stock, d, products), p) == CurrentStock(stock, p);
    }
  }

  /** With the accumulating receive, every product ends at its starting stock plus all the
      quantities the order's details name it with. */
  lemma {:induction false} ReceiveAllAddsEverything(stock: map<string, string>, ds: seq<OrderDetail>, products: seq<Product>, k: nat)
    requires k < |products| && UniqueDocumentIds(products) && FirstWithId(products, k)
    ensures Numbers.ParseInt(CurrentStock(ReceiveAll(stock, ds, products), products[k])) ==
            PlusOpt(Numbers.ParseInt(CurrentStock(stock, products[k])), Received(ds, products[k].id))
  {
    var p := products[k];
    var v := Numbers.ParseInt(CurrentStock(stock, p));
    if ds == [] {
      PlusOptAdd(v, v, 0, 0, 0);
    } else {
      var front := ds[..|ds| - 1];
      var last := ds[|ds| - 1];
      var before := ReceiveAll(stock, front, products);
      ReceiveAllAddsEverything(stock, front, products, k);
      ReceiveOneValue(before, last, products, k);
      PlusOptAdd(Numbers.ParseInt(CurrentStock(before, p)), v, Received(front, p.id), Quantity(last, p.id), Received(ds, p.id));
    }
  }

  // ---------------------------------------------------------------------------------------
  // The detail modal

  datatype ModalAction = Close | MarkAsDelivered

  /** The buttons of the detail modal: a pending order offers "mark delivered", a delivered
      one only "close". */
  function ModalActions(order: Order): (r: seq<ModalAction>)
    ensures MarkAsDelivered in r <==> !order.estado
    ensures Close in r
  {
    if !order.estado then [Close, MarkAsDelivered] else [Close]
  }
}
