/** The browser-local store (src/services/dataService.ts): products, customers and sales kept
    as lists under fixed keys of `localStorage`, with upsert-by-id, delete-by-id, appending a
    sale (which lowers product stock item by item) and the dashboard totals. */
module DataService {
  import opened Seqs
  import opened Types
  import Numbers
  import Text

  /** What `JSON.parse` makes of the text stored under a key; `Unreadable` stands for text
      that does not parse or is empty. A parsed value is taken to have its key's list shape:
      one of another shape would be handed to the caller as it is, which this type omits. */
  datatype Stored = ProductList(products: seq<Product>)
                  | CustomerList(customers: seq<Customer>)
                  | SaleList(sales: seq<Sale>)
                  | Unreadable

  const ProductsKey: string := "minimarket_products"
  const CustomersKey: string := "minimarket_customers"
  const SalesKey: string := "minimarket_sales"

  type Storage = map<string, Stored>

  /** `getStoredData(key, default)`: the decoded list, or the default when the key is absent
      or its text cannot be decoded. */
  function GetStoredData<T>(storage: Storage, key: string, decode: Stored -> Option<T>, default: T): (r: T)
    ensures key !in storage ==> r == default
    ensures key in storage && decode(storage[key]).None? ==> r == default
    ensures key in storage && decode(storage[key]).Some? ==> r == decode(storage[key]).value
  {
    if key in storage then
      match decode(storage[key])
      case Some(v) => v
      case None => default
    else default
  }

  function DecodeProducts(s: Stored): Option<seq<Product>>
  {
    if s.ProductList? then Some(s.products) else None
  }

  function DecodeCustomers(s: Stored): Option<seq<Customer>>
  {
    if s.CustomerList? then Some(s.customers) else None
  }

  function DecodeSales(s: Stored): Option<seq<Sale>>
  {
    if s.SaleList? then Some(s.sales) else None
  }

  function StoredProducts(storage: Storage): seq<Product>
  {
    GetStoredData(storage, ProductsKey, DecodeProducts, [])
  }

  function StoredCustomers(storage: Storage): seq<Customer>
  {
    GetStoredData(storage, CustomersKey, DecodeCustomers, [])
  }

  function StoredSales(storage: Storage): seq<Sale>
  {
    GetStoredData(storage, SalesKey, DecodeSales, [])
  }

  // ---------------------------------------------------------------------------------------
  // Upsert by id

  /** `findIndex` by key, then overwrite that element or push a new one. */
  function Upsert<T, K(==)>(xs: seq<T>, x: T, key: T -> K): seq<T>
  {
    match FindIndex(xs, (y: T) => key(y) == key(x))
    case Some(i) => xs[i := x]
    case None => xs + [x]
  }

  /** An element with the same key is replaced where it stands; the length is unchanged and
      nothing else moves. */
  lemma UpsertExisting<T, K>(xs: seq<T>, x: T, key: T -> K, i: nat)
    requires i < |xs| && key(xs[i]) == key(x)
    requires forall j :: 0 <= j < i ==> key(xs[j]) != key(x)
    ensures |Upsert(xs, x, key)| == |xs|
    ensures Upsert(xs, x, key)[i] == x
    ensures forall j :: 0 <= j < |xs| && j != i ==> Upsert(xs, x, key)[j] == xs[j]
  {
    FindIndexAt(xs, (y: T) => key(y) == key(x), i);
  }

  /** An element with a new key goes to the end and every earlier element stays. */
  lemma UpsertNew<T, K>(xs: seq<T>, x: T, key: T -> K)
    requires forall j :: 0 <= j < |xs| ==> key(xs[j]) != key(x)
    ensures Upsert(xs, x, key) == xs + [x]
  {
    var p := (y: T) => key(y) == key(x);
    assert forall j :: 0 <= j < |xs| ==> !p(xs[j]);
  }

  /** After an upsert, looking the key up finds exactly the element just saved. */
  lemma FindAfterUpsert<T, K>(xs: seq<T>, x: T, key: T -> K)
    ensures Find(Upsert(xs, x, key), (y: T) => key(y) == key(x)) == Some(x)
  {
    var p := (y: T) => key(y) == key(x);
    var r := Upsert(xs, x, key);
    match FindIndex(xs, p)
    case Some(i) =>
      assert forall j :: 0 <= j < i ==> r[j] == xs[j] && !p(r[j]);
      FindIndexAt(r, p, i);
    case None =>
      assert forall j :: 0 <= j < |xs| ==> r[j] == xs[j] && !p(r[j]);
      FindIndexAt(r, p, |xs|);
  }

  function ProductKey(p: Product): int
  {
    p.id
  }

  function CustomerKey(c: Customer): string
  {
    c.id
  }

  // ---------------------------------------------------------------------------------------
  // Deleting a customer

  function WithoutCustomer(cs: seq<Customer>, customerId: string): seq<Customer>
  {
    Filter(cs, (c: Customer) => c.id != customerId)
  }

  /** Deleting removes every customer with that id and keeps the others, in order, with
      their multiplicities. */
  lemma DeleteCustomerSpec(cs: seq<Customer>, customerId: string)
    ensures forall c :: c in WithoutCustomer(cs, customerId) ==> c.id != customerId
    ensures forall c :: c in cs && c.id != customerId ==> c in WithoutCustomer(cs, customerId)
    ensures forall c: Customer :: c.id != customerId ==> multiset(WithoutCustomer(cs, customerId))[c] == multiset(cs)[c]
    ensures IsSubseq(WithoutCustomer(cs, customerId), cs)
  {
    FilterIsSubseq(cs, (c: Customer) => c.id != customerId);
    forall c: Customer | c.id != customerId
      ensures multiset(WithoutCustomer(cs, customerId))[c] == multiset(cs)[c]
    {
      FilterMultiset(cs, (c: Customer) => c.id != customerId, c);
    }
  }

  // ---------------------------------------------------------------------------------------
  // Selling: stock decrement item by item

  function MinusOpt(v: Option<int>, q: int): Option<int>
  {
    match v
    case Some(n) => Some(n - q)
    case None => None
  }

  /** `String(Number(stock) - quantity)`; a stock text that is not a number gives `"NaN"`. */
  function Decremented(stock: string, quantity: int): string
  {
    Numbers.NumberToString(MinusOpt(Numbers.NumberOf(stock), quantity))
  }

  /** Reading back a decremented stock gives the old value minus the quantity, NaN staying NaN. */
  lemma DecrementedValue(stock: string, quantity: int)
    ensures Numbers.NumberOf(Decremented(stock, quantity)) == MinusOpt(Numbers.NumberOf(stock), quantity)
  {
    Numbers.NumberOfNumberToString(MinusOpt(Numbers.NumberOf(stock), quantity));
  }

  /** Whether an item of a sale rewrites a product: its product is in the list and its
      quantity is not zero (a missing quantity counts as zero). */
  predicate Writes(ps: seq<Product>, item: SaleItem)
  {
    FindIndex(ps, (p: Product) => p.id == item.productId).Some? && item.quantity != 0
  }

  /** One iteration of the stock loop on the product list. */
  function ApplyItem(ps: seq<Product>, item: SaleItem): (r: seq<Product>)
    ensures |r| == |ps|
  {
    match FindIndex(ps, (p: Product) => p.id == item.productId)
    case Some(i) =>
      if item.quantity != 0 then ps[i := ps[i].(stock := Decremented(ps[i].stock, item.quantity))] else ps
    case None => ps
  }

  /** The product list after the loop has run over `items`. */
  function ApplyItems(ps: seq<Product>, items: seq<SaleItem>): (r: seq<Product>)
    ensures |r| == |ps|
  {
    if items == [] then ps else ApplyItem(ApplyItems(ps, items[..|items| - 1]), items[|items| - 1])
  }

  /** One iteration of the stock loop on the whole storage: re-read the products, and store
      them back only when the item matched. */
  function StoreItem(storage: Storage, item: SaleItem): Storage
  {
    var ps := StoredProducts(storage);
    if Writes(ps, item) then storage[ProductsKey := ProductList(ApplyItem(ps, item))] else storage
  }

  function StoreItems(storage: Storage, items: seq<SaleItem>): Storage
  {
    if items == [] then storage else StoreItem(StoreItems(storage, items[..|items| - 1]), items[|items| - 1])
  }

  /** The storage after `saveSale(sale)`. */
  function AfterSale(storage: Storage, sale: Sale): Storage
  {
    StoreItems(storage[SalesKey := SaleList(StoredSales(storage) + [sale])], sale.items)
  }

  /** The total quantity the items take from product `id`. */
  function TotalQuantity(items: seq<SaleItem>, id: int): int
  {
    if items == [] then 0
    else
      var last := items[|items| - 1];
      TotalQuantity(items[..|items| - 1], id) + (if last.productId == id then last.quantity else 0)
  }

  predicate FirstWithId(ps: seq<Product>, j: nat)
    requires j < |ps|
  {
    forall i :: 0 <= i < j ==> ps[i].id != ps[j].id
  }

  /** One item rewrites only the stock of the first product carrying its id. */
  lemma ApplyItemEffect(ps: seq<Product>, item: SaleItem, j: nat)
    requires j < |ps|
    ensures ApplyItem(ps, item)[j] == ps[j].(stock := ApplyItem(ps, item)[j].stock)
    ensures ApplyItem(ps, item)[j].stock ==
            if FirstWithId(ps, j) && ps[j].id == item.productId && item.quantity != 0
            then Decremented(ps[j].stock, item.quantity)
            else ps[j].stock
  {
    var p := (q: Product) => q.id == item.productId;
    if FirstWithId(ps, j) && ps[j].id == item.productId {
      FindIndexAt(ps, p, j);
    }
  }

  /** The stock loop changes nothing but stock fields. */
  lemma {:induction false} ApplyItemsKeepsFields(ps: seq<Product>, items: seq<SaleItem>, j: nat)
    requires j < |ps|
    ensures ApplyItems(ps, items)[j] == ps[j].(stock := ApplyItems(ps, items)[j].stock)
  {
    if items != [] {
      var front := items[..|items| - 1];
      ApplyItemsKeepsFields(ps, front, j);
      ApplyItemEffect(ApplyItems(ps, front), items[|items| - 1], j);
    }
  }

  /** A stock text after every item naming product `id` has taken its quantity off. */
  function DecrementedBy(stock: string, items: seq<SaleItem>, id: int): string
  {
    if items == [] then stock
    else
      var last := items[|items| - 1];
      var before := DecrementedBy(stock, items[..|items| - 1], id);
      if last.productId == id && last.quantity != 0 then Decremented(before, last.quantity) else before
  }

  /** The stock loop rewrites the first product with each id by all the items naming it,
      in order, and leaves every other product's stock as it was. */
  lemma {:induction false} ApplyItemsStock(ps: seq<Product>, items: seq<SaleItem>, j: nat)
    requires j < |ps|
    ensures ApplyItems(ps, items)[j].stock ==
            if FirstWithId(ps, j) then DecrementedBy(ps[j].stock, items, ps[j].id) else ps[j].stock
  {
    if items != [] {
      var front := items[..|items| - 1];
      var mid := ApplyItems(ps, front);
      ApplyItemsStock(ps, front, j);
      ApplyItemsKeepsFields(ps, front, j);
      ApplyItemEffect(mid, items[|items| - 1], j);
      assert FirstWithId(mid, j) == FirstWithId(ps, j) by {
        forall i | 0 <= i < j ensures mid[i].id == ps[i].id {
          ApplyItemsKeepsFields(ps, front, i);
        }
      }
    }
  }

  /** Read back as a number, the repeatedly decremented stock is the old value minus the
      total quantity (NaN stays NaN), with no floor at zero. */
  lemma {:induction false} DecrementedByValue(stock: string, items: seq<SaleItem>, id: int)
    ensures Numbers.NumberOf(DecrementedBy(stock, items, id)) ==
            MinusOpt(Numbers.NumberOf(stock), TotalQuantity(items, id))
  {
    if items == [] {
      MinusOptAdd(Numbers.NumberOf(stock), Numbers.NumberOf(stock), 0, 0, 0);
    } else {
      DecrementedByValue(stock, items[..|items| - 1], id);
      DecrementedByStep(stock, items, id);
    }
  }

  /** One more item: the value read back moves by that item's share of the total. */
  lemma DecrementedByStep(stock: string, items: seq<SaleItem>, id: int)
    requires items != []
    requires Numbers.NumberOf(DecrementedBy(stock, items[..|items| - 1], id)) ==
             MinusOpt(Numbers.NumberOf(stock), TotalQuantity(items[..|items| - 1], id))
    ensures Numbers.NumberOf(DecrementedBy(stock, items, id)) ==
            MinusOpt(Numbers.NumberOf(stock), TotalQuantity(items, id))
  {
    var front := items[..|items| - 1];
    var last := items[|items| - 1];
    var before := DecrementedBy(stock, front, id);
    if last.productId == id && last.quantity != 0 {
      DecrementedValue(before, last.quantity);
      MinusOptAdd(Numbers.NumberOf(before), Numbers.NumberOf(stock), TotalQuantity(front, id), last.quantity, TotalQuantity(items, id));
    } else {
      MinusOptAdd(Numbers.NumberOf(before), Numbers.NumberOf(stock), TotalQuantity(front, id), 0, TotalQuantity(items, id));
    }
  }

  /** Taking `a` and then `b` off an optional value is taking `a + b` off it. */
  lemma MinusOptAdd(x: Option<int>, v: Option<int>, a: int, b: int, t: int)
    requires x == MinusOpt(v, a) && t == a + b
    ensures MinusOpt(x, b) == MinusOpt(v, t)
    ensures b == 0 ==> x == MinusOpt(v, t)
  {
  }

  /** The first product with a given id loses the total quantity of the items naming that
      id (NaN stays NaN), with no floor at zero; every other product keeps its stock. */
  lemma ApplyItemsEffect(ps: seq<Product>, items: seq<SaleItem>, j: nat)
    requires j < |ps|
    ensures ApplyItems(ps, items)[j] == ps[j].(stock := ApplyItems(ps, items)[j].stock)
    ensures Numbers.NumberOf(ApplyItems(ps, items)[j].stock) ==
            if FirstWithId(ps, j)
            then MinusOpt(Numbers.NumberOf(ps[j].stock), TotalQuantity(items, ps[j].id))
            else Numbers.NumberOf(ps[j].stock)
  {
    ApplyItemsKeepsFields(ps, items, j);
    ApplyItemsStock(ps, items, j);
    DecrementedByValue(ps[j].stock, items, ps[j].id);
  }

  /** Items naming no product in the list leave the list exactly as it was. */
  lemma {:induction false} ApplyItemsUnknown(ps: seq<Product>, items: seq<SaleItem>)
    requires forall k, j :: 0 <= k < |items| && 0 <= j < |ps| ==> ps[j].id != items[k].productId
    ensures ApplyItems(ps, items) == ps
  {
    if items != [] {
      var front := items[..|items| - 1];
      ApplyItemsUnknown(ps, front);
      var last := items[|items| - 1];
      assert FindIndex(ps, (p: Product) => p.id == last.productId).None?;
    }
  }

  /** On the storage, the loop leaves the other keys alone and the stored products are those
      of `ApplyItems`; if no item rewrites anything, the storage is untouched. */
  lemma {:induction false} StoreItemsEffect(storage: Storage, items: seq<SaleItem>)
    ensures StoredProducts(StoreItems(storage, items)) == ApplyItems(StoredProducts(storage), items)
    ensures forall k :: k != ProductsKey ==> (k in StoreItems(storage, items) <==> k in storage)
    ensures forall k :: k != ProductsKey && k in storage ==> StoreItems(storage, items)[k] == storage[k]
    ensures ApplyItems(StoredProducts(storage), items) == StoredProducts(storage) ==>
            StoredProducts(StoreItems(storage, items)) == StoredProducts(storage)
  {
    if items != [] {
      var front := items[..|items| - 1];
      StoreItemsEffect(storage, front);
      var mid := StoreItems(storage, front);
      var last := items[|items| - 1];
      var ps := StoredProducts(mid);
      if Writes(ps, last) {
        assert StoredProducts(mid[ProductsKey := ProductList(ApplyItem(ps, last))]) == ApplyItem(ps, last);
      }
    }
  }

  /** After `saveSale` the sale list has the sale at its end, the products are those of the
      stock loop, and the customers are untouched. */
  lemma AfterSaleEffect(storage: Storage, sale: Sale)
    ensures StoredSales(AfterSale(storage, sale)) == StoredSales(storage) + [sale]
    ensures StoredProducts(AfterSale(storage, sale)) == ApplyItems(StoredProducts(storage), sale.items)
    ensures StoredCustomers(AfterSale(storage, sale)) == StoredCustomers(storage)
  {
    var appended := storage[SalesKey := SaleList(StoredSales(storage) + [sale])];
    StoreItemsEffect(appended, sale.items);
    assert StoredProducts(appended) == StoredProducts(storage);
    assert StoredCustomers(appended) == StoredCustomers(storage);
  }

  // ---------------------------------------------------------------------------------------
  // Dashboard

  datatype DashboardStats = DashboardStats(todaySales: int, todayTransactions: nat, totalProducts: nat)

  /** `(quantity || 0) * (price || 0)` summed over a sale's items. */
  function ItemsValue(items: seq<SaleItem>): int
  {
    Sum(items, (d: SaleItem) => d.quantity * d.price)
  }

  function IsOnDay(day: int): Sale -> bool
  {
    (s: Sale) => DayOf(s.date) == day
  }

  function SaleValue(s: Sale): int
  {
    ItemsValue(s.items)
  }

  /** The dashboard figures for day `today`. */
  function DashboardStatsOf(sales: seq<Sale>, products: seq<Product>, today: int): DashboardStats
  {
    var todays := Filter(sales, IsOnDay(today));
    DashboardStats(Sum(todays, SaleValue), |todays|, |products|)
  }

  /** Appending a sale adds one transaction and the value of its items exactly when it is
      dated today; the declared `total` plays no part. */
  lemma StatsAfterAppend(sales: seq<Sale>, sale: Sale, products: seq<Product>, today: int)
    ensures var before := DashboardStatsOf(sales, products, today);
            var after := DashboardStatsOf(sales + [sale], products, today);
            && after.todayTransactions == before.todayTransactions + (if DayOf(sale.date) == today then 1 else 0)
            && after.todaySales == before.todaySales + (if DayOf(sale.date) == today then ItemsValue(sale.items) else 0)
            && after.totalProducts == before.totalProducts
  {
    FilterAppendOne(sales, sale, IsOnDay(today));
    var todays := Filter(sales, IsOnDay(today));
    if DayOf(sale.date) == today {
      SumAppend(todays, [sale], SaleValue);
    } else {
      assert todays + [] == todays;
    }
  }

  lemma {:induction false} SumIgnoresTotal(sales: seq<Sale>, totals: seq<int>)
    requires |totals| == |sales|
    ensures Sum(sales, SaleValue) == Sum(seq(|sales|, i requires 0 <= i < |sales| => sales[i].(total := totals[i])), SaleValue)
  {
    if sales != [] {
      SumIgnoresTotal(sales[1..], totals[1..]);
      var changed := seq(|sales|, i requires 0 <= i < |sales| => sales[i].(total := totals[i]));
      assert changed[1..] == seq(|sales| - 1, i requires 0 <= i < |sales| - 1 => sales[1..][i].(total := totals[1..][i]));
    }
  }

  // ---------------------------------------------------------------------------------------
  // The service over `localStorage`

  class LocalStore {
    var storage: Storage

    constructor (initial: Storage)
      ensures storage == initial
    {
      storage := initial;
    }

    function Products(): seq<Product>
      reads this
    {
      StoredProducts(storage)
    }

    function Customers(): seq<Customer>
      reads this
    {
      StoredCustomers(storage)
    }

    function Sales(): seq<Sale>
      reads this
    {
      StoredSales(storage)
    }

    /** `saveProduct`: overwrite the product with the same id in place, or append it. */
    method SaveProduct(product: Product)
      modifies this
      ensures storage == old(storage)[ProductsKey := ProductList(Upsert(old(Products()), product, ProductKey))]
    {
      var products := StoredProducts(storage);
      var existingIndex := FindIndex(products, (p: Product) => ProductKey(p) == ProductKey(product));
      if existingIndex.Some? {
        products := products[existingIndex.value := product];
      } else {
        products := products + [product];
      }
      storage := storage[ProductsKey := ProductList(products)];
    }

    /** `saveCustomer`: the same upsert on the customer list. */
    method SaveCustomer(customer: Customer)
      modifies this
      ensures storage == old(storage)[CustomersKey := CustomerList(Upsert(old(Customers()), customer, CustomerKey))]
    {
      var customers := StoredCustomers(storage);
      var existingIndex := FindIndex(customers, (c: Customer) => CustomerKey(c) == CustomerKey(customer));
      if existingIndex.Some? {
        customers := customers[existingIndex.value := customer];
      } else {
        customers := customers + [customer];
      }
      storage := storage[CustomersKey := CustomerList(customers)];
    }

    /** `deleteCustomer`: keep the customers whose id differs. */
    method DeleteCustomer(customerId: string)
      modifies this
      ensures storage == old(storage)[CustomersKey := CustomerList(WithoutCustomer(old(Customers()), customerId))]
    {
      var customers := WithoutCustomer(StoredCustomers(storage), customerId);
      storage := storage[CustomersKey := CustomerList(customers)];
    }

    /** `saveSale`: push the sale, then for each item re-read the products and, when the item
        names a stored product and has a quantity, lower that product's stock and store the
        list again. */
    method SaveSale(sale: Sale)
      modifies this
      ensures storage == AfterSale(old(storage), sale)
    {
      var sales := StoredSales(storage);
      sales := sales + [sale];
      storage := storage[SalesKey := SaleList(sales)];
      ghost var appended := storage;
      var k := 0;
      while k < |sale.items|
        invariant 0 <= k <= |sale.items|
        invariant storage == StoreItems(appended, sale.items[..k])
      {
        SellItem(sale.items[k]);
        assert sale.items[..k + 1][..k] == sale.items[..k];
        k := k + 1;
      }
      assert sale.items[..k] == sale.items;
    }

    /** One pass of the loop in `saveSale`: re-read the products and, when the item names a
        stored product and has a quantity, store the list with that stock lowered. */
    method SellItem(detail: SaleItem)
      modifies this
      ensures storage == StoreItem(old(storage), detail)
    {
      var products := StoredProducts(storage);
      var productIndex := FindIndex(products, (p: Product) => p.id == detail.productId);
      if productIndex.Some? && detail.quantity != 0 {
        var i := productIndex.value;
        products := products[i := products[i].(stock := Decremented(products[i].stock, detail.quantity))];
        storage := storage[ProductsKey := ProductList(products)];
      }
    }

    /** `getDashboardStats`, with the clock's reading passed in. */
    method GetDashboardStats(now: Timestamp) returns (stats: DashboardStats)
      ensures stats == DashboardStatsOf(Sales(), Products(), DayOf(now))
      ensures stats.todayTransactions == Count(Sales(), IsOnDay(DayOf(now)))
      ensures stats.totalProducts == |Products()|
    {
      var sales := StoredSales(storage);
      var products := StoredProducts(storage);
      stats := DashboardStatsOf(sales, products, DayOf(now));
    }
  }

  /** Nothing stops a sale from taking stock below zero: one unit in stock, three sold. */
  lemma SaleCanDriveStockNegative()
    ensures var p := Product(1, "d1", "Arroz", 350, "1", "", 0, None);
            var item := SaleItem(1, "Arroz", 3, 350, 1050);
            Numbers.NumberOf(ApplyItems([p], [item])[0].stock) == Some(-2)
  {
    var p := Product(1, "d1", "Arroz", 350, "1", "", 0, None);
    var item := SaleItem(1, "Arroz", 3, 350, 1050);
    Numbers.NumberOfReadsString(1);
    assert Numbers.IntToString(1) == "1";
    ApplyItemsEffect([p], [item], 0);
  }
}
