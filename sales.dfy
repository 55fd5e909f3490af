/** The sales history (src/components/Sales/Sales.tsx): the search, day and payment filters,
    the newest-first order of the list, and the icon of each payment method. */
module SalesView {
  import opened Seqs
  import opened Text
  import opened Types
  import Sorting

  // ---------------------------------------------------------------------------------------
  // Filters

  /** Some item's product name contains the term, ignoring case (`items.some(...)`). */
  predicate SomeItemMatches(items: seq<SaleItem>, term: string)
  {
    exists i :: 0 <= i < |items| && IncludesIgnoringCase(items[i].productName, term)
  }

  /** `matchesSearch`: the sale id, the customer name when there is one, or an item's product
      name contains the term, ignoring case. */
  predicate MatchesSearch(sale: Sale, term: string)
  {
    || IncludesIgnoringCase(sale.id, term)
    || (sale.customerName.Some? && IncludesIgnoringCase(sale.customerName.value, term))
    || SomeItemMatches(sale.items, term)
  }

  /** `matchesDate`: no selected day keeps every sale; otherwise the sale must fall on the
      selected calendar day. */
  predicate MatchesDate(sale: Sale, selectedDate: Option<Timestamp>)
  {
    selectedDate.None? || DayOf(sale.date) == DayOf(selectedDate.value)
  }

  const AllMethods := "all"

  /** `matchesPayment`: `'all'` keeps every sale; otherwise the stored method must be the very
      same string. A method stored as an id, or `null`, is never strictly equal to a string. */
  predicate MatchesPayment(sale: Sale, selected: string)
  {
    selected == AllMethods || sale.paymentMethod == MethodName(selected)
  }

  predicate Matches(sale: Sale, term: string, selectedDate: Option<Timestamp>, selected: string)
  {
    MatchesSearch(sale, term) && MatchesDate(sale, selectedDate) && MatchesPayment(sale, selected)
  }

  function Matcher(term: string, selectedDate: Option<Timestamp>, selected: string): Sale -> bool
  {
    (sale: Sale) => Matches(sale, term, selectedDate, selected)
  }

  function SaleDate(sale: Sale): int
  {
    sale.date
  }

  /** `filteredSales`: the sales passing all three filters, newest first, sales of the same
      instant in their stored order. */
  function FilteredSales(sales: seq<Sale>, term: string, selectedDate: Option<Timestamp>,
                         selected: string): (r: seq<Sale>)
    ensures multiset(r) == multiset(Filter(sales, Matcher(term, selectedDate, selected)))
    ensures forall sale :: sale in r <==> sale in sales && Matches(sale, term, selectedDate, selected)
    ensures Sorting.SortedDesc(r, SaleDate)
    ensures forall d :: Sorting.WithKey(r, SaleDate, d) ==
                          Sorting.WithKey(Filter(sales, Matcher(term, selectedDate, selected)), SaleDate, d)
    ensures |r| <= |sales|
  {
    var kept := Filter(sales, Matcher(term, selectedDate, selected));
    var r := Sorting.SortDesc(kept, SaleDate);
    assert forall sale :: sale in r <==> sale in kept by {
      forall sale ensures sale in r <==> sale in kept {
        assert sale in r <==> sale in multiset(r);
        assert sale in kept <==> sale in multiset(kept);
      }
    }
    r
  }

  // ---------------------------------------------------------------------------------------
  // Properties of the filters

  /** An empty search term matches every sale, through its id. */
  lemma EmptySearchMatches(sale: Sale)
    ensures MatchesSearch(sale, [])
  {
    IncludesEmpty(ToLower(sale.id));
  }

  /** With an empty term, no day and `'all'`, the list holds every sale, newest first. */
  lemma NoFilterKeepsAll(sales: seq<Sale>)
    ensures multiset(FilteredSales(sales, [], None, AllMethods)) == multiset(sales)
  {
    forall i | 0 <= i < |sales| ensures Matcher([], None, AllMethods)(sales[i]) {
      EmptySearchMatches(sales[i]);
    }
    FilterAll(sales, Matcher([], None, AllMethods));
  }

  /** A specific method option never keeps a sale whose method is stored as an id or is
      missing. */
  lemma IdMethodsNeverMatch(sale: Sale, selected: string)
    requires selected != AllMethods
    requires !sale.paymentMethod.MethodName?
    ensures !MatchesPayment(sale, selected)
  {
  }

  /** The `'all'` option keeps a sale whatever its method, and a named option keeps exactly
      the sales stored with that name. */
  lemma PaymentOptions(sale: Sale, name: string)
    ensures MatchesPayment(sale, AllMethods)
    ensures name != AllMethods ==> (MatchesPayment(sale, name) <==> sale.paymentMethod == MethodName(name))
  {
  }

  /** Two sales on the same calendar day are kept or dropped together by the day filter. */
  lemma SameDaySameFate(a: Sale, b: Sale, selectedDate: Option<Timestamp>)
    requires DayOf(a.date) == DayOf(b.date)
    ensures MatchesDate(a, selectedDate) <==> MatchesDate(b, selectedDate)
  {
  }

  // ---------------------------------------------------------------------------------------
  // Payment icons

  datatype PaymentIcon = Banknote | CreditCard | Smartphone

  /** `getPaymentIcon`, applied to the stored method: cash, card and transfer have their own
      icons; an id, a missing method or any other name falls back to the card. */
  function PaymentIconOf(pm: PaymentMethod): (r: PaymentIcon)
    ensures r == Banknote <==> pm == MethodName("cash")
    ensures r == Smartphone <==> pm == MethodName("transfer")
    ensures !pm.MethodName? ==> r == CreditCard
  {
    match pm
    case MethodName(name) =>
      if name == "cash" then Banknote
      else if name == "card" then CreditCard
      else if name == "transfer" then Smartphone
      else CreditCard
    case _ => CreditCard
  }
}
