/** The stock screen (src/components/Stock/Stock.tsx): the three-way stock state of a
    product, the filter panel and its counts, the quoting of the CSV export, and the list of
    recent movements merged from sales, purchases and adjustments. */
module StockView {
  import opened Seqs
  import opened Types
  import Numbers
  import Text
  import Sorting

  // ---------------------------------------------------------------------------------------
  // Stock state

  /** `Number.parseInt(String(p.stock || 0))`: an empty stock text is read as `"0"`. */
  function ParseStock(p: Product): (r: Option<int>)
    ensures p.stock == "" ==> r == Some(0)
    ensures p.stock != "" ==> r == Numbers.ParseInt(p.stock)
  {
    Numbers.ParseIntReadsString(0);
    Numbers.ParseInt(if p.stock == "" then Numbers.IntToString(0) else p.stock)
  }

  datatype StockState = Normal | Low | Zero

  /** `getState`: zero when the stock reads as 0, low when it is under the minimum (a stock
      that reads as NaN is never under anything), normal otherwise. `p.stockMin || 0` is
      `stockMin` itself, a zero minimum giving zero either way. */
  function GetState(p: Product): StockState
  {
    var s := ParseStock(p);
    if s == Some(0) then Zero
    else if s.Some? && s.value < p.stockMin then Low
    else Normal
  }

  /** Each state in terms of the parsed stock: a product without stock text is out of stock,
      and one whose stock does not parse shows as normal. */
  lemma GetStateSpec(p: Product)
    ensures GetState(p) == Zero <==> ParseStock(p) == Some(0)
    ensures GetState(p) == Low <==> exists n :: ParseStock(p) == Some(n) && n != 0 && n < p.stockMin
    ensures ParseStock(p).None? ==> GetState(p) == Normal
    ensures p.stock == "" ==> GetState(p) == Zero
  {
    if GetState(p) == Low {
      var n := ParseStock(p).value;
      assert ParseStock(p) == Some(n) && n != 0 && n < p.stockMin;
    }
  }

  function LowCount(products: seq<Product>): nat
  {
    Count(products, (p: Product) => GetState(p) == Low)
  }

  function ZeroCount(products: seq<Product>): nat
  {
    Count(products, (p: Product) => GetState(p) == Zero)
  }

  function NormalCount(products: seq<Product>): nat
  {
    Count(products, (p: Product) => GetState(p) == Normal)
  }

  /** Every product is in exactly one state, so the three counts add up to the list length. */
  lemma CountsAddUp(products: seq<Product>)
    ensures LowCount(products) + ZeroCount(products) + NormalCount(products) == |products|
  {
    CountPartition3(products, (p: Product) => GetState(p) == Low, (p: Product) => GetState(p) == Zero,
                    (p: Product) => GetState(p) == Normal);
  }

  // ---------------------------------------------------------------------------------------
  // Filters

  datatype StateFilter = AllStates | OnlyState(state: StockState)

  /** The filter panel: search box, state, category (`'all'` or a category id as text), and
      the price bounds as typed. */
  datatype Filters = Filters(search: string, stockFilter: StateFilter, categoryFilter: string,
                             minPrice: string, maxPrice: string)

  /** `String(p.category?.id)`: a product without category gives `"undefined"`. */
  function CategoryKey(p: Product): string
  {
    if p.category.Some? then Numbers.IntToString(p.category.value.id) else "undefined"
  }

  /** The text match: an empty term matches; otherwise the description, the barcode or the
      category name must contain it once lower-cased. */
  predicate InText(p: Product, term: string)
  {
    || term == []
    || Text.Includes(Text.ToLower(p.descripcion), term)
    || Text.Includes(Text.ToLower(p.barCode), term)
    || (p.category.Some? && Text.Includes(Text.ToLower(p.category.value.descripcion), term))
  }

  /** `!minPrice || price >= Number(minPrice)`: an empty bound lets everything through, a
      bound that is not a number lets nothing through. The bound is typed in currency units
      and the price is kept in cents, so the bound is scaled by 100. */
  predicate AboveMin(minPrice: string, cents: int)
  {
    minPrice == [] || (Numbers.NumberOf(minPrice).Some? && cents >= 100 * Numbers.NumberOf(minPrice).value)
  }

  predicate BelowMax(maxPrice: string, cents: int)
  {
    maxPrice == [] || (Numbers.NumberOf(maxPrice).Some? && cents <= 100 * Numbers.NumberOf(maxPrice).value)
  }

  /** A whole bound of `n` units keeps exactly the prices of at least (or at most) `n` units. */
  lemma PriceBoundsInUnits(n: int, cents: int)
    ensures AboveMin(Numbers.IntToString(n), cents) <==> cents >= 100 * n
    ensures BelowMax(Numbers.IntToString(n), cents) <==> cents <= 100 * n
  {
    Numbers.NumberOfReadsString(n);
  }

  /** A product at 3.50 is under a minimum of 5 and within a maximum of 10. */
  lemma PriceBoundsSample()
    ensures !AboveMin("5", 350) && BelowMax("10", 350) && AboveMin("3", 350)
  {
    assert Numbers.IntToString(5) == "5" && Numbers.IntToString(3) == "3";
    PriceBoundsInUnits(5, 350);
    PriceBoundsInUnits(3, 350);
    assert Numbers.IntToString(10) == "10";
    PriceBoundsInUnits(10, 350);
  }

  /** The predicate of `filtered`: all five conditions at once. */
  predicate Passes(p: Product, f: Filters)
  {
    && InText(p, Text.ToLower(Text.Trim(f.search)))
    && (f.stockFilter.AllStates? || GetState(p) == f.stockFilter.state)
    && (f.categoryFilter == "all" || CategoryKey(p) == f.categoryFilter)
    && AboveMin(f.minPrice, p.precioUnitario)
    && BelowMax(f.maxPrice, p.precioUnitario)
  }

  /** `filtered`: the products that pass, in their order. */
  function Filtered(products: seq<Product>, f: Filters): (r: seq<Product>)
    ensures IsSubseq(r, products)
    ensures forall p :: p in r <==> p in products && Passes(p, f)
  {
    FilterIsSubseq(products, (p: Product) => Passes(p, f));
    Filter(products, (p: Product) => Passes(p, f))
  }

  /** `handleClearFilters`. */
  function ClearedFilters(): Filters
  {
    Filters("", AllStates, "all", "", "")
  }

  /** Cleared filters let any single product through. */
  lemma ClearedPasses(p: Product)
    ensures Passes(p, ClearedFilters())
  {
    assert Text.Trim("") == "";
    assert Text.ToLower("") == "";
  }

  /** After clearing the filters every product is shown, in order. */
  lemma ClearedShowsAll(products: seq<Product>)
    ensures Filtered(products, ClearedFilters()) == products
  {
    forall i | 0 <= i < |products|
      ensures Passes(products[i], ClearedFilters())
    {
      ClearedPasses(products[i]);
    }
    FilterAll(products, (p: Product) => Passes(p, ClearedFilters()));
  }

  // ---------------------------------------------------------------------------------------
  // CSV export: every cell quoted as in section 2 of RFC 4180

  /** `String(v).replace(/"/g, '""')`. */
  function Escape(v: string): string
  {
    if v == [] then [] else (if v[0] == '"' then "\"\"" else [v[0]]) + Escape(v[1..])
  }

  /** One cell: the escaped text between double quotes. */
  function QuoteCell(v: string): string
  {
    "\"" + Escape(v) + "\""
  }

  function QuoteAll(cells: seq<string>): (r: seq<string>)
    ensures |r| == |cells|
  {
    if cells == [] then [] else [QuoteCell(cells[0])] + QuoteAll(cells[1..])
  }

  /** `Array.prototype.join(sep)`. */
  function Join(parts: seq<string>, sep: char): string
  {
    if parts == [] then []
    else if |parts| == 1 then parts[0]
    else parts[0] + [sep] + Join(parts[1..], sep)
  }

  /** One line of the file: the quoted cells joined by commas. */
  function Line(cells: seq<string>): string
  {
    Join(QuoteAll(cells), ',')
  }

  function Lines(rows: seq<seq<string>>): (r: seq<string>)
    ensures |r| == |rows|
  {
    if rows == [] then [] else [Line(rows[0])] + Lines(rows[1..])
  }

  /** The whole file: the lines joined by line breaks. */
  function Csv(rows: seq<seq<string>>): string
  {
    Join(Lines(rows), '\n')
  }

  /** Reads the inside of a quoted cell up to its closing quote, `""` standing for one quote;
      gives the text and what follows the closing quote. */
  function UnescapeBody(s: string): (r: Option<(string, string)>)
    ensures r.Some? ==> |r.value.1| < |s|
  {
    if s == [] then None
    else if s[0] == '"' then
      if |s| >= 2 && s[1] == '"' then
        match UnescapeBody(s[2..])
        case None => None
        case Some(vr) => Some(("\"" + vr.0, vr.1))
      else Some(([], s[1..]))
    else
      match UnescapeBody(s[1..])
      case None => None
      case Some(vr) => Some(([s[0]] + vr.0, vr.1))
  }

  /** Reads one quoted cell from the front of `s`. */
  function UnquoteCell(s: string): (r: Option<(string, string)>)
    ensures r.Some? ==> |r.value.1| < |s|
  {
    if s != [] && s[0] == '"' then UnescapeBody(s[1..]) else None
  }

  /** Reads the comma-separated quoted cells of one line; stops at anything else. */
  function ParseLine(s: string): (r: (seq<string>, string))
    ensures |r.1| <= |s|
    decreases |s|
  {
    match UnquoteCell(s)
    case None => ([], s)
    case Some(vr) =>
      if vr.1 != [] && vr.1[0] == ',' then
        var more := ParseLine(vr.1[1..]);
        ([vr.0] + more.0, more.1)
      else ([vr.0], vr.1)
  }

  /** Reads the lines of a file written by `Csv`. */
  function ParseCsv(s: string): seq<seq<string>>
    decreases |s|
  {
    var line := ParseLine(s);
    if line.1 != [] && line.1[0] == '\n' then [line.0] + ParseCsv(line.1[1..]) else [line.0]
  }

  /** What may follow a quoted cell without being read as part of it. */
  predicate EndsCell(rest: string)
  {
    rest == [] || rest[0] != '"'
  }

  lemma UnescapeQuoteStep(v: string, rest: string)
    requires v != [] && v[0] == '"' && UnescapeBody(Escape(v[1..]) + "\"" + rest) == Some((v[1..], rest))
    ensures UnescapeBody(Escape(v) + "\"" + rest) == Some((v, rest))
  {
    var tail := Escape(v[1..]) + "\"" + rest;
    assert Escape(v) + "\"" + rest == "\"\"" + tail;
    assert ("\"\"" + tail)[2..] == tail;
    assert "\"" + v[1..] == v;
  }

  lemma UnescapeCons(c: char, tail: string)
    requires c != '"'
    ensures UnescapeBody([c] + tail) ==
      match UnescapeBody(tail)
      case None => None
      case Some(vr) => Some(([c] + vr.0, vr.1))
  {
    assert ([c] + tail)[1..] == tail;
  }

  lemma UnescapeOtherStep(v: string, rest: string)
    requires v != [] && v[0] != '"' && UnescapeBody(Escape(v[1..]) + "\"" + rest) == Some((v[1..], rest))
    ensures UnescapeBody(Escape(v) + "\"" + rest) == Some((v, rest))
  {
    var tail := Escape(v[1..]) + "\"" + rest;
    assert Escape(v) == [v[0]] + Escape(v[1..]);
    assert Escape(v) + "\"" + rest == [v[0]] + tail;
    UnescapeCons(v[0], tail);
    assert [v[0]] + v[1..] == v;
  }

  lemma {:induction false} UnescapeEscape(v: string, rest: string)
    requires EndsCell(rest)
    ensures UnescapeBody(Escape(v) + "\"" + rest) == Some((v, rest))
  {
    if v == [] {
      assert Escape(v) + "\"" + rest == "\"" + rest;
      assert ("\"" + rest)[1..] == rest;
    } else {
      UnescapeEscape(v[1..], rest);
      if v[0] == '"' {
        UnescapeQuoteStep(v, rest);
      } else {
        UnescapeOtherStep(v, rest);
      }
    }
  }

  /** Reading a quoted cell back gives the original text. */
  lemma UnquoteQuote(v: string, rest: string)
    requires EndsCell(rest)
    ensures UnquoteCell(QuoteCell(v) + rest) == Some((v, rest))
  {
    UnescapeEscape(v, rest);
    assert QuoteCell(v) + rest == "\"" + (Escape(v) + "\"" + rest);
  }

  lemma LineOne(cells: seq<string>, rest: string)
    requires |cells| == 1 && (rest == [] || rest[0] == '\n')
    ensures ParseLine(Line(cells) + rest) == (cells, rest)
  {
    UnquoteQuote(cells[0], rest);
    assert QuoteAll(cells) == [QuoteCell(cells[0])];
    assert Line(cells) == QuoteCell(cells[0]);
    assert cells == [cells[0]];
  }

  lemma LineSplit(cells: seq<string>, rest: string)
    requires |cells| >= 2
    ensures Line(cells) + rest == QuoteCell(cells[0]) + ("," + (Line(cells[1..]) + rest))
  {
    assert QuoteAll(cells)[1..] == QuoteAll(cells[1..]);
  }

  lemma LineCons(cells: seq<string>, rest: string)
    requires |cells| >= 2
    requires ParseLine(Line(cells[1..]) + rest) == (cells[1..], rest)
    ensures ParseLine(Line(cells) + rest) == (cells, rest)
  {
    var more := Line(cells[1..]) + rest;
    LineSplit(cells, rest);
    UnquoteQuote(cells[0], "," + more);
    assert ("," + more)[1..] == more;
    assert [cells[0]] + cells[1..] == cells;
  }

  /** Reading a written line back gives its cells, whatever line break or end follows. */
  lemma {:induction false} ParseLineOfLine(cells: seq<string>, rest: string)
    requires rest == [] || rest[0] == '\n'
    ensures ParseLine(Line(cells) + rest) == (cells, rest)
  {
    if cells == [] {
      assert Line(cells) + rest == rest;
    } else if |cells| == 1 {
      LineOne(cells, rest);
    } else {
      ParseLineOfLine(cells[1..], rest);
      LineCons(cells, rest);
    }
  }

  lemma CsvOne(rows: seq<seq<string>>)
    requires |rows| == 1
    ensures ParseCsv(Csv(rows)) == rows
  {
    ParseLineOfLine(rows[0], []);
    assert Csv(rows) == Line(rows[0]) + [];
  }

  lemma CsvSplit(rows: seq<seq<string>>)
    requires |rows| >= 2
    ensures Csv(rows) == Line(rows[0]) + ("\n" + Csv(rows[1..]))
  {
    assert Lines(rows)[1..] == Lines(rows[1..]);
  }

  lemma CsvCons(rows: seq<seq<string>>)
    requires |rows| >= 2 && ParseCsv(Csv(rows[1..])) == rows[1..]
    ensures ParseCsv(Csv(rows)) == rows
  {
    var more := Csv(rows[1..]);
    CsvSplit(rows);
    ParseLineOfLine(rows[0], "\n" + more);
    assert ("\n" + more)[1..] == more;
    assert [rows[0]] + rows[1..] == rows;
  }

  /** Reading a written file back gives its rows, as long as there is at least one. */
  lemma {:induction false} ParseCsvOfCsv(rows: seq<seq<string>>)
    requires rows != []
    ensures ParseCsv(Csv(rows)) == rows
  {
    if |rows| == 1 {
      CsvOne(rows);
    } else {
      ParseCsvOfCsv(rows[1..]);
      CsvCons(rows);
    }
  }

  // ---------------------------------------------------------------------------------------
  // Recent movements

  datatype MovementKind = Entrada | Salida | Ajuste

  datatype Movement = Movement(kind: MovementKind, quantity: int, date: Timestamp)

  /** The nested `attributes` of a record in the older response shape. */
  datatype Attributes = Attributes(quantity: int, adjustmentType: string, date: Option<Timestamp>)

  /** A sale line, purchase line or adjustment as returned: its fields nested under
      `attributes` or flat. */
  datatype RawRecord = RawRecord(attributes: Option<Attributes>, quantity: int, date: Timestamp)

  /** `Number(r.attributes?.q || r.q || 0)`: a zero nested quantity falls back to the flat one. */
  function RawQuantity(r: RawRecord): int
  {
    if r.attributes.Some? && r.attributes.value.quantity != 0 then r.attributes.value.quantity else r.quantity
  }

  /** `r.attributes?.date || r.date`. */
  function RawDate(r: RawRecord): Timestamp
  {
    if r.attributes.Some? && r.attributes.value.date.Some? then r.attributes.value.date.value else r.date
  }

  /** `adj.attributes?.adjustmentType === 'decrease' ? -1 : 1`: only a nested type can negate. */
  function Sign(r: RawRecord): int
  {
    if r.attributes.Some? && r.attributes.value.adjustmentType == "decrease" then -1 else 1
  }

  function SaleMovement(r: RawRecord): Movement
  {
    Movement(Salida, RawQuantity(r), RawDate(r))
  }

  function BuyMovement(r: RawRecord): Movement
  {
    Movement(Entrada, RawQuantity(r), RawDate(r))
  }

  function AdjustmentMovement(r: RawRecord): Movement
  {
    Movement(Ajuste, RawQuantity(r) * Sign(r), RawDate(r))
  }

  /** A nested `decrease` turns a positive quantity negative; a flat record, whatever it
      says, keeps its quantity. */
  lemma AdjustmentSignRule(r: RawRecord)
    ensures r.attributes.None? ==> AdjustmentMovement(r).quantity == r.quantity
    ensures r.attributes.Some? && r.attributes.value.adjustmentType == "decrease" && RawQuantity(r) > 0 ==>
              AdjustmentMovement(r).quantity < 0
    ensures RawQuantity(r) >= 0 && (r.attributes.None? || r.attributes.value.adjustmentType != "decrease") ==>
              AdjustmentMovement(r).quantity >= 0
  {
  }

  function MovementDate(m: Movement): int
  {
    m.date
  }

  /** `[...sales, ...buys, ...adjs]`. */
  function Merged(sales: seq<RawRecord>, buys: seq<RawRecord>, adjs: seq<RawRecord>): (r: seq<Movement>)
    ensures |r| == |sales| + |buys| + |adjs|
  {
    seq(|sales|, i requires 0 <= i < |sales| => SaleMovement(sales[i])) +
    seq(|buys|, i requires 0 <= i < |buys| => BuyMovement(buys[i])) +
    seq(|adjs|, i requires 0 <= i < |adjs| => AdjustmentMovement(adjs[i]))
  }

  /** The merged list sorted newest first (stable), cut to five. */
  function RecentMovements(sales: seq<RawRecord>, buys: seq<RawRecord>, adjs: seq<RawRecord>): (r: seq<Movement>)
    ensures |r| <= 5
    ensures Sorting.SortedDesc(r, MovementDate)
  {
    var sorted := Sorting.SortDesc(Merged(sales, buys, adjs), MovementDate);
    Sorting.SortedPrefix(sorted, |Take(sorted, 5)|, MovementDate);
    Take(sorted, 5)
  }

  /** The five shown are the newest: each is a merged movement, every merged movement left
      out is no newer than the last one shown, and among movements of the same instant those
      shown are the first in merged order. */
  lemma RecentAreNewest(sales: seq<RawRecord>, buys: seq<RawRecord>, adjs: seq<RawRecord>)
    ensures var all := Merged(sales, buys, adjs);
            var r := RecentMovements(sales, buys, adjs);
            && |r| == (if |all| < 5 then |all| else 5)
            && multiset(r) <= multiset(all)
            && (forall m :: m in all && m !in r ==> |r| == 5 && m.date <= r[4].date)
            && forall d :: Sorting.WithKey(r, MovementDate, d) <= Sorting.WithKey(all, MovementDate, d)
  {
    var all := Merged(sales, buys, adjs);
    var sorted := Sorting.SortDesc(all, MovementDate);
    var r := RecentMovements(sales, buys, adjs);
    assert r == sorted[..|r|];
    assert sorted == r + sorted[|r|..];
    assert multiset(sorted) == multiset(r) + multiset(sorted[|r|..]);
    forall m | m in all && m !in r
      ensures |r| == 5 && m.date <= r[4].date
    {
      assert m in multiset(sorted);
      Sorting.OmittedNotLarger(sorted, |r|, MovementDate, m);
    }
    forall d ensures Sorting.WithKey(r, MovementDate, d) <= Sorting.WithKey(all, MovementDate, d) {
      Sorting.WithKeyPrefix(sorted, |r|, MovementDate, d);
    }
  }
}
