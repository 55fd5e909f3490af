/** The inventory-adjustment screen (src/components/InventoryAdjustment/InventoryAdjustment.tsx):
    the adjustment form and the request it sends, the product search, the low-stock badge and
    the list of recent adjustments. */
module InventoryAdjustmentView {
  import opened Seqs
  import opened Text
  import opened Types
  import opened AdjustmentService
  import Numbers
  import StockView

  // ---------------------------------------------------------------------------------------
  // The adjustment request

  /** The request `handleAdjustInventory` sends for the form's fields, or nothing when the
      quantity is empty or reads as a number that is not positive. A quantity that does not
      read as a number at all gets through and is sent as NaN. The description is sent
      trimmed, and only when something is left after trimming. */
  function RequestFor(product: Product, adjustmentType: AdjustmentType, quantity: string,
                      reason: Reason, description: string): (r: Option<AdjustRequest>)
    ensures r.None? <==>
              quantity == [] ||
              (Numbers.ParseInt(quantity).Some? && Numbers.ParseInt(quantity).value <= 0)
    ensures r.Some? ==> r.value.quantity.None? || r.value.quantity.value > 0
    ensures r.Some? ==>
              r.value.productId == product.id && r.value.adjustmentType == adjustmentType &&
              r.value.quantity == Numbers.ParseInt(quantity) && r.value.reason == reason &&
              r.value.userId.Absent?
    ensures r.Some? ==> (r.value.reasonDescription.Present? <==> !IsBlank(description))
    ensures r.Some? && r.value.reasonDescription.Present? ==>
              r.value.reasonDescription.value == Trim(description)
    ensures r.Some? ==> !r.value.reasonDescription.Undefined?
  {
    var n := Numbers.ParseInt(quantity);
    if quantity == [] || (n.Some? && n.value <= 0) then None
    else
      var trimmed := Trim(description);
      // `...(trimmed && { reasonDescription: trimmed })`: spreading `""` adds nothing
      Some(AdjustRequest(product.id, adjustmentType, n, reason,
                         if trimmed != [] then Present(trimmed) else Absent, Absent))
  }

  /** The service's payload clean-up leaves the screen's request as it is: the description is
      already trimmed and present only when non-empty. */
  lemma RequestSurvivesCleaning(product: Product, adjustmentType: AdjustmentType,
                                quantity: string, reason: Reason, description: string)
    requires RequestFor(product, adjustmentType, quantity, reason, description).Some?
    ensures var r := RequestFor(product, adjustmentType, quantity, reason, description).value;
            Cleaned(r) == r
  {
    var r := RequestFor(product, adjustmentType, quantity, reason, description).value;
    if r.reasonDescription.Present? {
      TrimIdempotent(description);
      CleanedKeeps(r);
    }
  }

  /** A quantity that is not empty but has no leading digits passes the guard: `parseInt`
      gives NaN, and `NaN <= 0` is false. */
  lemma NaNQuantityIsSent(product: Product, adjustmentType: AdjustmentType, quantity: string,
                          reason: Reason, description: string)
    requires quantity != [] && Numbers.ParseInt(quantity).None?
    ensures RequestFor(product, adjustmentType, quantity, reason, description).Some?
    ensures RequestFor(product, adjustmentType, quantity, reason, description).value.quantity.None?
  {
  }

  /** `"abc"` is such a quantity. */
  lemma LettersQuantityIsSent(product: Product)
    ensures RequestFor(product, Decrease, "abc", Merma, "").Some?
    ensures RequestFor(product, Decrease, "abc", Merma, "").value.quantity.None?
  {
    assert !Text.IsSpace("abc"[0]);
    assert Text.TrimStart("abc") == "abc";
    assert !Numbers.IsDigit("abc"[0]);
    assert Numbers.LeadingDigits("abc") == [];
    NaNQuantityIsSent(product, Decrease, "abc", Merma, "");
  }

  /** The form state of the screen, which the handlers update in place. */
  class AdjustForm {
    var selected: Option<Product>
    var adjustmentType: AdjustmentType
    var quantity: string
    var reason: Reason
    var reasonDescription: string
    var showAdjustModal: bool

    /** The initial state: no product, a decrease of an empty quantity for `merma`. */
    constructor ()
      ensures selected.None? && adjustmentType == Decrease && quantity == [] &&
              reason == Merma && reasonDescription == [] && !showAdjustModal
    {
      selected := None;
      adjustmentType := Decrease;
      quantity := [];
      reason := Merma;
      reasonDescription := [];
      showAdjustModal := false;
    }

    /** The request the form would send now. */
    function Pending(): (r: Option<AdjustRequest>)
      reads this
      ensures selected.None? ==> r.None?
      ensures quantity == [] ==> r.None?
      ensures r.Some? ==> r.value.quantity.None? || r.value.quantity.value > 0
    {
      if selected.None? then None
      else RequestFor(selected.value, adjustmentType, quantity, reason, reasonDescription)
    }

    /** `handleOpenAdjustModal`: select the product, reset the form and show it. A freshly
        reset form sends nothing until a quantity is typed. */
    method OpenAdjustModal(product: Product)
      modifies this
      ensures selected == Some(product) && adjustmentType == Decrease && quantity == [] &&
              reason == Merma && reasonDescription == [] && showAdjustModal
      ensures Pending().None?
    {
      selected := Some(product);
      adjustmentType := Decrease;
      quantity := [];
      reason := Merma;
      reasonDescription := [];
      showAdjustModal := true;
    }

    /** `handleAdjustInventory`: without a product, or with a quantity the guard refuses,
        nothing is sent and nothing changes. Otherwise the request is sent, and the modal
        closes when the backend accepts it (`succeeded`); the form fields are kept. */
    method AdjustInventory(succeeded: bool) returns (sent: Option<AdjustRequest>)
      modifies this
      ensures sent == old(Pending())
      ensures showAdjustModal == (old(showAdjustModal) && !(sent.Some? && succeeded))
      ensures selected == old(selected) && adjustmentType == old(adjustmentType) &&
              quantity == old(quantity) && reason == old(reason) &&
              reasonDescription == old(reasonDescription)
    {
      ghost var pending := Pending();
      if selected.None? {
        return None;
      }
      var n := Numbers.ParseInt(quantity);
      if quantity == [] || (n.Some? && n.value <= 0) {
        return None;
      }
      sent := RequestFor(selected.value, adjustmentType, quantity, reason, reasonDescription);
      assert sent == pending;
      if succeeded {
        showAdjustModal := false;
      }
    }
  }

  // ---------------------------------------------------------------------------------------
  // Product search

  /** A product matches when its description or its barcode contains the term, ignoring case. */
  function ProductMatches(term: string): Product -> bool
  {
    (p: Product) => IncludesIgnoringCase(p.descripcion, term) || IncludesIgnoringCase(p.barCode, term)
  }

  /** `filteredProducts`: the products that match, in their order; an empty term keeps them
      all. */
  function FilteredProducts(products: seq<Product>, term: string): (r: seq<Product>)
    ensures IsSubseq(r, products)
    ensures forall p :: p in r <==>
              p in products &&
              (IncludesIgnoringCase(p.descripcion, term) || IncludesIgnoringCase(p.barCode, term))
    ensures term == [] ==> r == products
  {
    FilterIsSubseq(products, ProductMatches(term));
    EveryProductMatchesEmpty(products);
    Filter(products, ProductMatches(term))
  }

  lemma EveryProductMatchesEmpty(products: seq<Product>)
    ensures Filter(products, ProductMatches([])) == products
  {
    forall i | 0 <= i < |products| ensures ProductMatches([])(products[i]) {
      IncludesEmpty(ToLower(products[i].descripcion));
    }
    FilterAll(products, ProductMatches([]));
  }

  // ---------------------------------------------------------------------------------------
  // Low-stock badge

  /** `parseInt(product.stock) <= product.stockMin`: a stock that does not read as a number,
      the empty one included, never shows the badge. */
  predicate LowStockBadge(p: Product)
  {
    var n := Numbers.ParseInt(p.stock);
    n.Some? && n.value <= p.stockMin
  }

  /** Every product the stock screen counts as low shows the badge here. */
  lemma LowStateShowsBadge(p: Product)
    requires StockView.GetState(p) == StockView.Low
    ensures LowStockBadge(p)
  {
    StockView.GetStateSpec(p);
  }

  /** The converse fails at the minimum: this badge is inclusive where the stock screen's
      test is strict, so a stock exactly at a non-zero minimum is low here and normal there. */
  lemma BadgeAtMinimum(p: Product)
    requires p.stock == Numbers.IntToString(p.stockMin) && p.stockMin != 0
    ensures LowStockBadge(p)
    ensures StockView.GetState(p) == StockView.Normal
  {
    Numbers.ParseIntReadsString(p.stockMin);
  }

  /** An empty stock shows no badge here, while the stock screen reads it as out of stock. */
  lemma EmptyStockNoBadge(p: Product)
    requires p.stock == []
    ensures !LowStockBadge(p)
    ensures StockView.GetState(p) == StockView.Zero
  {
  }

  // ---------------------------------------------------------------------------------------
  // Recent adjustments

  const RecentCount: nat := 10

  /** `adjustments.slice(0, 10)`: the first ten adjustments, in order. */
  function Recent(adjustments: seq<InventoryAdjustment>): (r: seq<InventoryAdjustment>)
    ensures |r| <= RecentCount
    ensures |adjustments| <= RecentCount ==> r == adjustments
    ensures |adjustments| > RecentCount ==> |r| == RecentCount
    ensures forall i :: 0 <= i < |r| ==> r[i] == adjustments[i]
  {
    Take(adjustments, RecentCount)
  }

  /** The colour and icon of an adjustment's type. */
  datatype TypeBadge = GreenPlus | RedMinus

  /** `getAdjustmentTypeColor` and `getAdjustmentTypeIcon`: an increase is green with a plus,
      anything else red with a minus. */
  function TypeBadgeOf(t: AdjustmentType): (r: TypeBadge)
    ensures r == GreenPlus <==> t == Increase
    ensures r == RedMinus <==> t != Increase
  {
    if t == Increase then GreenPlus else RedMinus
  }
}
