/** The cash-register screen (src/components/CashRegister/CashRegister.tsx): the input guards
    of the open and close handlers, how the current register and the closing summary change,
    when the open button shows, and how the closing difference is presented. The expected
    amount and the difference are computed by the backend and arrive in the summary. */
module CashRegisterView {
  import opened Seqs
  import Numbers
  import Text

  /** A register as the backend returns it (`CashRegister`); only the fields the screen reads
      when closing. */
  datatype Register = Register(id: int, initialAmount: real)

  /** `CashRegisterSummary`: the amounts the backend reports when a register is closed. */
  datatype Summary = Summary(initialAmount: real, totalSales: real, expectedAmount: real,
                             actualAmount: real, difference: real)

  /** The body of the open request; the amount is a number that may be NaN (`None`). */
  datatype OpenRequest = OpenRequest(initialAmount: Option<real>)

  /** The body of the close request; `notes` is left out when empty. */
  datatype CloseRequest = CloseRequest(cashRegisterId: int, actualAmount: Option<real>,
                                       notes: Option<string>)

  /** What the backend answered to an open request: a failure (the request threw), or the
      response with its `data`. */
  datatype OpenOutcome = OpenFailed | Opened(data: Option<Register>)

  /** What the backend answered to a close request: a failure, or the response with its
      optional `summary`. */
  datatype CloseOutcome = CloseFailed | Closed(summary: Option<Summary>)

  // ---------------------------------------------------------------------------------------
  // Input guards

  /** `!amount || parseFloat(amount) < 0`: the amounts the handlers refuse. A text without
      leading digits reads as NaN, which is not below zero, so it is not refused. */
  predicate Refused(amount: string)
  {
    amount == [] || (Numbers.ParseFloat(amount).Some? && Numbers.ParseFloat(amount).value < 0.0)
  }

  /** The open request for the typed initial amount, or nothing when the guard refuses it. */
  function OpenRequestFor(amount: string): (r: Option<OpenRequest>)
    ensures r.None? <==> Refused(amount)
    ensures r.Some? ==> r.value.initialAmount == Numbers.ParseFloat(amount)
    ensures r.Some? && r.value.initialAmount.Some? ==> r.value.initialAmount.value >= 0.0
  {
    if Refused(amount) then None else Some(OpenRequest(Numbers.ParseFloat(amount)))
  }

  /** The close request for a register and the typed amount and notes, or nothing when the
      guard refuses the amount. Empty notes are left out (`notes || undefined`). */
  function CloseRequestFor(register: Register, amount: string, notes: string): (r: Option<CloseRequest>)
    ensures r.None? <==> Refused(amount)
    ensures r.Some? ==> r.value.cashRegisterId == register.id
    ensures r.Some? ==> r.value.actualAmount == Numbers.ParseFloat(amount)
    ensures r.Some? && r.value.actualAmount.Some? ==> r.value.actualAmount.value >= 0.0
    ensures r.Some? ==> (r.value.notes.Some? <==> notes != []) &&
                        (r.value.notes.Some? ==> r.value.notes.value == notes)
  {
    if Refused(amount) then None
    else Some(CloseRequest(register.id, Numbers.ParseFloat(amount), if notes == [] then None else Some(notes)))
  }

  /** `"0"` opens a register with nothing in it: zero is allowed, only negatives are not. */
  lemma ZeroIsAccepted()
    ensures OpenRequestFor("0") == Some(OpenRequest(Some(0.0)))
  {
    assert Text.TrimStart("0") == "0";
    assert Numbers.SplitSign("0") == (false, "0");
    assert Numbers.LeadingDigits("0") == "0";
    assert Numbers.DigitsValue("0") == 0;
  }

  /** A negative amount is refused. */
  lemma NegativeIsRefused()
    ensures OpenRequestFor("-5").None?
  {
    assert Text.TrimStart("-5") == "-5";
    assert Numbers.SplitSign("-5") == (true, "5");
    assert Numbers.LeadingDigits("5") == "5";
    assert Numbers.DigitsValue("5") == 5;
  }

  /** A text with no digits at all passes the guard and is sent as NaN. */
  lemma NaNIsSent(amount: string)
    requires amount != [] && Numbers.ParseFloat(amount).None?
    ensures OpenRequestFor(amount) == Some(OpenRequest(None))
  {
  }

  // ---------------------------------------------------------------------------------------
  // The screen's state

  class CashRegisterScreen {
    var current: Option<Register>
    var showOpenModal: bool
    var showCloseModal: bool
    var initialAmount: string
    var actualAmount: string
    var notes: string
    var closeSummary: Option<Summary>

    /** The state before the current register has been loaded. */
    constructor ()
      ensures current.None? && !showOpenModal && !showCloseModal
      ensures initialAmount == [] && actualAmount == [] && notes == [] && closeSummary.None?
    {
      current := None;
      showOpenModal := false;
      showCloseModal := false;
      initialAmount := [];
      actualAmount := [];
      notes := [];
      closeSummary := None;
    }

    /** The header's "Abrir Caja" button shows only while no register is current. */
    predicate ShowsOpenButton()
      reads this
    {
      current.None?
    }

    /** `loadCurrentCashRegister` with the backend's answer (`None` when it failed). */
    method LoadCurrent(loaded: Option<Option<Register>>)
      modifies this
      ensures loaded.Some? ==> current == loaded.value
      ensures loaded.None? ==> current == old(current)
      ensures showOpenModal == old(showOpenModal) && showCloseModal == old(showCloseModal)
      ensures initialAmount == old(initialAmount) && actualAmount == old(actualAmount)
      ensures notes == old(notes) && closeSummary == old(closeSummary)
    {
      if loaded.Some? {
        current := loaded.value;
      }
    }

    /** `handleOpenCashRegister`: a refused amount sends nothing and changes nothing. Otherwise
        the request is sent; when it succeeds the register in the response becomes current,
        the modal closes and the amount is cleared, and when it fails nothing changes. */
    method OpenCashRegister(outcome: OpenOutcome) returns (sent: Option<OpenRequest>)
      modifies this
      ensures sent == OpenRequestFor(old(initialAmount))
      ensures sent.Some? && outcome.Opened? ==>
                current == outcome.data && !showOpenModal && initialAmount == []
      ensures !(sent.Some? && outcome.Opened?) ==>
                current == old(current) && showOpenModal == old(showOpenModal) &&
                initialAmount == old(initialAmount)
      ensures showCloseModal == old(showCloseModal) && actualAmount == old(actualAmount)
      ensures notes == old(notes) && closeSummary == old(closeSummary)
    {
      if initialAmount == [] {
        return None;
      }
      var parsed := Numbers.ParseFloat(initialAmount);
      if parsed.Some? && parsed.value < 0.0 {
        return None;
      }
      sent := Some(OpenRequest(parsed));
      if outcome.Opened? {
        current := outcome.data;
        showOpenModal := false;
        initialAmount := [];
      }
    }

    /** `handleCloseCashRegister`: without a current register nothing happens; a refused
        amount sends nothing. Otherwise the request is sent for the current register; when it
        succeeds the register is no longer current, the summary is the response's, and the
        amount and notes are cleared. A failure changes nothing. */
    method CloseCashRegister(outcome: CloseOutcome) returns (sent: Option<CloseRequest>)
      modifies this
      ensures old(current).None? ==> sent.None?
      ensures old(current).Some? ==>
                sent == CloseRequestFor(old(current).value, old(actualAmount), old(notes))
      ensures sent.Some? && outcome.Closed? ==>
                current.None? && closeSummary == outcome.summary &&
                actualAmount == [] && notes == [] && ShowsOpenButton()
      ensures !(sent.Some? && outcome.Closed?) ==>
                current == old(current) && closeSummary == old(closeSummary) &&
                actualAmount == old(actualAmount) && notes == old(notes)
      ensures showOpenModal == old(showOpenModal) && showCloseModal == old(showCloseModal)
      ensures initialAmount == old(initialAmount)
    {
      if current.None? {
        return None;
      }
      if actualAmount == [] {
        return None;
      }
      var parsed := Numbers.ParseFloat(actualAmount);
      if parsed.Some? && parsed.value < 0.0 {
        return None;
      }
      sent := Some(CloseRequest(current.value.id, parsed, if notes == [] then None else Some(notes)));
      if outcome.Closed? {
        closeSummary := outcome.summary;
        current := None;
        actualAmount := [];
        notes := [];
      }
    }

    /** The timer set after a close: the modal closes and the summary is dropped. */
    method DismissSummary()
      modifies this
      ensures !showCloseModal && closeSummary.None?
      ensures current == old(current) && showOpenModal == old(showOpenModal)
      ensures initialAmount == old(initialAmount) && actualAmount == old(actualAmount)
      ensures notes == old(notes)
    {
      showCloseModal := false;
      closeSummary := None;
    }
  }

  // ---------------------------------------------------------------------------------------
  // The closing difference

  datatype Tone = Green | Red | Gray

  datatype Banner = NoBanner | Surplus | Shortage

  /** The colour of the difference: green above zero, red below, grey at zero. */
  function DifferenceTone(difference: real): (r: Tone)
    ensures r == Green <==> difference > 0.0
    ensures r == Red <==> difference < 0.0
    ensures r == Gray <==> difference == 0.0
  {
    if difference > 0.0 then Green else if difference < 0.0 then Red else Gray
  }

  /** The `+` written before a positive difference; a negative one carries its own `-`. */
  function DifferenceSign(difference: real): (r: string)
    ensures r == "+" <==> difference > 0.0
    ensures r == [] <==> difference <= 0.0
  {
    if difference > 0.0 then "+" else ""
  }

  /** The banner under the summary: none when the difference is zero, the surplus text above
      zero and the shortage text below. */
  function DifferenceBanner(difference: real): (r: Banner)
    ensures r == NoBanner <==> difference == 0.0
    ensures r == Surplus <==> difference > 0.0
    ensures r == Shortage <==> difference < 0.0
  {
    if difference != 0.0 then (if difference > 0.0 then Surplus else Shortage) else NoBanner
  }

  /** The banner and the colour of the amount agree: green goes with the surplus text, red
      with the shortage text, and grey with no banner. */
  lemma BannerMatchesTone(difference: real)
    ensures DifferenceBanner(difference) == Surplus <==> DifferenceTone(difference) == Green
    ensures DifferenceBanner(difference) == Shortage <==> DifferenceTone(difference) == Red
    ensures DifferenceBanner(difference) == NoBanner <==> DifferenceTone(difference) == Gray
  {
  }
}
