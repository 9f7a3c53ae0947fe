/**
 * EditSaleModal: edits the quantity, amount and notes of a sale. The amount follows
 * quantity * ticketPrice until it is typed by hand; opening a sale whose stored amount is
 * off that product by more than 0.001 marks the amount as typed by hand.
 */
module EditSaleModal {
  import opened Wrappers
  import opened Types
  import opened Text
  import opened Numbers
  import opened EntryRules

  datatype FormState = FormState(quantity: string, amount: NumText, description: string, error: string, isManualAmount: bool)

  const Initial := FormState("", EmptyText, "", "", false)

  /** `Math.abs(sale.quantity * raffle.ticketPrice - sale.amount) > 0.001`. */
  predicate ManualAmount(sale: Sale, raffle: Raffle) {
    var d := sale.quantity as real * raffle.ticketPrice - sale.amount;
    d > 0.001 || d < -0.001
  }

  /** The fields the load effect sets for `sale`; without a raffle the manual flag is kept. */
  function LoadedFields(prev: FormState, sale: Sale, raffle: Option<Raffle>): FormState {
    FormState(IntToString(sale.quantity), Shown(sale.amount), sale.description, "",
              if raffle.Some? then ManualAmount(sale, raffle.value) else prev.isManualAmount)
  }

  /** The auto-amount effect on fields `f`: with a raffle and no typed amount, the computed amount. */
  function AmountEffect(f: FormState, raffle: Option<Raffle>): (r: FormState)
    ensures r.quantity == f.quantity && r.description == f.description && r.error == f.error
    ensures r.isManualAmount == f.isManualAmount
    ensures raffle.None? || f.isManualAmount ==> r == f
  {
    if raffle.Some? && !f.isManualAmount then f.(amount := AutoAmount(f.quantity, raffle.value.ticketPrice)) else f
  }

  /**
   * The fields once the modal has opened on `sale`, as written. The modal is rendered closed
   * with no raffle, so the opening render changes the `raffle` prop: in that commit the load
   * effect queues the sale's values and then the auto-amount effect, reading the previous
   * quantity and flag, queues an amount of its own, which wins. The next render re-runs the
   * auto-amount effect only when the quantity or the flag changed, and it writes nothing when
   * the loaded flag is set.
   */
  function OpenedAsWritten(prev: FormState, sale: Sale, raffle: Option<Raffle>): (r: FormState)
    ensures r.quantity == IntToString(sale.quantity) && r.description == sale.description && r.error == ""
    ensures r.isManualAmount == if raffle.Some? then ManualAmount(sale, raffle.value) else prev.isManualAmount
    ensures raffle.None? ==> r.amount == Shown(sale.amount)
    ensures raffle.Some? && !prev.isManualAmount && ManualAmount(sale, raffle.value) ==>
      r.amount == AutoAmount(prev.quantity, raffle.value.ticketPrice)
  {
    var loaded := LoadedFields(prev, sale, raffle);
    var firstCommit := if raffle.Some? && !prev.isManualAmount
      then loaded.(amount := AutoAmount(prev.quantity, raffle.value.ticketPrice)) else loaded;
    if loaded.quantity != prev.quantity || loaded.isManualAmount != prev.isManualAmount
    then AmountEffect(firstCommit, raffle) else firstCommit
  }

  /** The fields once the modal has opened on `sale`, as intended: the load, then the auto-amount effect on the loaded values. */
  function Opened(prev: FormState, sale: Sale, raffle: Option<Raffle>): (r: FormState)
    ensures r.quantity == IntToString(sale.quantity) && r.description == sale.description && r.error == ""
    ensures r.isManualAmount == if raffle.Some? then ManualAmount(sale, raffle.value) else prev.isManualAmount
    ensures raffle.None? || r.isManualAmount ==> r.amount == Shown(sale.amount)
  {
    AmountEffect(LoadedFields(prev, sale, raffle), raffle)
  }

  /**
   * The first time a sale with a hand-typed amount is opened (2 tickets at 10.00 sold for
   * 15.00), the amount field comes up empty, and saving without edits is rejected.
   */
  lemma ManualAmountLostOnFirstOpen()
    ensures var sale := Sale("s1", "", 2, 15.0);
      var raffle := Raffle("r1", "Rifa", "Dinheiro", Date(2025, 3, 1), 10.0, [sale], [], Some(false));
      && OpenedAsWritten(Initial, sale, Some(raffle)).amount == EmptyText
      && Opened(Initial, sale, Some(raffle)).amount == Shown(15.0)
      && SaleValues(OpenedAsWritten(Initial, sale, Some(raffle)).quantity, OpenedAsWritten(Initial, sale, Some(raffle)).amount).None?
  {
    var sale := Sale("s1", "", 2, 15.0);
    var raffle := Raffle("r1", "Rifa", "Dinheiro", Date(2025, 3, 1), 10.0, [sale], [], Some(false));
    assert ManualAmount(sale, raffle);
    assert ParseInt("").None? by {
      assert SkipWhitespace("") == "" && DigitRun("") == 0;
    }
    assert ParseFloat("") == None by {
      assert SkipWhitespace("") == "" && DigitRun("") == 0;
    }
    assert IntToString(2) != "" ;
  }

  /** The new sale `handleSubmit` would save: the shared sale check over the sale's own id. */
  function SubmitOutcome(sale: Sale, f: FormState): (r: Option<Sale>)
    ensures r.None? <==> SaleValues(f.quantity, f.amount).None?
    ensures r.Some? ==> (r.value.id == sale.id && r.value.description == f.description
      && r.value.quantity > 0 && r.value.amount >= 0.0
      && ParseInt(f.quantity) == Some(r.value.quantity) && FloatOf(f.amount) == Some(r.value.amount))
  {
    match SaleValues(f.quantity, f.amount)
    case None => None
    case Some((q, a)) => Some(sale.(quantity := q, amount := a, description := f.description))
  }

  const InvalidSaleMessage := "Por favor, preencha a quantidade e um valor válido."

  /** A loaded quantity passes the check together with any non-negative amount. */
  lemma LoadedQuantityAccepted(sale: Sale, f: FormState, a: real)
    requires sale.quantity > 0 && f.quantity == IntToString(sale.quantity) && f.description == sale.description
    requires FloatOf(f.amount) == Some(a) && a >= 0.0
    ensures SubmitOutcome(sale, f) == Some(sale.(amount := a))
  {
    ParseIntOfString(sale.quantity);
  }

  /** The amount field once a sale has opened: the stored amount when typed by hand, else the computed one. */
  lemma OpenedAmount(prev: FormState, sale: Sale, raffle: Raffle)
    ensures Opened(prev, sale, Some(raffle)).quantity == IntToString(sale.quantity)
    ensures Opened(prev, sale, Some(raffle)).description == sale.description
    ensures Opened(prev, sale, Some(raffle)).amount ==
      if ManualAmount(sale, raffle) then Shown(sale.amount) else AutoAmount(IntToString(sale.quantity), raffle.ticketPrice)
  {
    assert Some(raffle).value == raffle;
  }

  /** Within half a cent of a product that is within 0.001 of the stored amount is within 0.006 of it. */
  lemma NearStoredAmount(sale: Sale, raffle: Raffle, x: real)
    requires !ManualAmount(sale, raffle)
    requires -0.005 <= x - sale.quantity as real * raffle.ticketPrice <= 0.005
    ensures -0.006 <= x - sale.amount <= 0.006
  {
  }

  /** Saving a sale whose amount was typed by hand, opened and left unedited, keeps all of it. */
  lemma SaveManualWithoutEdits(prev: FormState, sale: Sale, raffle: Raffle)
    requires sale.quantity > 0 && sale.amount >= 0.0 && ManualAmount(sale, raffle)
    ensures SubmitOutcome(sale, Opened(prev, sale, Some(raffle))) == Some(sale)
  {
    OpenedAmount(prev, sale, raffle);
    LoadedQuantityAccepted(sale, Opened(prev, sale, Some(raffle)), sale.amount);
  }

  /** Saving a sale with a computed amount, opened and left unedited, writes the amount computed afresh. */
  lemma SaveComputedWithoutEdits(prev: FormState, sale: Sale, raffle: Raffle)
    requires sale.quantity > 0 && raffle.ticketPrice >= 0.0 && !ManualAmount(sale, raffle)
    ensures SubmitOutcome(sale, Opened(prev, sale, Some(raffle))) == Some(sale.(amount := Round2(sale.quantity as real * raffle.ticketPrice)))
  {
    var product := sale.quantity as real * raffle.ticketPrice;
    var f := Opened(prev, sale, Some(raffle));
    assert f.quantity == IntToString(sale.quantity) && f.description == sale.description
        && f.amount == Fixed2(product) by {
      OpenedAmount(prev, sale, raffle);
      AutoAmountOfNumber(sale.quantity, raffle.ticketPrice);
    }
    ComputedAmountNonNegative(sale.quantity, raffle.ticketPrice);
    LoadedQuantityAccepted(sale, f, Round2(product));
  }

  /** The amount computed for a positive quantity at a non-negative price is not negative. */
  lemma ComputedAmountNonNegative(quantity: int, ticketPrice: real)
    requires quantity > 0 && ticketPrice >= 0.0
    ensures Round2(quantity as real * ticketPrice) >= 0.0
  {
    ProductNonNegative(quantity as real, ticketPrice);
    Round2Close(quantity as real * ticketPrice);
  }

  /**
   * Opening a valid sale and saving it without edits keeps its quantity and notes; the amount
   * is the stored one when it was typed by hand, otherwise the computed one, within half a
   * cent of quantity * ticketPrice and so within 0.006 of the stored amount.
   */
  lemma SaveWithoutEdits(prev: FormState, sale: Sale, raffle: Raffle)
    requires sale.quantity > 0 && sale.amount >= 0.0 && raffle.ticketPrice >= 0.0
    ensures SubmitOutcome(sale, Opened(prev, sale, Some(raffle))).Some?
    ensures var saved := SubmitOutcome(sale, Opened(prev, sale, Some(raffle))).value;
      && saved.id == sale.id && saved.quantity == sale.quantity && saved.description == sale.description
      && (ManualAmount(sale, raffle) ==> saved.amount == sale.amount)
      && (!ManualAmount(sale, raffle) ==> -0.006 <= saved.amount - sale.amount <= 0.006)
  {
    if ManualAmount(sale, raffle) {
      SaveManualWithoutEdits(prev, sale, raffle);
    } else {
      var product := sale.quantity as real * raffle.ticketPrice;
      SaveComputedWithoutEdits(prev, sale, raffle);
      Round2Close(product);
      NearStoredAmount(sale, raffle, Round2(product));
    }
  }

  /** The callbacks: `onSave(sale)`, `onDelete()` and `onClose()`. */
  datatype Event = Saved(sale: Sale) | DeleteRequested | Closed

  class Modal {
    var isOpen: bool
    var sale: Option<Sale>
    var raffle: Option<Raffle>
    var quantity: string
    var amount: NumText
    var description: string
    var error: string
    var isManualAmount: bool
    var events: seq<Event>

    function State(): FormState
      reads this
    {
      FormState(quantity, amount, description, error, isManualAmount)
    }

    /** Unless the amount was typed by hand, it is the one computed from the quantity. */
    ghost predicate Valid()
      reads this
    {
      raffle.Some? && !isManualAmount ==> amount == AutoAmount(quantity, raffle.value.ticketPrice)
    }

    predicate Visible()
      reads this
    {
      isOpen && sale.Some?
    }

    constructor ()
      ensures !isOpen && sale == None && raffle == None && State() == Initial && events == []
      ensures Valid()
    {
      isOpen, sale, raffle := false, None, None;
      quantity, amount, description, error, isManualAmount := "", EmptyText, "", "", false;
      events := [];
    }

    /** The parent opens the modal on a sale of `r` (None when the raffle is not loaded). */
    method Open(s: Sale, r: Option<Raffle>)
      modifies this
      ensures isOpen && sale == Some(s) && raffle == r
      ensures State() == Opened(old(State()), s, r)
      ensures events == old(events)
      ensures Valid()
    {
      isOpen, sale, raffle := true, Some(s), r;
      Load(s);
      AutoAmountEffect();
    }

    /** The load effect: the sale's values, and whether its amount was typed by hand. */
    method Load(s: Sale)
      modifies this
      ensures State() == LoadedFields(old(State()), s, raffle)
      ensures isOpen == old(isOpen) && sale == old(sale) && raffle == old(raffle) && events == old(events)
    {
      quantity := IntToString(s.quantity);
      amount := Shown(s.amount);
      description := s.description;
      error := "";
      if raffle.Some? {
        isManualAmount := ManualAmount(s, raffle.value);
      }
    }

    /** The auto-amount effect: with a raffle and no typed amount, the amount computed from the quantity. */
    method AutoAmountEffect()
      modifies this
      ensures State() == AmountEffect(old(State()), raffle)
      ensures isOpen == old(isOpen) && sale == old(sale) && raffle == old(raffle) && events == old(events)
      ensures Valid()
    {
      if raffle.Some? && !isManualAmount {
        amount := AutoAmount(quantity, raffle.value.ticketPrice);
      }
    }

    /** The parent closes the modal; the raffle prop becomes null and the fields are kept. */
    method Close()
      modifies this
      ensures !isOpen && sale == None && raffle == None
      ensures State() == old(State()) && events == old(events)
      ensures Valid()
    {
      isOpen, sale, raffle := false, None, None;
    }

    /** `handleQuantityChange`: the amount follows the quantity again. */
    method SetQuantity(text: string)
      requires Valid() && Visible()
      modifies this
      ensures text != old(quantity) ==>
        State() == AmountEffect(old(State()).(quantity := text, isManualAmount := false), raffle)
      ensures text == old(quantity) ==> State() == old(State())
      ensures isOpen == old(isOpen) && sale == old(sale) && raffle == old(raffle) && events == old(events)
      ensures Valid()
    {
      if text != quantity {
        isManualAmount := false;
        quantity := text;
        if raffle.Some? {
          amount := AutoAmount(quantity, raffle.value.ticketPrice);
        }
      }
    }

    /** `handleAmountChange`: a typed amount is kept until the quantity changes. */
    method SetAmount(text: string)
      requires Valid() && Visible()
      modifies this
      ensures State() == old(State()).(amount := Typed(text), isManualAmount := true)
      ensures isOpen == old(isOpen) && sale == old(sale) && raffle == old(raffle) && events == old(events)
      ensures Valid()
    {
      isManualAmount := true;
      amount := Typed(text);
    }

    method SetDescription(text: string)
      requires Valid() && Visible()
      modifies this
      ensures State() == old(State()).(description := text)
      ensures isOpen == old(isOpen) && sale == old(sale) && raffle == old(raffle) && events == old(events)
      ensures Valid()
    {
      description := text;
    }

    /** Saving shows the error, or saves the edited sale and asks to close. */
    method Submit()
      requires Valid() && Visible()
      modifies this
      ensures match SubmitOutcome(old(sale).value, old(State()))
        case None => State() == old(State()).(error := InvalidSaleMessage) && events == old(events)
        case Some(s) => State() == old(State()) && events == old(events) + [Saved(s), Closed]
      ensures isOpen == old(isOpen) && sale == old(sale) && raffle == old(raffle)
      ensures Valid()
    {
      var outcome := SubmitOutcome(sale.value, State());
      assert outcome == SubmitOutcome(old(sale).value, old(State()));
      match outcome
      case None =>
        error := InvalidSaleMessage;
      case Some(s) =>
        events := events + [Saved(s), Closed];
    }

    /** "Excluir". */
    method Delete()
      requires Visible()
      modifies this
      ensures State() == old(State()) && isOpen == old(isOpen) && sale == old(sale) && raffle == old(raffle)
      ensures events == old(events) + [DeleteRequested]
    {
      events := events + [DeleteRequested];
    }

    /** "Cancelar" and the backdrop. */
    method Cancel()
      requires Visible()
      modifies this
      ensures State() == old(State()) && isOpen == old(isOpen) && sale == old(sale) && raffle == old(raffle)
      ensures events == old(events) + [Closed]
    {
      events := events + [Closed];
    }
  }
}
