/**
 * EditCostModal: edits a cost of a raffle, including its reimbursement details, and offers
 * to delete the cost or only its reimbursement. Opening it with a cost loads the cost into
 * the fields; saving emits the cost with the edited fields spread over it.
 */
module EditCostModal {
  import opened Wrappers
  import opened Types
  import opened Numbers
  import opened Text
  import opened EntryRules

  datatype FormState = FormState(
    description: string,
    amount: NumText,
    date: DateField,
    isDonation: bool,
    isReimbursement: bool,
    notes: string,
    reimbursedDate: DateField,
    reimbursementNotes: string,
    error: string)

  const Initial := FormState("", EmptyText, Blank, false, false, "", Blank, "", "")

  /** `formatDateForInput`: a day stays a day, anything falsy becomes ''. */
  function InputDate(d: DateField): (r: DateField)
    ensures r.On? <==> d.On?
    ensures r.On? ==> r == d
    ensures !r.Unset?
  {
    if d.On? then d else Blank
  }

  /**
   * The two flags once the load has set them to `d` and `r` and the two flag effects have
   * run: each effect runs only when its flag changed from `prevD`/`prevR`, and both see the
   * loaded values.
   */
  function LoadedFlags(prevD: bool, prevR: bool, d: bool, r: bool): (flags: (bool, bool))
    ensures !(prevD && prevR) ==> !(flags.0 && flags.1)
    ensures !(d && r) ==> flags == (d, r)
  {
    (if r != prevR && r then false else d, if d != prevD && d then false else r)
  }

  /** The fields after the load effect for `c`, from fields whose flags were `prev`. */
  function Loaded(c: Cost, prev: FormState): FormState {
    var flags := LoadedFlags(prev.isDonation, prev.isReimbursement, Flag(c.isDonation), Flag(c.isReimbursement));
    FormState(c.description, Shown(c.amount), InputDate(c.date), flags.0, flags.1,
              c.notes.GetOr(""), InputDate(c.reimbursedDate), c.reimbursementNotes.GetOr(""), "")
  }

  /** The cost as a save without edits writes it back: every optional property made explicit. */
  function Normalised(c: Cost): Cost {
    c.(date := InputDate(c.date),
       isDonation := Some(Flag(c.isDonation)),
       isReimbursement := Some(Flag(c.isReimbursement)),
       notes := Some(c.notes.GetOr("")),
       reimbursedDate := InputDate(c.reimbursedDate),
       reimbursementNotes := Some(c.reimbursementNotes.GetOr("")))
  }

  datatype Outcome = Rejected(message: string) | Accepted(cost: Cost)

  /** What `handleSubmit` decides: the shared cost check, then the edited cost over `cost`. */
  function SubmitOutcome(cost: Cost, f: FormState): (o: Outcome)
    ensures o.Rejected? <==> CostAmount(f.description, f.amount, f.isDonation).None?
    ensures o.Rejected? ==> o.message == "Por favor, preencha a descrição e um valor válido. Doações podem ter valor 0."
    ensures o.Accepted? ==>
      o.cost.id == cost.id && o.cost.description == f.description
      && FloatOf(f.amount) == Some(o.cost.amount) && o.cost.amount >= 0.0
      && (o.cost.amount == 0.0 ==> f.isDonation)
      && o.cost.date == f.date && o.cost.reimbursedDate == f.reimbursedDate
      && o.cost.isDonation == Some(f.isDonation) && o.cost.isReimbursement == Some(f.isReimbursement)
      && o.cost.notes == Some(f.notes) && o.cost.reimbursementNotes == Some(f.reimbursementNotes)
  {
    match CostAmount(f.description, f.amount, f.isDonation)
    case None => Rejected("Por favor, preencha a descrição e um valor válido. Doações podem ter valor 0.")
    case Some(a) =>
      Accepted(cost.(description := f.description, amount := a, date := f.date,
                     isDonation := Some(f.isDonation), isReimbursement := Some(f.isReimbursement),
                     notes := Some(f.notes), reimbursedDate := f.reimbursedDate,
                     reimbursementNotes := Some(f.reimbursementNotes)))
  }

  /**
   * Opening a cost that passes the check and saving it without edits writes back the same
   * cost with its optional properties made explicit.
   */
  lemma SaveWithoutEdits(c: Cost, prev: FormState)
    requires !(prev.isDonation && prev.isReimbursement)
    requires !(Flag(c.isDonation) && Flag(c.isReimbursement))
    requires CostAmount(c.description, Shown(c.amount), Flag(c.isDonation)).Some?
    ensures SubmitOutcome(c, Loaded(c, prev)) == Accepted(Normalised(c))
  {
    assert FloatOf(Shown(c.amount)) == Some(c.amount);
  }

  /** Making the optional properties explicit keeps what every page reads from a cost. */
  lemma NormalisedReadsTheSame(c: Cost)
    ensures Pending(Normalised(c)) == Pending(c) && Reimbursed(Normalised(c)) == Reimbursed(c)
    ensures Flag(Normalised(c).isDonation) == Flag(c.isDonation)
    ensures Normalised(Normalised(c)) == Normalised(c)
  {
  }

  /** The inputs of the form; the last two are shown only while the reimbursement box is checked. */
  datatype Input =
    | DescriptionInput(text: string)
    | AmountInput(text: string)
    | DateInput(date: DateField)
    | NotesInput(text: string)
    | ReimbursedDateInput(date: DateField)
    | ReimbursementNotesInput(text: string)

  function AfterTyping(f: FormState, input: Input): FormState {
    match input
    case DescriptionInput(t) => f.(description := t)
    case AmountInput(t) => f.(amount := Typed(t))
    case DateInput(d) => f.(date := d)
    case NotesInput(t) => f.(notes := t)
    case ReimbursedDateInput(d) => f.(reimbursedDate := d)
    case ReimbursementNotesInput(t) => f.(reimbursementNotes := t)
  }

  /** The callbacks: `onSave(cost)`, `onDelete()`, `onDeleteReimbursement()` and `onClose()`. */
  datatype Event = Saved(cost: Cost) | DeleteRequested | DeleteReimbursementRequested | Closed

  class Modal {
    var isOpen: bool
    var cost: Option<Cost>
    var description: string
    var amount: NumText
    var date: DateField
    var isDonation: bool
    var isReimbursement: bool
    var notes: string
    var reimbursedDate: DateField
    var reimbursementNotes: string
    var error: string
    var events: seq<Event>

    function State(): FormState
      reads this
    {
      FormState(description, amount, date, isDonation, isReimbursement, notes, reimbursedDate, reimbursementNotes, error)
    }

    ghost predicate Valid()
      reads this
    {
      !(isDonation && isReimbursement)
    }

    /** Whether the modal renders: `isOpen && cost`. */
    predicate Visible()
      reads this
    {
      isOpen && cost.Some?
    }

    constructor ()
      ensures !isOpen && cost == None && State() == Initial && events == []
      ensures Valid()
    {
      isOpen := false;
      cost := None;
      description := "";
      amount := EmptyText;
      date := Blank;
      isDonation := false;
      isReimbursement := false;
      notes := "";
      reimbursedDate := Blank;
      reimbursementNotes := "";
      error := "";
      events := [];
    }

    /** Every field of the form at once. */
    method SetFields(s: FormState)
      modifies this
      ensures State() == s
      ensures isOpen == old(isOpen) && cost == old(cost) && events == old(events)
    {
      description, amount, date, notes := s.description, s.amount, s.date, s.notes;
      reimbursedDate, reimbursementNotes, error := s.reimbursedDate, s.reimbursementNotes, s.error;
      isDonation, isReimbursement := s.isDonation, s.isReimbursement;
    }

    /** The parent opens the modal on `c`: the load effect copies the cost into the fields. */
    method Open(c: Cost)
      requires Valid()
      modifies this
      ensures isOpen && cost == Some(c)
      ensures State() == Loaded(c, old(State()))
      ensures events == old(events)
      ensures Valid()
    {
      // The load effect sets every field; the two flag effects that run after that render,
      // each reading the loaded values, decide the final flags.
      var next := Loaded(c, State());
      isOpen, cost := true, Some(c);
      SetFields(next);
    }

    /** The parent closes the modal; the fields keep their values until the next load. */
    method Close()
      modifies this
      ensures !isOpen && cost == old(cost) && State() == old(State()) && events == old(events)
    {
      isOpen := false;
    }

    method Type(input: Input)
      requires Valid() && Visible()
      requires (input.DateInput? || input.ReimbursedDateInput?) ==> !input.date.Unset?
      requires (input.ReimbursedDateInput? || input.ReimbursementNotesInput?) ==> isReimbursement
      modifies this
      ensures State() == AfterTyping(old(State()), input)
      ensures isOpen == old(isOpen) && cost == old(cost) && events == old(events)
      ensures Valid()
    {
      match input
      case DescriptionInput(t) => description := t;
      case AmountInput(t) => amount := Typed(t);
      case DateInput(d) => date := d;
      case NotesInput(t) => notes := t;
      case ReimbursedDateInput(d) => reimbursedDate := d;
      case ReimbursementNotesInput(t) => reimbursementNotes := t;
    }

    /** The donation checkbox, disabled while the reimbursement box is checked. */
    method ClickDonation(checked: bool)
      requires Valid() && Visible()
      modifies this
      ensures old(isReimbursement) ==> State() == old(State())
      ensures !old(isReimbursement) ==> State() == old(State()).(isDonation := checked)
      ensures isOpen == old(isOpen) && cost == old(cost) && events == old(events)
      ensures Valid()
    {
      if !isReimbursement {
        isDonation, isReimbursement := AfterDonationBox(checked, isReimbursement).0, AfterDonationBox(checked, isReimbursement).1;
      }
    }

    /** The reimbursement checkbox, disabled while the donation box is checked. */
    method ClickReimbursement(checked: bool)
      requires Valid() && Visible()
      modifies this
      ensures old(isDonation) ==> State() == old(State())
      ensures !old(isDonation) ==> State() == old(State()).(isReimbursement := checked)
      ensures isOpen == old(isOpen) && cost == old(cost) && events == old(events)
      ensures Valid()
    {
      if !isDonation {
        isDonation, isReimbursement := AfterReimbursementBox(checked, isDonation).0, AfterReimbursementBox(checked, isDonation).1;
      }
    }

    /** Saving shows the error or emits the edited cost; closing is left to the parent. */
    method Submit()
      requires Valid() && Visible()
      modifies this
      ensures match SubmitOutcome(old(cost).value, old(State()))
        case Rejected(m) => State() == old(State()).(error := m) && events == old(events)
        case Accepted(c) => State() == old(State()) && events == old(events) + [Saved(c)]
      ensures isOpen == old(isOpen) && cost == old(cost)
      ensures Valid()
    {
      var outcome := SubmitOutcome(cost.value, State());
      match outcome
      case Rejected(m) =>
        error := m;
      case Accepted(c) =>
        events := events + [Saved(c)];
    }

    /** "Excluir Custo". */
    method Delete()
      requires Visible()
      modifies this
      ensures State() == old(State()) && isOpen == old(isOpen) && cost == old(cost)
      ensures events == old(events) + [DeleteRequested]
    {
      events := events + [DeleteRequested];
    }

    /** "Excluir Reembolso", rendered only for a cost that has a reimbursement date. */
    method DeleteReimbursement()
      requires Visible() && cost.value.reimbursedDate.On?
      modifies this
      ensures State() == old(State()) && isOpen == old(isOpen) && cost == old(cost)
      ensures events == old(events) + [DeleteReimbursementRequested]
    {
      events := events + [DeleteReimbursementRequested];
    }

    /** The cancel button and the backdrop. */
    method Cancel()
      requires Visible()
      modifies this
      ensures State() == old(State()) && isOpen == old(isOpen) && cost == old(cost)
      ensures events == old(events) + [Closed]
    {
      events := events + [Closed];
    }
  }

  /**
   * A stored cost flagged both as a donation and as a reimbursement opens with both boxes
   * clear when the previous fields had neither flag set, so saving it clears both.
   */
  lemma DoublyFlaggedCostOpensCleared(c: Cost, prev: FormState)
    requires Flag(c.isDonation) && Flag(c.isReimbursement)
    requires !prev.isDonation && !prev.isReimbursement
    ensures !Loaded(c, prev).isDonation && !Loaded(c, prev).isReimbursement
  {
  }
}
