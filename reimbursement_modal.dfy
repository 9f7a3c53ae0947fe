/**
 * ReimbursementModal: records the date and notes of the reimbursement of a cost. It opens
 * on the cost's own reimbursement date or, when it has none, on today's date.
 */
module ReimbursementModal {
  import opened Wrappers
  import opened Types
  import App

  datatype FormState = FormState(reimbursedDate: DateField, reimbursementNotes: string, error: string)

  const Initial := FormState(Blank, "", "")

  /** The load effect for `c`; `today` is the current day, which the source reads from the clock. */
  function Loaded(c: Cost, today: Date): FormState {
    FormState(if c.reimbursedDate.On? then c.reimbursedDate else On(today), c.reimbursementNotes.GetOr(""), "")
  }

  const MissingDateMessage := "Por favor, selecione a data do reembolso."

  /** What `handleSubmit` decides: a day is required; the notes go out as typed. */
  function SubmitOutcome(f: FormState): (o: Option<App.ReimbursementDetails>)
    ensures o.None? <==> !f.reimbursedDate.On?
    ensures o.Some? ==> o.value.reimbursedDate == f.reimbursedDate && o.value.reimbursementNotes == Some(f.reimbursementNotes)
  {
    if !f.reimbursedDate.On? then None
    else Some(App.ReimbursementDetails(f.reimbursedDate, Some(f.reimbursementNotes)))
  }

  /**
   * Confirming the modal without edits records the cost's existing date, or today, with its
   * existing notes; applied to a reimbursable cost, that makes it reimbursed.
   */
  lemma ConfirmWithoutEdits(c: Cost, today: Date)
    ensures SubmitOutcome(Loaded(c, today)).Some?
    ensures var d := SubmitOutcome(Loaded(c, today)).value;
      && d.reimbursedDate == (if c.reimbursedDate.On? then c.reimbursedDate else On(today))
      && d.reimbursementNotes == Some(c.reimbursementNotes.GetOr(""))
      && (Reimbursable(c) ==> Reimbursed(App.WithReimbursement(c, d)))
  {
  }

  datatype Input = DateInput(date: DateField) | NotesInput(text: string)

  /** The callbacks: `onSave(details)` and `onClose()`. */
  datatype Event = Saved(details: App.ReimbursementDetails) | Closed

  class Modal {
    var isOpen: bool
    var cost: Option<Cost>
    var reimbursedDate: DateField
    var reimbursementNotes: string
    var error: string
    var events: seq<Event>

    function State(): FormState
      reads this
    {
      FormState(reimbursedDate, reimbursementNotes, error)
    }

    predicate Visible()
      reads this
    {
      isOpen && cost.Some?
    }

    constructor ()
      ensures !isOpen && cost == None && State() == Initial && events == []
    {
      isOpen, cost := false, None;
      reimbursedDate, reimbursementNotes, error := Blank, "", "";
      events := [];
    }

    /** The parent opens the modal on `c`. */
    method Open(c: Cost, today: Date)
      modifies this
      ensures isOpen && cost == Some(c)
      ensures State() == Loaded(c, today) && events == old(events)
    {
      isOpen, cost := true, Some(c);
      if c.reimbursedDate.On? {
        reimbursedDate := c.reimbursedDate;
      } else {
        reimbursedDate := On(today);
      }
      reimbursementNotes := c.reimbursementNotes.GetOr("");
      error := "";
    }

    method Close()
      modifies this
      ensures !isOpen && cost == old(cost) && State() == old(State()) && events == old(events)
    {
      isOpen := false;
    }

    method Type(input: Input)
      requires Visible()
      requires input.DateInput? ==> !input.date.Unset?
      modifies this
      ensures input.DateInput? ==> State() == old(State()).(reimbursedDate := input.date)
      ensures input.NotesInput? ==> State() == old(State()).(reimbursementNotes := input.text)
      ensures isOpen == old(isOpen) && cost == old(cost) && events == old(events)
    {
      match input
      case DateInput(d) => reimbursedDate := d;
      case NotesInput(t) => reimbursementNotes := t;
    }

    /** Confirming shows the error or emits the details; closing is left to the parent. */
    method Submit()
      requires Visible()
      modifies this
      ensures match SubmitOutcome(old(State()))
        case None => State() == old(State()).(error := MissingDateMessage) && events == old(events)
        case Some(d) => State() == old(State()) && events == old(events) + [Saved(d)]
      ensures isOpen == old(isOpen) && cost == old(cost)
    {
      var outcome := SubmitOutcome(State());
      assert outcome == SubmitOutcome(old(State()));
      match outcome
      case None =>
        error := MissingDateMessage;
      case Some(d) =>
        events := events + [Saved(d)];
    }

    method Cancel()
      requires Visible()
      modifies this
      ensures State() == old(State()) && isOpen == old(isOpen) && cost == old(cost)
      ensures events == old(events) + [Closed]
    {
      events := events + [Closed];
    }
  }
}
