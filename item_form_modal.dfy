/**
 * ItemFormModal (the component `EntryFormModal`): a description and a strictly positive
 * amount. Saving clears the form but leaves it open.
 */
module ItemFormModal {
  import opened Wrappers
  import opened Text
  import opened Numbers
  import EntryRules

  /** `{ description, amount }` as `onSave` receives it. */
  datatype Item = Item(description: string, amount: real)

  datatype FormState = FormState(description: string, amount: NumText, error: string)

  const Initial := FormState("", EmptyText, "")

  const InvalidMessage := "Por favor, preencha todos os campos com valores válidos."

  /** What `handleSubmit` decides: a description that is not blank and an amount above zero. */
  function SubmitOutcome(f: FormState): (o: Option<Item>)
    ensures o.None? <==> (IsBlank(f.description) || FloatOf(f.amount).None? || FloatOf(f.amount).value <= 0.0)
    ensures o.Some? ==> o.value.description == f.description && FloatOf(f.amount) == Some(o.value.amount) && o.value.amount > 0.0
  {
    var a := FloatOf(f.amount);
    if IsBlank(f.description) || a.None? || a.value <= 0.0 then None else Some(Item(f.description, a.value))
  }

  /** The item check accepts exactly what the entry forms' cost check accepts for a cost that is not a donation. */
  lemma ItemCheckIsCostCheckWithoutDonation(f: FormState)
    ensures SubmitOutcome(f).Some? <==> EntryRules.CostAmount(f.description, f.amount, false).Some?
    ensures SubmitOutcome(f).Some? ==> SubmitOutcome(f).value.amount == EntryRules.CostAmount(f.description, f.amount, false).value
  {
  }

  datatype Input = DescriptionInput(text: string) | AmountInput(text: string)

  /** The callbacks: `onSave(entry)` and `onClose()`. */
  datatype Event = Saved(item: Item) | Closed

  class Modal {
    const kind: EntryRules.EntryKind
    var isOpen: bool
    var description: string
    var amount: NumText
    var error: string
    var events: seq<Event>

    function State(): FormState
      reads this
    {
      FormState(description, amount, error)
    }

    constructor (kind: EntryRules.EntryKind)
      ensures this.kind == kind && !isOpen && State() == Initial && events == []
    {
      this.kind := kind;
      isOpen := false;
      description, amount, error := "", EmptyText, "";
      events := [];
    }

    /** The parent shows or hides the modal; the fields are kept either way. */
    method SetOpen(open: bool)
      modifies this
      ensures isOpen == open && State() == old(State()) && events == old(events)
    {
      isOpen := open;
    }

    method Type(input: Input)
      requires isOpen
      modifies this
      ensures input.DescriptionInput? ==> State() == old(State()).(description := input.text)
      ensures input.AmountInput? ==> State() == old(State()).(amount := Typed(input.text))
      ensures isOpen == old(isOpen) && events == old(events)
    {
      match input
      case DescriptionInput(t) => description := t;
      case AmountInput(t) => amount := Typed(t);
    }

    /** Saving shows the error, or emits the item and clears every field. */
    method Submit()
      requires isOpen
      modifies this
      ensures match SubmitOutcome(old(State()))
        case None => State() == old(State()).(error := InvalidMessage) && events == old(events)
        case Some(item) => State() == Initial && events == old(events) + [Saved(item)]
      ensures isOpen == old(isOpen)
    {
      var outcome := SubmitOutcome(State());
      assert outcome == SubmitOutcome(old(State()));
      match outcome
      case None =>
        error := InvalidMessage;
      case Some(item) =>
        events := events + [Saved(item)];
        description, amount, error := "", EmptyText, "";
    }

    method Cancel()
      requires isOpen
      modifies this
      ensures State() == old(State()) && isOpen == old(isOpen) && events == old(events) + [Closed]
    {
      events := events + [Closed];
    }
  }
}
