/**
 * EditRaffleModal: edits a raffle's title, category, date and ticket price. Saving emits
 * the raffle's id with the edited fields and asks to close.
 */
module EditRaffleModal {
  import opened Wrappers
  import opened Types
  import opened Text
  import opened Numbers

  /** The categories the select offers, in order; the first is the initial value. */
  const Categories: seq<string> := ["Caboclo", "Preto Velho", "Exú", "Crianças", "Mata", "Praia", "Outro"]

  /** What `onSave` receives: `{ id, title, category, date, ticketPrice }`, without the finalised flag. */
  datatype RaffleEdit = RaffleEdit(id: string, title: string, category: string, date: Date, ticketPrice: real)

  datatype FormState = FormState(title: string, category: string, date: DateField, ticketPrice: NumText, error: string)

  const Initial := FormState("", Categories[0], Blank, EmptyText, "")

  /** The load effect for `r`; it leaves an error from an earlier session in place. */
  function Loaded(r: Raffle, prev: FormState): FormState {
    prev.(title := r.title, category := r.category, date := On(r.date), ticketPrice := Shown(r.ticketPrice))
  }

  const InvalidMessage := "Por favor, preencha todos os campos com valores válidos."

  /** What `handleSubmit` decides for the raffle `id`: None shows `InvalidMessage`. */
  function SubmitOutcome(id: string, f: FormState): (o: Option<RaffleEdit>)
    ensures o.None? <==> (IsBlank(f.title) || f.category == "" || !f.date.On?
                          || FloatOf(f.ticketPrice).None? || FloatOf(f.ticketPrice).value < 0.0)
    ensures o.Some? ==> (o.value.id == id && o.value.title == f.title && o.value.category == f.category
                         && f.date == On(o.value.date) && FloatOf(f.ticketPrice) == Some(o.value.ticketPrice)
                         && o.value.ticketPrice >= 0.0)
  {
    var price := FloatOf(f.ticketPrice);
    if IsBlank(f.title) || f.category == "" || !f.date.On? || price.None? || price.value < 0.0 then None
    else Some(RaffleEdit(id, f.title, f.category, f.date.date, price.value))
  }

  /** Every offered category is a non-empty name, so choosing one never fails the check. */
  lemma CategoriesAreNames()
    ensures |Categories| == 7
    ensures forall c :: c in Categories ==> c != ""
  {
  }

  /**
   * Opening a raffle with a title, a category and a non-negative price and saving it
   * without edits emits exactly the raffle's own fields.
   */
  lemma SaveWithoutEdits(r: Raffle, prev: FormState)
    requires !IsBlank(r.title) && r.category != "" && r.ticketPrice >= 0.0
    ensures SubmitOutcome(r.id, Loaded(r, prev)) == Some(RaffleEdit(r.id, r.title, r.category, r.date, r.ticketPrice))
  {
  }

  datatype Input = TitleInput(text: string) | DateInput(date: DateField) | PriceInput(text: string)

  function AfterTyping(f: FormState, input: Input): FormState {
    match input
    case TitleInput(t) => f.(title := t)
    case DateInput(d) => f.(date := d)
    case PriceInput(t) => f.(ticketPrice := Typed(t))
  }

  /** The callbacks: `onSave(raffle)` and `onClose()`. */
  datatype Event = Saved(edit: RaffleEdit) | Closed

  class Modal {
    var isOpen: bool
    var raffle: Option<Raffle>
    var title: string
    var category: string
    var date: DateField
    var ticketPrice: NumText
    var error: string
    var events: seq<Event>

    function State(): FormState
      reads this
    {
      FormState(title, category, date, ticketPrice, error)
    }

    predicate Visible()
      reads this
    {
      isOpen && raffle.Some?
    }

    constructor ()
      ensures !isOpen && raffle == None && State() == Initial && events == []
    {
      isOpen, raffle := false, None;
      title, category, date, ticketPrice, error := "", Categories[0], Blank, EmptyText, "";
      events := [];
    }

    /** The parent opens the modal on `r`: the load effect copies its fields. */
    method Open(r: Raffle)
      modifies this
      ensures isOpen && raffle == Some(r)
      ensures State() == Loaded(r, old(State())) && events == old(events)
    {
      isOpen, raffle := true, Some(r);
      title := r.title;
      category := r.category;
      date := On(r.date);
      ticketPrice := Shown(r.ticketPrice);
    }

    method Close()
      modifies this
      ensures !isOpen && raffle == old(raffle) && State() == old(State()) && events == old(events)
    {
      isOpen := false;
    }

    method Type(input: Input)
      requires Visible()
      requires input.DateInput? ==> !input.date.Unset?
      modifies this
      ensures State() == AfterTyping(old(State()), input)
      ensures isOpen == old(isOpen) && raffle == old(raffle) && events == old(events)
    {
      match input
      case TitleInput(t) => title := t;
      case DateInput(d) => date := d;
      case PriceInput(t) => ticketPrice := Typed(t);
    }

    /** Choosing one of the offered categories. */
    method SelectCategory(c: string)
      requires Visible() && c in Categories
      modifies this
      ensures State() == old(State()).(category := c)
      ensures isOpen == old(isOpen) && raffle == old(raffle) && events == old(events)
    {
      category := c;
    }

    /** Saving shows the error, or emits the edit and asks to close. */
    method Submit()
      requires Visible()
      modifies this
      ensures match SubmitOutcome(old(raffle).value.id, old(State()))
        case None => State() == old(State()).(error := InvalidMessage) && events == old(events)
        case Some(e) => State() == old(State()) && events == old(events) + [Saved(e), Closed]
      ensures isOpen == old(isOpen) && raffle == old(raffle)
    {
      var outcome := SubmitOutcome(raffle.value.id, State());
      assert outcome == SubmitOutcome(old(raffle).value.id, old(State()));
      match outcome
      case None =>
        error := InvalidMessage;
      case Some(e) =>
        events := events + [Saved(e), Closed];
    }

    method Cancel()
      requires Visible()
      modifies this
      ensures State() == old(State()) && isOpen == old(isOpen) && raffle == old(raffle)
      ensures events == old(events) + [Closed]
    {
      events := events + [Closed];
    }
  }
}
