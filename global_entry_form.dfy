/**
 * GlobalEntryFormModal: the modal that adds a sale or a cost to any raffle that is still
 * open. The component's state hooks are the fields of `Form`; each user action and each
 * change of the `isOpen` prop is a method that also runs the effects it triggers, in the
 * order React runs them. The `onSave` and `onClose` callbacks are recorded in `events`.
 */
module GlobalEntryForm {
  import opened Wrappers
  import opened Types
  import opened Seqs
  import opened Numbers
  import opened EntryRules

  /** A raffle the form offers: not finalised. */
  predicate Active(r: Raffle) {
    !Flag(r.isFinalized)
  }

  /** `sortedRaffles`: the raffles that are not finalised, latest day first. */
  function Offered(raffles: seq<Raffle>): seq<Raffle> {
    Sort(Filter(raffles, Active), LaterDate)
  }

  /** `raffles.find(r => r.id === id)`. */
  function Selected(raffles: seq<Raffle>, id: string): Option<Raffle> {
    Find(raffles, (r: Raffle) => r.id == id)
  }

  /** The offered list is every active raffle, each as often as in the prop, latest day first. */
  lemma OffersActiveRafflesLatestFirst(raffles: seq<Raffle>)
    ensures Sorted(Offered(raffles), LaterDate)
    ensures forall r :: r in Offered(raffles) <==> r in raffles && Active(r)
    ensures forall r :: multiset(Offered(raffles))[r] == if Active(r) then multiset(raffles)[r] else 0
  {
    EarlierIsStrictTotalOrder();
    assert StrictWeakOrder(LaterDate);
    SortedSelection(raffles, Active, LaterDate);
  }

  /** The raffle selected on opening is active and no active raffle is on a later day. */
  lemma FirstOfferedIsLatest(raffles: seq<Raffle>)
    requires |Offered(raffles)| > 0
    ensures Offered(raffles)[0] in raffles && Active(Offered(raffles)[0])
    ensures forall r :: r in raffles && Active(r) ==> !Earlier(Offered(raffles)[0].date, r.date)
  {
    OffersActiveRafflesLatestFirst(raffles);
    var o := Offered(raffles);
    forall r | r in raffles && Active(r) ensures !Earlier(o[0].date, r.date) {
      var j :| 0 <= j < |o| && o[j] == r;
      if j > 0 {
        assert !LaterDate(o[j], o[0]);
      }
    }
  }

  /** The state hooks of the form, for stating what a handler leaves unchanged. */
  datatype FormState = FormState(
    isOpen: bool,
    selectedRaffleId: string,
    quantity: string,
    saleDescription: string,
    saleAmount: NumText,
    costDescription: string,
    costAmount: NumText,
    costDate: DateField,
    isDonation: bool,
    isReimbursement: bool,
    costNotes: string,
    error: string)

  /** Every hook at its initial value, as the reset effect leaves them while the modal is closed. */
  const Cleared := FormState(false, "", "", "", EmptyText, "", EmptyText, Blank, false, false, "", "")

  /** The sale amount after the auto-amount effect: only a sale form with a selected raffle recomputes it. */
  function AmountEffect(kind: EntryKind, selected: Option<Raffle>, quantity: string, current: NumText): (r: NumText)
    ensures kind == CostKind || selected.None? ==> r == current
  {
    if kind == SaleKind && selected.Some? then AutoAmount(quantity, selected.value.ticketPrice) else current
  }

  /** The callbacks the form calls: `onSave(raffleId, type, entry)` and `onClose()`. */
  datatype Event = Saved(raffleId: string, entry: Entry) | Closed

  datatype Outcome = Rejected(message: string) | Accepted(entry: Entry)

  /** What `handleSubmit` decides for the current fields: the error it shows or the entry it saves. */
  function SubmitOutcome(kind: EntryKind, f: FormState): (o: Outcome)
    ensures f.selectedRaffleId == "" ==> o == Rejected("Por favor, selecione uma rifa.")
    ensures f.selectedRaffleId != "" && kind == SaleKind ==>
      (o.Rejected? <==> SaleValues(f.quantity, f.saleAmount).None?)
    ensures f.selectedRaffleId != "" && kind == CostKind ==>
      (o.Rejected? <==> CostAmount(f.costDescription, f.costAmount, f.isDonation).None?)
    ensures o.Accepted? && kind == SaleKind ==>
      o.entry.SaleEntry? && o.entry.sale.quantity > 0 && o.entry.sale.amount >= 0.0
      && ParseInt(f.quantity) == Some(o.entry.sale.quantity)
      && FloatOf(f.saleAmount) == Some(o.entry.sale.amount)
      && o.entry.sale.description == f.saleDescription
    ensures o.Accepted? && kind == CostKind ==>
      o.entry.CostEntry? && o.entry.cost.amount >= 0.0
      && o.entry.cost == NewCost(f.costDescription, o.entry.cost.amount, f.costDate, f.isDonation, f.isReimbursement, f.costNotes)
      && (o.entry.cost.amount == 0.0 ==> o.entry.cost.isDonation)
  {
    if f.selectedRaffleId == "" then Rejected("Por favor, selecione uma rifa.")
    else if kind == SaleKind then
      match SaleValues(f.quantity, f.saleAmount)
      case None => Rejected("Por favor, preencha a quantidade e um valor válido.")
      case Some((q, a)) => Accepted(SaleEntry(NewSale(f.saleDescription, q, a)))
    else
      match CostAmount(f.costDescription, f.costAmount, f.isDonation)
      case None => Rejected("Por favor, preencha a descrição e um valor válido. Doações podem ter valor 0.")
      case Some(a) => Accepted(CostEntry(NewCost(f.costDescription, a, f.costDate, f.isDonation, f.isReimbursement, f.costNotes)))
  }

  /**
   * A sale whose amount the form computed for the selected raffle is accepted when the
   * quantity is positive and the ticket price is not negative.
   */
  lemma AutoFilledSaleAccepted(raffles: seq<Raffle>, f: FormState)
    requires f.selectedRaffleId != "" && Selected(raffles, f.selectedRaffleId).Some?
    requires ParseInt(f.quantity).Some? && ParseInt(f.quantity).value > 0
    requires Selected(raffles, f.selectedRaffleId).value.ticketPrice >= 0.0
    requires f.saleAmount == AmountEffect(SaleKind, Selected(raffles, f.selectedRaffleId), f.quantity, EmptyText)
    ensures SubmitOutcome(SaleKind, f).Accepted?
  {
    AutoAmountAccepted(f.quantity, Selected(raffles, f.selectedRaffleId).value.ticketPrice);
  }

  /** The fields after typing into one of the plain inputs. */
  function AfterTyping(f: FormState, input: TextInput): FormState {
    match input
    case SaleDescriptionInput(t) => f.(saleDescription := t)
    case SaleAmountInput(t) => f.(saleAmount := NumText.Typed(t))
    case CostDescriptionInput(t) => f.(costDescription := t)
    case CostAmountInput(t) => f.(costAmount := NumText.Typed(t))
    case CostDateInput(d) => f.(costDate := d)
    case CostNotesInput(t) => f.(costNotes := t)
  }

  class Form {
    const kind: EntryKind
    const raffles: seq<Raffle>
    var isOpen: bool
    var selectedRaffleId: string
    var quantity: string
    var saleDescription: string
    var saleAmount: NumText
    var costDescription: string
    var costAmount: NumText
    var costDate: DateField
    var isDonation: bool
    var isReimbursement: bool
    var costNotes: string
    var error: string
    var events: seq<Event>

    function State(): FormState
      reads this
    {
      FormState(isOpen, selectedRaffleId, quantity, saleDescription, saleAmount, costDescription,
             costAmount, costDate, isDonation, isReimbursement, costNotes, error)
    }

    /** The two flags never hold together, and a closed form holds no input. */
    ghost predicate Valid()
      reads this
    {
      !(isDonation && isReimbursement) && (!isOpen ==> State() == Cleared)
    }

    /** The form mounted closed. */
    constructor (kind: EntryKind, raffles: seq<Raffle>)
      ensures this.kind == kind && this.raffles == raffles
      ensures State() == Cleared && events == []
      ensures Valid()
    {
      this.kind := kind;
      this.raffles := raffles;
      isOpen := false;
      selectedRaffleId := "";
      quantity := "";
      saleDescription := "";
      saleAmount := EmptyText;
      costDescription := "";
      costAmount := EmptyText;
      costDate := Blank;
      isDonation := false;
      isReimbursement := false;
      costNotes := "";
      error := "";
      events := [];
    }

    /** The auto-amount effect, run when the quantity or the selected raffle changed. */
    method RecomputeSaleAmount()
      modifies this
      ensures State() == old(State()).(saleAmount := AmountEffect(kind, Selected(raffles, selectedRaffleId), quantity, old(saleAmount)))
      ensures events == old(events)
    {
      var selected := Selected(raffles, selectedRaffleId);
      if kind == SaleKind && selected.Some? {
        saleAmount := AutoAmount(quantity, selected.value.ticketPrice);
      }
    }

    /** The parent opens the modal: the first offered raffle is selected when there is one. */
    method Open()
      requires Valid() && !isOpen
      modifies this
      ensures State() == Cleared.(isOpen := true, selectedRaffleId := if |Offered(raffles)| > 0 then Offered(raffles)[0].id else "")
      ensures events == old(events)
      ensures Valid()
    {
      isOpen := true;
      var before := Selected(raffles, selectedRaffleId);
      if |Offered(raffles)| > 0 && selectedRaffleId == "" {
        selectedRaffleId := Offered(raffles)[0].id;
      }
      if Selected(raffles, selectedRaffleId) != before {
        assert ParseInt(quantity).None? by {
          assert SkipWhitespace("") == "" && DigitRun("") == 0;
        }
        RecomputeSaleAmount();
      }
    }

    /** Every field of the form at once. */
    method SetFields(f: FormState)
      modifies this
      ensures State() == f && events == old(events)
    {
      isOpen, selectedRaffleId, quantity, saleDescription := f.isOpen, f.selectedRaffleId, f.quantity, f.saleDescription;
      saleAmount, costDescription, costAmount, costDate := f.saleAmount, f.costDescription, f.costAmount, f.costDate;
      isDonation, isReimbursement, costNotes, error := f.isDonation, f.isReimbursement, f.costNotes, f.error;
    }

    /** The parent closes the modal: the reset effect clears every field. */
    method Close()
      requires Valid()
      modifies this
      ensures State() == Cleared && events == old(events)
      ensures Valid()
    {
      SetFields(Cleared);
      // The auto-amount effect sees no quantity, so it leaves the cleared amount as it is.
    }

    /**
     * Choosing a raffle in the select, whose options are the offered raffles. A sale form
     * recomputes its amount for the new raffle.
     */
    method SelectRaffle(id: string)
      requires Valid() && isOpen
      requires exists r :: r in Offered(raffles) && r.id == id
      modifies this
      ensures selectedRaffleId == (if id == "" && old(selectedRaffleId) != "" then Offered(raffles)[0].id else id)
      ensures Selected(raffles, selectedRaffleId) != old(Selected(raffles, selectedRaffleId)) ==>
        saleAmount == AmountEffect(kind, Selected(raffles, selectedRaffleId), quantity, old(saleAmount))
      ensures Selected(raffles, selectedRaffleId) == old(Selected(raffles, selectedRaffleId)) ==>
        saleAmount == old(saleAmount)
      ensures State() == old(State()).(selectedRaffleId := selectedRaffleId, saleAmount := saleAmount)
      ensures events == old(events)
      ensures Valid()
    {
      if id != selectedRaffleId {
        var before := Selected(raffles, selectedRaffleId);
        selectedRaffleId := id;
        if selectedRaffleId == "" {
          selectedRaffleId := Offered(raffles)[0].id;
        }
        if Selected(raffles, selectedRaffleId) != before {
          RecomputeSaleAmount();
        }
      }
    }

    /** Typing a quantity: a sale form recomputes its amount from it. */
    method SetQuantity(text: string)
      requires Valid() && isOpen
      modifies this
      ensures selectedRaffleId == "" ==> State() == old(State())
      ensures selectedRaffleId != "" ==>
        State() == old(State()).(quantity := text,
          saleAmount := if text != old(quantity) then AmountEffect(kind, Selected(raffles, selectedRaffleId), text, old(saleAmount)) else old(saleAmount))
      ensures events == old(events)
      ensures Valid()
    {
      if selectedRaffleId != "" && text != quantity {
        quantity := text;
        RecomputeSaleAmount();
      }
    }

    /** Typing into one of the other inputs. */
    method Type(input: TextInput)
      requires Valid() && isOpen
      requires !input.CostDateInput? || !input.date.Unset?
      modifies this
      ensures State() == if selectedRaffleId == "" then old(State()) else AfterTyping(old(State()), input)
      ensures events == old(events)
      ensures Valid()
    {
      if selectedRaffleId != "" {
        match input
        case SaleDescriptionInput(t) => saleDescription := t;
        case SaleAmountInput(t) => saleAmount := NumText.Typed(t);
        case CostDescriptionInput(t) => costDescription := t;
        case CostAmountInput(t) => costAmount := NumText.Typed(t);
        case CostDateInput(d) => costDate := d;
        case CostNotesInput(t) => costNotes := t;
      }
    }

    /** The donation checkbox, disabled while no raffle is selected or the reimbursement box is checked. */
    method ClickDonation(checked: bool)
      requires Valid() && isOpen
      modifies this
      ensures selectedRaffleId == "" || old(isReimbursement) ==> State() == old(State())
      ensures selectedRaffleId != "" && !old(isReimbursement) ==>
        State() == old(State()).(isDonation := checked)
      ensures events == old(events)
      ensures Valid()
    {
      if selectedRaffleId != "" && !isReimbursement {
        isDonation, isReimbursement := AfterDonationBox(checked, isReimbursement).0, AfterDonationBox(checked, isReimbursement).1;
      }
    }

    /** The reimbursement checkbox, disabled while no raffle is selected or the donation box is checked. */
    method ClickReimbursement(checked: bool)
      requires Valid() && isOpen
      modifies this
      ensures selectedRaffleId == "" || old(isDonation) ==> State() == old(State())
      ensures selectedRaffleId != "" && !old(isDonation) ==>
        State() == old(State()).(isReimbursement := checked)
      ensures events == old(events)
      ensures Valid()
    {
      if selectedRaffleId != "" && !isDonation {
        isDonation, isReimbursement := AfterReimbursementBox(checked, isDonation).0, AfterReimbursementBox(checked, isDonation).1;
      }
    }

    /**
     * The submit button, disabled while no raffle is selected: a rejected entry shows its
     * message; an accepted one is saved to the selected raffle and the form asks to close.
     */
    method Submit()
      requires Valid() && isOpen
      modifies this
      ensures old(selectedRaffleId) == "" ==> State() == old(State()) && events == old(events)
      ensures old(selectedRaffleId) != "" ==>
        match SubmitOutcome(kind, old(State()))
        case Rejected(m) => State() == old(State()).(error := m) && events == old(events)
        case Accepted(e) => State() == old(State()) && events == old(events) + [Saved(old(selectedRaffleId), e), Closed]
      ensures Valid()
    {
      if selectedRaffleId != "" {
        var outcome := SubmitOutcome(kind, State());
        match outcome
        case Rejected(m) =>
          error := m;
        case Accepted(e) =>
          events := events + [Saved(selectedRaffleId, e), Closed];
      }
    }

    /** The Cancel button, or a click on the backdrop: the form asks to close and saves nothing. */
    method Cancel()
      requires isOpen
      modifies this
      ensures State() == old(State())
      ensures events == old(events) + [Closed]
    {
      events := events + [Closed];
    }
  }

  /** A saved cost never is both a donation and a future reimbursement. */
  lemma SavedCostFlagsExclusive(kind: EntryKind, f: FormState)
    requires !(f.isDonation && f.isReimbursement)
    requires SubmitOutcome(kind, f).Accepted? && kind == CostKind
    ensures !(SubmitOutcome(kind, f).entry.cost.isDonation && SubmitOutcome(kind, f).entry.cost.isReimbursement)
  {
  }
}
