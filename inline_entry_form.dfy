/**
 * InlineEntryForm: the form on a raffle's page that adds a sale or a cost to that raffle.
 * It computes the sale amount from the optional `ticketPrice` prop when that is truthy.
 */
module InlineEntryForm {
  import opened Wrappers
  import opened Numbers
  import opened Types
  import opened EntryRules

  datatype FormState = FormState(
    quantity: string,
    saleAmount: NumText,
    saleDescription: string,
    costDescription: string,
    costAmount: NumText,
    costDate: DateField,
    isDonation: bool,
    isReimbursement: bool,
    costNotes: string,
    error: string)

  const Initial := FormState("", EmptyText, "", "", EmptyText, Blank, false, false, "", "")

  /** `ticketPrice` is truthy: given and not 0. */
  predicate PriceGiven(ticketPrice: Option<real>) {
    ticketPrice.Some? && ticketPrice.value != 0.0
  }

  /** The sale amount after the auto-amount effect. */
  function AmountEffect(kind: EntryKind, ticketPrice: Option<real>, quantity: string, current: NumText): (r: NumText)
    ensures kind == CostKind || !PriceGiven(ticketPrice) ==> r == current
  {
    if kind == SaleKind && PriceGiven(ticketPrice) then AutoAmount(quantity, ticketPrice.value) else current
  }

  /** The callbacks: `onSave(entry)` and `onCancel()`. */
  datatype Event = Saved(entry: Entry) | Cancelled

  datatype Outcome = Rejected(message: string) | Accepted(entry: Entry)

  /** What `handleSubmit` decides for the current fields. */
  function SubmitOutcome(kind: EntryKind, f: FormState): (o: Outcome)
    ensures kind == SaleKind ==> (o.Rejected? <==> SaleValues(f.quantity, f.saleAmount).None?)
    ensures kind == CostKind ==> (o.Rejected? <==> CostAmount(f.costDescription, f.costAmount, f.isDonation).None?)
    ensures o.Rejected? ==> o.message == if kind == SaleKind then "Quantidade e valor são obrigatórios."
                                         else "Descrição e valor são obrigatórios. Doações podem ter valor 0."
    ensures o.Accepted? && kind == SaleKind ==>
      o.entry.SaleEntry? && o.entry.sale.quantity > 0 && o.entry.sale.amount >= 0.0
      && ParseInt(f.quantity) == Some(o.entry.sale.quantity)
      && FloatOf(f.saleAmount) == Some(o.entry.sale.amount)
      && o.entry.sale.description == f.saleDescription
    ensures o.Accepted? && kind == CostKind ==>
      o.entry.CostEntry? && o.entry.cost.amount >= 0.0
      && o.entry.cost == NewCost(f.costDescription, o.entry.cost.amount, f.costDate, f.isDonation, f.isReimbursement, f.costNotes)
      && (o.entry.cost.amount == 0.0 ==> o.entry.cost.isDonation)
  {
    if kind == SaleKind then
      match SaleValues(f.quantity, f.saleAmount)
      case None => Rejected("Quantidade e valor são obrigatórios.")
      case Some((q, a)) => Accepted(SaleEntry(NewSale(f.saleDescription, q, a)))
    else
      match CostAmount(f.costDescription, f.costAmount, f.isDonation)
      case None => Rejected("Descrição e valor são obrigatórios. Doações podem ter valor 0.")
      case Some(a) => Accepted(CostEntry(NewCost(f.costDescription, a, f.costDate, f.isDonation, f.isReimbursement, f.costNotes)))
  }

  /**
   * With a positive ticket price, a sale whose amount the form computed is accepted for
   * every positive quantity; without a price the amount is whatever was typed.
   */
  lemma AutoFilledSaleAccepted(ticketPrice: Option<real>, f: FormState)
    requires PriceGiven(ticketPrice) && ticketPrice.value > 0.0
    requires ParseInt(f.quantity).Some? && ParseInt(f.quantity).value > 0
    requires f.saleAmount == AmountEffect(SaleKind, ticketPrice, f.quantity, EmptyText)
    ensures SubmitOutcome(SaleKind, f).Accepted?
  {
    AutoAmountAccepted(f.quantity, ticketPrice.value);
  }

  /** The fields after typing into one of the plain inputs. */
  function AfterTyping(f: FormState, input: TextInput): FormState {
    match input
    case SaleDescriptionInput(t) => f.(saleDescription := t)
    case SaleAmountInput(t) => f.(saleAmount := NumText.Typed(t))
    case CostDescriptionInput(t) => f.(costDescription := t)
    case CostAmountInput(t) => f.(costAmount := NumText.Typed(t))
    case CostDateInput(d) => f.(costDate := d)
    case CostNotesInput(t) => f.(costNotes := t)
  }

  class Form {
    const kind: EntryKind
    const ticketPrice: Option<real>
    var quantity: string
    var saleAmount: NumText
    var saleDescription: string
    var costDescription: string
    var costAmount: NumText
    var costDate: DateField
    var isDonation: bool
    var isReimbursement: bool
    var costNotes: string
    var error: string
    var events: seq<Event>

    function State(): FormState
      reads this
    {
      FormState(quantity, saleAmount, saleDescription, costDescription, costAmount, costDate,
                isDonation, isReimbursement, costNotes, error)
    }

    /** The donation and reimbursement flags never hold together. */
    ghost predicate Valid()
      reads this
    {
      !(isDonation && isReimbursement)
    }

    /** The form mounted empty; the auto-amount effect has nothing to compute yet. */
    constructor (kind: EntryKind, ticketPrice: Option<real>)
      ensures this.kind == kind && this.ticketPrice == ticketPrice
      ensures State() == Initial && events == []
      ensures Valid()
    {
      this.kind := kind;
      this.ticketPrice := ticketPrice;
      quantity := "";
      saleAmount := EmptyText;
      saleDescription := "";
      costDescription := "";
      costAmount := EmptyText;
      costDate := Blank;
      isDonation := false;
      isReimbursement := false;
      costNotes := "";
      error := "";
      events := [];
    }

    /** Typing a quantity: with a truthy price a sale form recomputes its amount. */
    method SetQuantity(text: string)
      requires Valid()
      modifies this
      ensures State() == old(State()).(quantity := text,
        saleAmount := if text != old(quantity) then AmountEffect(kind, ticketPrice, text, old(saleAmount)) else old(saleAmount))
      ensures events == old(events)
      ensures Valid()
    {
      if text != quantity {
        quantity := text;
        if kind == SaleKind && PriceGiven(ticketPrice) {
          saleAmount := AutoAmount(quantity, ticketPrice.value);
        }
      }
    }

    /** Typing into one of the other inputs. */
    method Type(input: TextInput)
      requires Valid()
      requires !input.CostDateInput? || !input.date.Unset?
      modifies this
      ensures State() == AfterTyping(old(State()), input)
      ensures events == old(events)
      ensures Valid()
    {
      match input
      case SaleDescriptionInput(t) => saleDescription := t;
      case SaleAmountInput(t) => saleAmount := NumText.Typed(t);
      case CostDescriptionInput(t) => costDescription := t;
      case CostAmountInput(t) => costAmount := NumText.Typed(t);
      case CostDateInput(d) => costDate := d;
      case CostNotesInput(t) => costNotes := t;
    }

    /** The donation checkbox, disabled while the reimbursement box is checked. */
    method ClickDonation(checked: bool)
      requires Valid()
      modifies this
      ensures old(isReimbursement) ==> State() == old(State())
      ensures !old(isReimbursement) ==> State() == old(State()).(isDonation := checked)
      ensures events == old(events)
      ensures Valid()
    {
      if !isReimbursement {
        isDonation, isReimbursement := AfterDonationBox(checked, isReimbursement).0, AfterDonationBox(checked, isReimbursement).1;
      }
    }

    /** The reimbursement checkbox, disabled while the donation box is checked. */
    method ClickReimbursement(checked: bool)
      requires Valid()
      modifies this
      ensures old(isDonation) ==> State() == old(State())
      ensures !old(isDonation) ==> State() == old(State()).(isReimbursement := checked)
      ensures events == old(events)
      ensures Valid()
    {
      if !isDonation {
        isDonation, isReimbursement := AfterReimbursementBox(checked, isDonation).0, AfterReimbursementBox(checked, isDonation).1;
      }
    }

    /** Submitting clears the previous error, then shows the new one or saves the entry. */
    method Submit()
      requires Valid()
      modifies this
      ensures match SubmitOutcome(kind, old(State()))
        case Rejected(m) => State() == old(State()).(error := m) && events == old(events)
        case Accepted(e) => State() == old(State()).(error := "") && events == old(events) + [Saved(e)]
      ensures Valid()
    {
      error := "";
      var outcome := SubmitOutcome(kind, State());
      assert State() == old(State()).(error := "");
      assert outcome == SubmitOutcome(kind, old(State()));
      match outcome
      case Rejected(m) =>
        error := m;
      case Accepted(e) =>
        events := events + [Saved(e)];
    }

    /** The cancel button. */
    method Cancel()
      modifies this
      ensures State() == old(State()) && events == old(events) + [Cancelled]
    {
      events := events + [Cancelled];
    }
  }
}
