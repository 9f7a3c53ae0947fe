/**
 * The records of types.ts: raffles with their sales and costs, and the history log with
 * its twelve kinds of action. Optional properties are `Option`s (None is `undefined`).
 */
module Types {
  import opened Wrappers

  /**
   * A calendar day as the pages read it from `new Date(...)`: getFullYear(), getMonth() + 1
   * and getDate(). Parsing date strings and time zones are not modelled.
   */
  datatype Date = Date(year: int, month: int, day: int)

  /** `a` is an earlier day than `b`: `new Date(a).getTime() < new Date(b).getTime()`. */
  predicate Earlier(a: Date, b: Date) {
    || a.year < b.year
    || (a.year == b.year && a.month < b.month)
    || (a.year == b.year && a.month == b.month && a.day < b.day)
  }

  /** The raffle comparator `new Date(b.date) - new Date(a.date)` is negative: `a` is on a later day. */
  predicate LaterDate(a: Raffle, b: Raffle) {
    Earlier(b.date, a.date)
  }

  /**
   * An optional date-valued string property: absent (`undefined` or NULL), the empty string
   * that a cleared date input yields, or a day. Only a day is truthy.
   */
  datatype DateField = Unset | Blank | On(date: Date)

  /** A truthy optional boolean: `!!b`. */
  predicate Flag(b: Option<bool>) {
    b == Some(true)
  }

  /** A truthy optional string: present and not empty. */
  predicate Truthy(s: Option<string>) {
    s.Some? && s.value != ""
  }

  datatype Cost = Cost(
    id: string,
    description: string,
    amount: real,
    date: DateField,
    isDonation: Option<bool>,
    isReimbursement: Option<bool>,
    reimbursedDate: DateField,
    reimbursementNotes: Option<string>,
    notes: Option<string>)

  /** `amount` is the final amount and may differ from quantity * ticketPrice. */
  datatype Sale = Sale(id: string, description: string, quantity: int, amount: real)

  datatype Raffle = Raffle(
    id: string,
    title: string,
    category: string,
    date: Date,
    ticketPrice: real,
    sales: seq<Sale>,
    costs: seq<Cost>,
    isFinalized: Option<bool>)

  /** A raffle without its sales and costs (`Omit<Raffle, 'sales' | 'costs'>`). */
  datatype RaffleCore = RaffleCore(
    id: string,
    title: string,
    category: string,
    date: Date,
    ticketPrice: real,
    isFinalized: Option<bool>)

  function CoreOf(r: Raffle): RaffleCore {
    RaffleCore(r.id, r.title, r.category, r.date, r.ticketPrice, r.isFinalized)
  }

  datatype ActionType =
    | CreateRaffle | UpdateRaffle | DeleteRaffle | ToggleFinalizeRaffle
    | AddSale | UpdateSale | DeleteSale
    | AddCost | UpdateCost | DeleteCost
    | AddReimbursement | DeleteReimbursement

  /** The members of `HistoryLogActionType`, in declaration order. */
  const AllActionTypes: seq<ActionType> := [
    CreateRaffle, UpdateRaffle, DeleteRaffle, ToggleFinalizeRaffle,
    AddSale, UpdateSale, DeleteSale,
    AddCost, UpdateCost, DeleteCost,
    AddReimbursement, DeleteReimbursement]

  /** A snapshot kept in a log entry: a raffle, a sale or a cost. */
  datatype Snapshot = RaffleState(raffle: Raffle) | SaleState(sale: Sale) | CostState(cost: Cost)

  /** `timestamp` is the instant in milliseconds; its ISO rendering is not modelled. */
  datatype HistoryLog = HistoryLog(
    id: string,
    timestamp: int,
    actionType: ActionType,
    description: string,
    raffleId: string,
    raffleTitle: string,
    entityId: Option<string>,
    beforeState: Option<Snapshot>,
    afterState: Option<Snapshot>,
    undone: Option<bool>)

  // ---------------------------------------------------------------------------
  // Reimbursement states of a cost, as every page tests them
  // ---------------------------------------------------------------------------

  /** `cost.isReimbursement`. */
  predicate Reimbursable(c: Cost) {
    Flag(c.isReimbursement)
  }

  /** `cost.isReimbursement && !cost.reimbursedDate`. */
  predicate Pending(c: Cost) {
    Flag(c.isReimbursement) && !c.reimbursedDate.On?
  }

  /** `cost.isReimbursement && cost.reimbursedDate`. */
  predicate Reimbursed(c: Cost) {
    Flag(c.isReimbursement) && c.reimbursedDate.On?
  }

  lemma ActionTypesAreTwelve()
    ensures |AllActionTypes| == 12
    ensures forall a: ActionType :: a in AllActionTypes
    ensures forall i, j :: 0 <= i < j < |AllActionTypes| ==> AllActionTypes[i] != AllActionTypes[j]
  {
    forall a: ActionType ensures a in AllActionTypes {
      match a
      case CreateRaffle => assert AllActionTypes[0] == a;
      case UpdateRaffle => assert AllActionTypes[1] == a;
      case DeleteRaffle => assert AllActionTypes[2] == a;
      case ToggleFinalizeRaffle => assert AllActionTypes[3] == a;
      case AddSale => assert AllActionTypes[4] == a;
      case UpdateSale => assert AllActionTypes[5] == a;
      case DeleteSale => assert AllActionTypes[6] == a;
      case AddCost => assert AllActionTypes[7] == a;
      case UpdateCost => assert AllActionTypes[8] == a;
      case DeleteCost => assert AllActionTypes[9] == a;
      case AddReimbursement => assert AllActionTypes[10] == a;
      case DeleteReimbursement => assert AllActionTypes[11] == a;
    }
  }

  /** `Earlier` orders days strictly and totally. */
  lemma EarlierIsStrictTotalOrder()
    ensures forall a: Date :: !Earlier(a, a)
    ensures forall a: Date, b: Date, c: Date :: Earlier(a, b) && Earlier(b, c) ==> Earlier(a, c)
    ensures forall a: Date, b: Date :: a != b ==> Earlier(a, b) || Earlier(b, a)
  {
  }

  /** Every reimbursable cost is pending or reimbursed, never both. */
  lemma ReimbursementStates(c: Cost)
    ensures Reimbursable(c) <==> Pending(c) || Reimbursed(c)
    ensures !(Pending(c) && Reimbursed(c))
  {
  }
}
