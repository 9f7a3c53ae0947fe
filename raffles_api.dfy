/**
 * The raffles endpoint (api/raffles/index.ts): GET serves every raffle with its sales and
 * costs nested under it; POST creates a raffle and records it in the history inside one
 * transaction; any other method is refused.
 */
module RafflesApi {
  import opened Wrappers
  import opened Types
  import opened Seqs
  import opened Text
  import opened Store
  import opened Ledger
  import HistoryApi

  datatype Response =
    | Listed(raffles: seq<Raffle>)
    | Created(raffle: Raffle)
    | BadRequest(message: string)
    | ServerError(message: string)
    | NotAllowed(allow: seq<string>)

  function Status(r: Response): int {
    match r
    case Listed(_) => 200
    case Created(_) => 201
    case BadRequest(_) => 400
    case ServerError(_) => 500
    case NotAllowed(_) => 405
  }

  // ---------------------------------------------------------------------------
  // GET
  // ---------------------------------------------------------------------------

  /**
   * A sale row as served, without its `raffleId` column: `Sale` does not declare it and
   * nothing in the core reads it once the row is nested under its raffle.
   */
  function SaleOf(row: SaleRow): Sale {
    Sale(row.id, row.description, row.quantity, row.amount)
  }

  /**
   * A cost row as served: both flags read with `!!`, the other columns as stored except
   * `raffleId`, which `Cost` does not declare and the model drops as `SaleOf` does.
   */
  function CostOf(row: CostRow): Cost {
    Cost(row.id, row.description, row.amount, row.date, Some(IsSet(row.isDonation)),
      Some(IsSet(row.isReimbursement)), row.reimbursedDate, row.reimbursementNotes, row.notes)
  }

  /** One raffle row with the sales and costs whose `raffleId` is its id, in table order. */
  function Nest(row: RaffleRow, sales: seq<SaleRow>, costs: seq<CostRow>): Raffle {
    Raffle(row.id, row.title, row.category, row.date, row.ticketPrice,
      Map(Filter(sales, (s: SaleRow) => s.raffleId == row.id), SaleOf),
      Map(Filter(costs, (c: CostRow) => c.raffleId == row.id), CostOf),
      Some(IsSet(row.isFinalized)))
  }

  /** `ORDER BY date DESC, title ASC`, titles compared by code points (the database's collation is not modelled). */
  predicate ListedBefore(a: RaffleRow, b: RaffleRow) {
    Earlier(b.date, a.date) || (a.date == b.date && StringLess(a.title, b.title))
  }

  /** The body of a 200 answer to GET. */
  function Listing(t: Tables): seq<Raffle> {
    Map(Sort(t.raffles, ListedBefore), (r: RaffleRow) => Nest(r, t.sales, t.costs))
  }

  // ---------------------------------------------------------------------------
  // POST
  // ---------------------------------------------------------------------------

  /** The JSON body: absent properties are None; a date string is read as its day. */
  datatype PostBody = PostBody(title: Option<string>, category: Option<string>, date: DateField, ticketPrice: Option<real>)

  /** `title`, `category` and `date` truthy and `ticketPrice` not undefined. */
  predicate HasRequiredFields(b: PostBody) {
    Truthy(b.title) && Truthy(b.category) && b.date.On? && b.ticketPrice.Some?
  }

  const MissingFieldsMessage: string := "Missing required fields"

  function NewRaffle(b: PostBody, id: string): Raffle
    requires HasRequiredFields(b)
  {
    Raffle(id, b.title.value, b.category.value, b.date.date, b.ticketPrice.value, [], [], Some(false))
  }

  /** The INSERT INTO raffles of a new raffle; `false` is stored as 0. */
  function RowOf(r: Raffle): RaffleRow {
    RaffleRow(r.id, r.title, r.category, r.date, r.ticketPrice, if Flag(r.isFinalized) then Some(1) else Some(0))
  }

  /** The history entry that records the creation of `r`. */
  function CreationLog(r: Raffle): LogData {
    LogData(CreateRaffle, r.id, r.title, "Rifa \"" + r.title + "\" foi criada.", None, None, Some(RaffleState(r)))
  }

  /** The awaited steps of the create path that can throw. */
  datatype Step = AtBegin | AtInsertRaffle | AtInsertLog | AtCommit

  /** Whether, and where, the database throws during a create, with the error's message. */
  datatype Fault = NoFault | Throws(step: Step, message: string)

  /** What a POST answers and what the tables hold afterwards. */
  function PostOutcome(t: Tables, b: PostBody, newRaffleId: string, newLogId: string, now: int, fault: Fault): (Response, Tables) {
    if !HasRequiredFields(b) then (BadRequest(MissingFieldsMessage), t)
    else if fault.Throws? then (ServerError(fault.message), t)
    else
      var r := NewRaffle(b, newRaffleId);
      (Created(r), t.(raffles := t.raffles + [RowOf(r)],
                      logs := t.logs + [LogRow(LogInsertOf(CreationLog(r), newLogId), now, None)]))
  }

  /** The `catch` of the create path: roll back and answer 500 with the error's message. */
  method RollbackWith(db: Database, message: string) returns (resp: Response)
    requires db.Valid()
    modifies db
    ensures old(db.saved).Some? ==> db.Contents() == old(db.saved).value
    ensures old(db.saved).None? ==> db.Contents() == old(db.Contents())
    ensures db.saved == None && db.Valid()
    ensures resp == ServerError(message)
  {
    db.Rollback();
    resp := ServerError(message);
  }

  /** `handlePost` with `newRaffleId` and `newLogId` as the generated ids and `now` as the database clock. */
  method HandlePost(db: Database, b: PostBody, newRaffleId: string, newLogId: string, now: int, fault: Fault)
    returns (resp: Response)
    requires db.Valid() && db.saved == None
    requires newRaffleId !in RaffleIds(db.raffles) && newLogId !in LogIds(db.logs)
    modifies db
    ensures (resp, db.Contents()) == PostOutcome(old(db.Contents()), b, newRaffleId, newLogId, now, fault)
    ensures db.saved == None && db.Valid()
  {
    if !HasRequiredFields(b) {
      return BadRequest(MissingFieldsMessage);
    }
    if fault.Throws? && fault.step == AtBegin {
      resp := RollbackWith(db, fault.message);
      return;
    }
    db.BeginTransaction();
    var raffle := NewRaffle(b, newRaffleId);
    if fault.Throws? && fault.step == AtInsertRaffle {
      resp := RollbackWith(db, fault.message);
      return;
    }
    db.InsertRaffle(RowOf(raffle));
    if fault.Throws? && fault.step == AtInsertLog {
      resp := RollbackWith(db, fault.message);
      return;
    }
    CreateHistoryLog(db, CreationLog(raffle), newLogId, now);
    if fault.Throws? && fault.step == AtCommit {
      resp := RollbackWith(db, fault.message);
      return;
    }
    db.Commit();
    resp := Created(raffle);
  }

  // ---------------------------------------------------------------------------
  // Dispatch
  // ---------------------------------------------------------------------------

  /** `handler`: GET reads (failing with `readError` if the queries throw), POST creates, the rest get 405. */
  method Handle(db: Database, verb: string, b: PostBody, readError: Option<string>,
                newRaffleId: string, newLogId: string, now: int, fault: Fault)
    returns (resp: Response)
    requires db.Valid() && db.saved == None
    requires newRaffleId !in RaffleIds(db.raffles) && newLogId !in LogIds(db.logs)
    modifies db
    ensures verb == "GET" ==> (db.Contents() == old(db.Contents())
      && resp == (if readError.Some? then ServerError(readError.value) else Listed(Listing(db.Contents()))))
    ensures verb == "POST" ==> (resp, db.Contents()) == PostOutcome(old(db.Contents()), b, newRaffleId, newLogId, now, fault)
    ensures verb != "GET" && verb != "POST" ==> resp == NotAllowed(["GET", "POST"]) && db.Contents() == old(db.Contents())
    ensures db.saved == None && db.Valid()
  {
    if verb == "GET" {
      if readError.Some? {
        resp := ServerError(readError.value);
      } else {
        resp := Listed(Listing(db.Contents()));
      }
    } else if verb == "POST" {
      resp := HandlePost(db, b, newRaffleId, newLogId, now, fault);
    } else {
      resp := NotAllowed(["GET", "POST"]);
    }
  }

  // ---------------------------------------------------------------------------
  // Properties
  // ---------------------------------------------------------------------------

  /** A body missing a required field is answered 400 and changes nothing; a price of 0 is accepted. */
  lemma PostRejectsMissingFields(t: Tables, b: PostBody, newRaffleId: string, newLogId: string, now: int, fault: Fault)
    ensures var (resp, after) := PostOutcome(t, b, newRaffleId, newLogId, now, fault);
      (Status(resp) == 400 <==> !HasRequiredFields(b)) && (Status(resp) == 400 ==> after == t)
    ensures b.ticketPrice == Some(0.0) && Truthy(b.title) && Truthy(b.category) && b.date.On? ==> HasRequiredFields(b)
  {
  }

  /**
   * All or nothing: a create either commits both the raffle row and its history row (201)
   * or leaves every table as it was.
   */
  lemma PostIsAllOrNothing(t: Tables, b: PostBody, newRaffleId: string, newLogId: string, now: int, fault: Fault)
    ensures var (resp, after) := PostOutcome(t, b, newRaffleId, newLogId, now, fault);
      && (resp.Created? <==> HasRequiredFields(b) && fault == NoFault)
      && (!resp.Created? ==> after == t)
      && (resp.Created? ==>
            && |after.raffles| == |t.raffles| + 1 && after.raffles[..|t.raffles|] == t.raffles
            && |after.logs| == |t.logs| + 1 && after.logs[..|t.logs|] == t.logs
            && after.sales == t.sales && after.costs == t.costs)
  {
    var (resp, after) := PostOutcome(t, b, newRaffleId, newLogId, now, fault);
    if resp.Created? {
      assert after.raffles[..|t.raffles|] == t.raffles;
      assert after.logs[..|t.logs|] == t.logs;
    }
  }

  /**
   * The created raffle has the fresh id, the submitted fields, is not finalised and has no
   * sales or costs; its one history row is a CREATE_RAFFLE entry for it with the raffle as
   * the after-state and no before-state or entity id.
   */
  lemma CreatedRaffleAndItsLog(t: Tables, b: PostBody, newRaffleId: string, newLogId: string, now: int)
    requires HasRequiredFields(b)
    ensures var (resp, after) := PostOutcome(t, b, newRaffleId, newLogId, now, NoFault);
      && resp.Created?
      && var r := resp.raffle;
      && r.id == newRaffleId && Some(r.title) == b.title && Some(r.category) == b.category
      && On(r.date) == b.date && Some(r.ticketPrice) == b.ticketPrice
      && r.isFinalized == Some(false) && r.sales == [] && r.costs == []
      && var log := after.logs[|after.logs| - 1];
      && log.insert.id == newLogId && log.insert.actionType == CreateRaffle
      && log.insert.raffleId == r.id && log.insert.raffleTitle == r.title
      && log.insert.afterState == Some(RaffleState(r))
      && log.insert.beforeState.None? && log.insert.entityId.None?
      && log.timestamp == now && log.undone.None?
  {
  }

  /**
   * A served raffle's flags are booleans read with `!!` from the stored columns: every
   * served cost is the cost of a row pointing at the raffle, each flag true exactly when
   * that row's column is set.
   */
  lemma ServedFlagsAreBooleans(row: RaffleRow, sales: seq<SaleRow>, costs: seq<CostRow>)
    ensures var r := Nest(row, sales, costs);
      && r.isFinalized.Some? && (Flag(r.isFinalized) <==> IsSet(row.isFinalized))
      && (forall x :: x in r.costs ==> x.isDonation.Some? && x.isReimbursement.Some?)
      && (forall x :: x in r.costs ==>
            exists c :: (c in costs && c.raffleId == row.id && CostOf(c) == x
                         && (Flag(x.isDonation) <==> IsSet(c.isDonation))
                         && (Flag(x.isReimbursement) <==> IsSet(c.isReimbursement))))
    ensures forall c :: c in costs && c.raffleId == row.id ==>
      && CostOf(c) in Nest(row, sales, costs).costs
      && (Flag(CostOf(c).isDonation) <==> IsSet(c.isDonation))
      && (Flag(CostOf(c).isReimbursement) <==> IsSet(c.isReimbursement))
  {
    var r := Nest(row, sales, costs);
    NestHoldsOwnEntries(row, sales, costs);
    forall x | x in r.costs ensures x.isDonation.Some? && x.isReimbursement.Some? {
      var c :| c in costs && c.raffleId == row.id && CostOf(c) == x;
    }
  }

  /**
   * A served raffle holds exactly the sales and costs that point at it: every row with its
   * id is there, and everything there comes from such a row.
   */
  lemma NestHoldsOwnEntries(row: RaffleRow, sales: seq<SaleRow>, costs: seq<CostRow>)
    ensures forall s :: s in sales && s.raffleId == row.id ==> SaleOf(s) in Nest(row, sales, costs).sales
    ensures forall x :: x in Nest(row, sales, costs).sales ==> exists s :: s in sales && s.raffleId == row.id && SaleOf(s) == x
    ensures forall c :: c in costs && c.raffleId == row.id ==> CostOf(c) in Nest(row, sales, costs).costs
    ensures forall x :: x in Nest(row, sales, costs).costs ==> exists c :: c in costs && c.raffleId == row.id && CostOf(c) == x
  {
    MapFilterMembers(sales, (s: SaleRow) => s.raffleId == row.id, SaleOf);
    MapFilterMembers(costs, (c: CostRow) => c.raffleId == row.id, CostOf);
  }

  lemma ListedBeforeIsStrictWeakOrder()
    ensures StrictWeakOrder(ListedBefore)
  {
    EarlierIsStrictTotalOrder();
    forall a: RaffleRow, b: RaffleRow | ListedBefore(a, b) ensures !ListedBefore(b, a) {
      if a.date == b.date && StringLess(a.title, b.title) && StringLess(b.title, a.title) {
        StringLessTransitive(a.title, b.title, a.title);
        StringLessIrreflexive(a.title);
      }
    }
    forall a: RaffleRow, b: RaffleRow, c: RaffleRow | !ListedBefore(a, b) && !ListedBefore(b, c)
      ensures !ListedBefore(a, c)
    {
      if ListedBefore(a, c) && a.date == b.date && b.date == c.date {
        if a.title != b.title {
          StringLessTotal(a.title, b.title);
        }
        if b.title != c.title {
          StringLessTotal(b.title, c.title);
        }
        if a.title != b.title && b.title != c.title {
          StringLessTransitive(c.title, b.title, a.title);
        }
        StringLessTransitive(a.title, c.title, a.title);
        StringLessIrreflexive(a.title);
      }
    }
  }

  /**
   * GET lists one raffle per row, ordered by date descending and then title ascending, each
   * raffle row appearing exactly as often as in the table.
   */
  lemma {:induction false} ListingOrder(t: Tables)
    ensures |Listing(t)| == |t.raffles|
    ensures forall i, j :: 0 <= i < j < |Listing(t)| ==>
      Earlier(Listing(t)[j].date, Listing(t)[i].date) || Listing(t)[j].date == Listing(t)[i].date
    ensures forall i, j :: 0 <= i < j < |Listing(t)| && Listing(t)[i].date == Listing(t)[j].date ==>
      !StringLess(Listing(t)[j].title, Listing(t)[i].title)
    ensures multiset(Sort(t.raffles, ListedBefore)) == multiset(t.raffles)
  {
    ListedBeforeIsStrictWeakOrder();
    SortSorted(t.raffles, ListedBefore);
    EarlierIsStrictTotalOrder();
    var sorted := Sort(t.raffles, ListedBefore);
    forall i, j | 0 <= i < j < |Listing(t)|
      ensures Earlier(Listing(t)[j].date, Listing(t)[i].date) || Listing(t)[j].date == Listing(t)[i].date
      ensures Listing(t)[i].date == Listing(t)[j].date ==> !StringLess(Listing(t)[j].title, Listing(t)[i].title)
    {
      assert !ListedBefore(sorted[j], sorted[i]);
    }
  }

  /** A raffle no sale or cost row points at is served exactly as it was created. */
  lemma NestOfNewRaffle(r: Raffle, sales: seq<SaleRow>, costs: seq<CostRow>)
    requires r.sales == [] && r.costs == [] && r.isFinalized == Some(false)
    requires forall s :: s in sales ==> s.raffleId != r.id
    requires forall c :: c in costs ==> c.raffleId != r.id
    ensures Nest(RowOf(r), sales, costs) == r
  {
    assert Filter(sales, (s: SaleRow) => s.raffleId == r.id) == [];
    assert Filter(costs, (c: CostRow) => c.raffleId == r.id) == [];
  }

  /**
   * What POST creates, GET then serves: after a successful create, the listing holds the
   * created raffle exactly as the 201 answer returned it (no sale or cost row can point at
   * a fresh id), and the history listing holds its CREATE_RAFFLE entry, not undone.
   */
  lemma {:induction false} CreateReadsBack(t: Tables, b: PostBody, newRaffleId: string, newLogId: string, now: int)
    requires HasRequiredFields(b)
    requires forall s :: s in t.sales ==> s.raffleId != newRaffleId
    requires forall c :: c in t.costs ==> c.raffleId != newRaffleId
    ensures var (resp, after) := PostOutcome(t, b, newRaffleId, newLogId, now, NoFault);
      && resp.Created?
      && resp.raffle in Listing(after)
      && HistoryLog(newLogId, now, CreateRaffle, "Rifa \"" + resp.raffle.title + "\" foi criada.",
           newRaffleId, resp.raffle.title, None, None, Some(RaffleState(resp.raffle)), Some(false))
         in HistoryApi.Listing(after.logs)
  {
    var (resp, after) := PostOutcome(t, b, newRaffleId, newLogId, now, NoFault);
    var r := resp.raffle;
    var row := RowOf(r);
    ListingOrder(after);
    var sorted := Sort(after.raffles, ListedBefore);
    assert row in multiset(sorted) by {
      assert after.raffles[|after.raffles| - 1] == row;
    }
    var k :| 0 <= k < |sorted| && sorted[k] == row;
    NestOfNewRaffle(r, after.sales, after.costs);
    assert Listing(after)[k] == r;
    var logRow := after.logs[|after.logs| - 1];
    HistoryApi.ListingServesEveryRow(after.logs);
    assert logRow in after.logs;
    assert HistoryApi.LogOf(logRow).undone == Some(false);
  }
}
