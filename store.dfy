/**
 * The MySQL tables behind the API, as sequences of rows in table order, and the one
 * connection that writes them inside a transaction. Only what the create path and the two
 * reads use is modelled; connection set-up and the SQL text are not.
 */
module Store {
  import opened Wrappers
  import opened Types

  /** A row of `raffles`; `isFinalized` is a TINYINT column, NULL being `None`. */
  datatype RaffleRow = RaffleRow(
    id: string,
    title: string,
    category: string,
    date: Date,
    ticketPrice: real,
    isFinalized: Option<int>)

  /** A row of `sales`, which points at its raffle through `raffleId`. */
  datatype SaleRow = SaleRow(id: string, raffleId: string, description: string, quantity: int, amount: real)

  /** A row of `costs`; the two flags are TINYINT columns. */
  datatype CostRow = CostRow(
    id: string,
    raffleId: string,
    description: string,
    amount: real,
    date: DateField,
    isDonation: Option<int>,
    isReimbursement: Option<int>,
    reimbursedDate: DateField,
    reimbursementNotes: Option<string>,
    notes: Option<string>)

  /**
   * The eight columns an insert into `history_logs` sets. NULL is `None`; the JSON columns
   * hold a snapshot, which the driver parses back to the same record on reading.
   */
  datatype LogInsert = LogInsert(
    id: string,
    actionType: ActionType,
    raffleId: string,
    raffleTitle: string,
    description: string,
    entityId: Option<string>,
    beforeState: Option<Snapshot>,
    afterState: Option<Snapshot>)

  /**
   * A row of `history_logs`: the inserted columns plus the two the table fills by default,
   * the time of insertion (milliseconds) and `undone`.
   */
  datatype LogRow = LogRow(insert: LogInsert, timestamp: int, undone: Option<int>)

  /** A TINYINT column read with `!!`: true iff present and non-zero. */
  predicate IsSet(column: Option<int>) {
    column.Some? && column.value != 0
  }

  datatype Tables = Tables(raffles: seq<RaffleRow>, sales: seq<SaleRow>, costs: seq<CostRow>, logs: seq<LogRow>)

  function RaffleIds(rows: seq<RaffleRow>): set<string> {
    set i | 0 <= i < |rows| :: rows[i].id
  }

  function LogIds(rows: seq<LogRow>): set<string> {
    set i | 0 <= i < |rows| :: rows[i].insert.id
  }

  /** The primary keys of the tables the create path writes are unique. */
  ghost predicate UniqueKeys(t: Tables) {
    && (forall i, j :: 0 <= i < j < |t.raffles| ==> t.raffles[i].id != t.raffles[j].id)
    && (forall i, j :: 0 <= i < j < |t.logs| ==> t.logs[i].insert.id != t.logs[j].insert.id)
  }

  /**
   * The connection and the data it sees. `saved` is the state at `beginTransaction`, kept
   * until `commit` or `rollback`; outside a transaction it is None.
   */
  class Database {
    var raffles: seq<RaffleRow>
    var sales: seq<SaleRow>
    var costs: seq<CostRow>
    var logs: seq<LogRow>
    var saved: Option<Tables>

    function Contents(): Tables
      reads this
    {
      Tables(raffles, sales, costs, logs)
    }

    ghost predicate Valid()
      reads this
    {
      UniqueKeys(Contents()) && (saved.Some? ==> UniqueKeys(saved.value))
    }

    constructor (t: Tables)
      requires UniqueKeys(t)
      ensures Contents() == t && saved == None && Valid()
    {
      raffles, sales, costs, logs := t.raffles, t.sales, t.costs, t.logs;
      saved := None;
    }

    method BeginTransaction()
      requires Valid()
      modifies this
      ensures Contents() == old(Contents()) && saved == Some(old(Contents())) && Valid()
    {
      saved := Some(Contents());
    }

    /** INSERT INTO raffles, with an id not in the table. */
    method InsertRaffle(row: RaffleRow)
      requires Valid() && row.id !in RaffleIds(raffles)
      modifies this
      ensures raffles == old(raffles) + [row]
      ensures sales == old(sales) && costs == old(costs) && logs == old(logs) && saved == old(saved)
      ensures Valid()
    {
      raffles := raffles + [row];
    }

    /** INSERT INTO history_logs: the table sets `timestamp` to the time `now` and leaves `undone` NULL. */
    method InsertLog(ins: LogInsert, now: int)
      requires Valid() && ins.id !in LogIds(logs)
      modifies this
      ensures logs == old(logs) + [LogRow(ins, now, None)]
      ensures raffles == old(raffles) && sales == old(sales) && costs == old(costs) && saved == old(saved)
      ensures Valid()
    {
      logs := logs + [LogRow(ins, now, None)];
    }

    method Commit()
      requires Valid()
      modifies this
      ensures Contents() == old(Contents()) && saved == None && Valid()
    {
      saved := None;
    }

    /** Puts back what `beginTransaction` saw; outside a transaction there is nothing to undo. */
    method Rollback()
      requires Valid()
      modifies this
      ensures old(saved).Some? ==> Contents() == old(saved).value
      ensures old(saved).None? ==> Contents() == old(Contents())
      ensures saved == None && Valid()
    {
      if saved.Some? {
        var t := saved.value;
        raffles, sales, costs, logs := t.raffles, t.sales, t.costs, t.logs;
      }
      saved := None;
    }
  }
}
