/** The history endpoint (api/history/index.ts): one read of `history_logs`, newest first. */
module HistoryApi {
  import opened Wrappers
  import opened Types
  import opened Seqs
  import opened Store

  datatype Response = Logs(logs: seq<HistoryLog>) | NotAllowed(allow: seq<string>) | Failed(message: string)

  /** A stored row as served: `undone` read with `!!`, every other column as stored. */
  function LogOf(row: LogRow): (h: HistoryLog)
    ensures h.id == row.insert.id && h.timestamp == row.timestamp
    ensures h.actionType == row.insert.actionType && h.description == row.insert.description
    ensures h.raffleId == row.insert.raffleId && h.raffleTitle == row.insert.raffleTitle
    ensures h.entityId == row.insert.entityId
    ensures h.beforeState == row.insert.beforeState && h.afterState == row.insert.afterState
    ensures h.undone.Some? && (Flag(h.undone) <==> IsSet(row.undone))
  {
    var r := row.insert;
    HistoryLog(r.id, row.timestamp, r.actionType, r.description, r.raffleId, r.raffleTitle,
      r.entityId, r.beforeState, r.afterState, Some(IsSet(row.undone)))
  }

  /** `ORDER BY timestamp DESC`; rows with the same timestamp keep their table order. */
  predicate NewerFirst(a: LogRow, b: LogRow) {
    a.timestamp > b.timestamp
  }

  function Listing(rows: seq<LogRow>): seq<HistoryLog> {
    Map(Sort(rows, NewerFirst), LogOf)
  }

  /**
   * The handler, given the request method `verb`, the table and the error the query throws, if it does.
   * A method other than GET is refused before anything is read.
   */
  function Respond(verb: string, rows: seq<LogRow>, queryError: Option<string>): Response {
    if verb != "GET" then NotAllowed(["GET"])
    else if queryError.Some? then Failed(queryError.value)
    else Logs(Listing(rows))
  }

  /** A refused method gives the same answer whatever the table holds: nothing is read. */
  lemma RefusalReadsNothing(verb: string, rows1: seq<LogRow>, rows2: seq<LogRow>, e1: Option<string>, e2: Option<string>)
    requires verb != "GET"
    ensures Respond(verb, rows1, e1) == Respond(verb, rows2, e2) == NotAllowed(["GET"])
  {
  }

  /** A failed query is answered with its own message. */
  lemma FailureCarriesMessage(rows: seq<LogRow>, message: string)
    ensures Respond("GET", rows, Some(message)) == Failed(message)
  {
  }

  /**
   * The listing serves every row exactly once as `LogOf` maps it (one entry per row, and
   * an entry is in the listing iff its row is in the table), newest first, with `undone`
   * always a boolean.
   */
  lemma {:induction false} ListingServesEveryRow(rows: seq<LogRow>)
    ensures |Listing(rows)| == |rows|
    ensures multiset(Listing(rows)) == multiset(Map(rows, LogOf))
    ensures forall row :: row in rows ==> LogOf(row) in Listing(rows)
    ensures forall h :: h in Listing(rows) ==> exists row :: row in rows && LogOf(row) == h
    ensures forall i, j :: 0 <= i < j < |Listing(rows)| ==> Listing(rows)[i].timestamp >= Listing(rows)[j].timestamp
    ensures forall h :: h in Listing(rows) ==> h.undone.Some?
  {
    var sorted := Sort(rows, NewerFirst);
    var out := Listing(rows);
    assert StrictWeakOrder(NewerFirst);
    SortSorted(rows, NewerFirst);
    MapPermutation(sorted, rows, LogOf);
    forall row | row in rows ensures LogOf(row) in out {
      assert row in multiset(sorted);
      var k :| 0 <= k < |sorted| && sorted[k] == row;
      assert out[k] == LogOf(row);
    }
    forall h | h in out ensures exists row :: row in rows && LogOf(row) == h {
      var k :| 0 <= k < |out| && out[k] == h;
      assert sorted[k] in multiset(rows);
    }
    forall i, j | 0 <= i < j < |out| ensures out[i].timestamp >= out[j].timestamp {
      assert !NewerFirst(sorted[j], sorted[i]);
    }
  }
}
