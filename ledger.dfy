/** `createHistoryLog` (api/_lib/history.ts): one row appended to `history_logs`. */
module Ledger {
  import opened Wrappers
  import opened Types
  import opened Store

  /** What a caller records; the optional fields are `undefined` when None. */
  datatype LogData = LogData(
    actionType: ActionType,
    raffleId: string,
    raffleTitle: string,
    description: string,
    entityId: Option<string>,
    beforeState: Option<Snapshot>,
    afterState: Option<Snapshot>)

  /** `entityId || null`: an absent or empty id is stored as NULL. */
  function NullIfEmpty(s: Option<string>): (r: Option<string>)
    ensures r.Some? <==> s.Some? && s.value != ""
    ensures r.Some? ==> r == s
  {
    if s.Some? && s.value != "" then s else None
  }

  /** The row the INSERT writes, under the fresh id `id`. */
  function LogInsertOf(data: LogData, id: string): (r: LogInsert)
    ensures r.id == id
    ensures r.actionType == data.actionType && r.raffleId == data.raffleId
    ensures r.raffleTitle == data.raffleTitle && r.description == data.description
    ensures r.entityId.Some? <==> data.entityId.Some? && data.entityId.value != ""
    ensures r.entityId.Some? ==> r.entityId == data.entityId
    ensures r.beforeState == data.beforeState && r.afterState == data.afterState
  {
    LogInsert(id, data.actionType, data.raffleId, data.raffleTitle, data.description,
      NullIfEmpty(data.entityId), data.beforeState, data.afterState)
  }

  /**
   * `createHistoryLog(connection, data)` with `newLogId` as the generated id and `now` as
   * the database clock. Exactly one row is appended and nothing else changes.
   */
  method CreateHistoryLog(db: Database, data: LogData, newLogId: string, now: int)
    requires db.Valid() && newLogId !in LogIds(db.logs)
    modifies db
    ensures db.logs == old(db.logs) + [LogRow(LogInsertOf(data, newLogId), now, None)]
    ensures db.raffles == old(db.raffles) && db.sales == old(db.sales) && db.costs == old(db.costs)
    ensures db.saved == old(db.saved) && db.Valid()
  {
    db.InsertLog(LogInsertOf(data, newLogId), now);
  }
}
