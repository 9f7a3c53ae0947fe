/**
 * The history page: the logged actions narrowed by a search, an action type and a raffle,
 * each with an undo button.
 */
module HistoryPage {
  import opened Wrappers
  import opened Types
  import opened Seqs
  import opened Text
  import App

  /** The search term, the selected action type (`None` for 'ALL') and the selected raffle id or 'ALL'. */
  datatype LogFilter = LogFilter(searchTerm: string, actionType: Option<ActionType>, raffleId: string)

  const InitialFilter := LogFilter("", None, "ALL")

  /** The `filter` callback of `filteredHistory`. */
  predicate LogShown(f: LogFilter, log: HistoryLog) {
    && (f.searchTerm == "" || MatchesIgnoringCase(log.description, f.searchTerm)
        || MatchesIgnoringCase(log.raffleTitle, f.searchTerm))
    && (f.actionType.None? || log.actionType == f.actionType.value)
    && (f.raffleId == "ALL" || log.raffleId == f.raffleId)
  }

  /** `filteredHistory`. */
  function FilteredHistory(history: seq<HistoryLog>, f: LogFilter): seq<HistoryLog> {
    Filter(history, (log: HistoryLog) => LogShown(f, log))
  }

  /**
   * The filtered history keeps the history's order and holds exactly the logs that pass the
   * three tests; with the initial filters it is the whole history.
   */
  lemma FilteredHistoryIsOrderedSubset(history: seq<HistoryLog>, f: LogFilter)
    ensures Subsequence(FilteredHistory(history, f), history)
    ensures forall log :: log in FilteredHistory(history, f) <==> log in history && LogShown(f, log)
    ensures FilteredHistory(history, InitialFilter) == history
  {
    FilterKeepsAll(history, (log: HistoryLog) => LogShown(InitialFilter, log));
  }

  /** A search term finds a log whose description contains it, whatever the case of either. */
  lemma SearchFindsDescription(history: seq<HistoryLog>, log: HistoryLog, term: string)
    requires log in history && Contains(Lower(log.description), Lower(term))
    ensures log in FilteredHistory(history, LogFilter(term, None, "ALL"))
  {
  }

  /** The undo button of a log: whether it is disabled, and its label. */
  datatype UndoButton = UndoButton(disabled: bool, caption: string)

  /** `disabled={log.undone || isReadOnly}` and `{log.undone ? 'Desfeito' : 'Desfazer'}`. */
  function UndoButtonOf(log: HistoryLog, isReadOnly: bool): UndoButton {
    UndoButton(Flag(log.undone) || isReadOnly, if Flag(log.undone) then "Desfeito" else "Desfazer")
  }

  /**
   * The app never passes `isReadOnly` to this page, so a button is enabled exactly when its
   * log is not undone, and then a click selects that log for the undo confirmation: the
   * first log of the history with its id.
   */
  lemma EnabledUndoSelectsLog(history: seq<HistoryLog>, f: LogFilter, log: HistoryLog)
    requires log in FilteredHistory(history, f)
    ensures !UndoButtonOf(log, false).disabled <==> !Flag(log.undone)
    ensures UndoButtonOf(log, false).caption == "Desfeito" <==> UndoButtonOf(log, false).disabled
    ensures App.FindLog(history, log.id).Some? && App.FindLog(history, log.id).value.id == log.id
  {
    var i :| 0 <= i < |history| && history[i] == log;
    App.UndoSelectsLoadedLog(history, log.id);
  }

  /** `actionTypeDetails[type].label`: a label for every one of the twelve action types. */
  function ActionLabel(a: ActionType): string {
    match a
    case CreateRaffle => "Criação de Rifa"
    case UpdateRaffle => "Edição de Rifa"
    case DeleteRaffle => "Exclusão de Rifa"
    case ToggleFinalizeRaffle => "Status da Rifa"
    case AddSale => "Venda Adicionada"
    case UpdateSale => "Venda Editada"
    case DeleteSale => "Venda Excluída"
    case AddCost => "Custo Adicionado"
    case UpdateCost => "Custo Editado"
    case DeleteCost => "Custo Excluído"
    case AddReimbursement => "Reembolso Adicionado"
    case DeleteReimbursement => "Reembolso Removido"
  }

  /** No two action types share a label, so the label tells the action apart. */
  lemma ActionLabelsDistinct(a: ActionType, b: ActionType)
    requires a != b
    ensures ActionLabel(a) != ActionLabel(b)
  {
  }

  /** `sortedRaffles`: the raffles of the raffle filter, latest first. */
  function SortedRaffles(raffles: seq<Raffle>): (r: seq<Raffle>)
    ensures Sorted(r, LaterDate)
    ensures multiset(r) == multiset(raffles)
  {
    assert StrictWeakOrder(LaterDate);
    SortSorted(raffles, LaterDate);
    Sort(raffles, LaterDate)
  }
}
