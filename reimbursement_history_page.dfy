/**
 * ReimbursementHistoryPage: every completed reimbursement, latest first, narrowed by a
 * search over its texts, its raffle, its raffle's category and the year and month it
 * was reimbursed in.
 */
module ReimbursementHistoryPage {
  import opened Wrappers
  import opened Types
  import opened Seqs
  import opened Text
  import opened ReimbursementsPage

  /** The filters: a search term, a raffle id or "all", a category or "Todas", a year and a month index or all months. */
  datatype HistoryFilter = HistoryFilter(searchTerm: string, raffleId: string, category: string, year: int, month: Option<int>)

  const InitialFilter := HistoryFilter("", "all", "Todas", 2025, None)

  /** `text?.toLowerCase().includes(term.toLowerCase())` on an optional text: an absent one never matches. */
  predicate OptionalMatch(text: Option<string>, term: string) {
    text.Some? && MatchesIgnoringCase(text.value, term)
  }

  predicate SearchMatch(term: string, c: Cost) {
    || term == ""
    || MatchesIgnoringCase(c.description, term)
    || OptionalMatch(c.notes, term)
    || OptionalMatch(c.reimbursementNotes, term)
  }

  /** The filter test of one completed item: the year is always tested, the month only when one is chosen. */
  predicate HistoryShown(f: HistoryFilter, i: Item) {
    && SearchMatch(f.searchTerm, i.cost)
    && (f.raffleId == "all" || i.raffleId == f.raffleId)
    && (f.category == "Todas" || i.raffleCategory == f.category)
    && ReimbursedDay(i).year == f.year
    && (f.month.None? || ReimbursedDay(i).month - 1 == f.month.value)
  }

  /** `filteredHistory`. */
  function FilteredHistory(raffles: seq<Raffle>, f: HistoryFilter): seq<Item> {
    Filter(CompletedItems(raffles), (i: Item) => HistoryShown(f, i))
  }

  /**
   * The history keeps the completed list's order, so it still runs from the latest
   * reimbursement to the earliest, and it holds only reimbursed costs of the given raffles
   * reimbursed in the chosen year.
   */
  lemma HistoryIsOrderedSubset(raffles: seq<Raffle>, f: HistoryFilter)
    ensures Subsequence(FilteredHistory(raffles, f), CompletedItems(raffles))
    ensures Sorted(FilteredHistory(raffles, f), LaterReimbursed)
    ensures forall i :: i in FilteredHistory(raffles, f) ==>
      Reimbursed(i.cost) && TaggedFrom(raffles, i) && i.cost.reimbursedDate.date.year == f.year
  {
    ListsPartitionReimbursable(raffles);
    SubsequenceSorted(FilteredHistory(raffles, f), CompletedItems(raffles), LaterReimbursed);
  }

  /** With no search, no raffle and no category chosen, the history is the completed list of the chosen year and month. */
  lemma OpenFiltersShowWholePeriod(raffles: seq<Raffle>, year: int, month: Option<int>)
    ensures var f := HistoryFilter("", "all", "Todas", year, month);
      forall i :: i in FilteredHistory(raffles, f) <==>
        (i in CompletedItems(raffles) && ReimbursedDay(i).year == year
         && (month.None? || ReimbursedDay(i).month - 1 == month.value))
  {
  }

  /** A search for a cost's whole reimbursement note finds it, whatever the letter case. */
  lemma SearchFindsReimbursementNote(c: Cost)
    requires c.reimbursementNotes.Some?
    ensures SearchMatch(c.reimbursementNotes.value, c)
    ensures SearchMatch(Lower(c.reimbursementNotes.value), c)
  {
    ContainsItself(Lower(c.reimbursementNotes.value));
    assert Lower(Lower(c.reimbursementNotes.value)) == Lower(c.reimbursementNotes.value);
  }
}
