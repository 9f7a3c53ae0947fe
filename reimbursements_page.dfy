/**
 * ReimbursementsPage: every reimbursable cost of every raffle, tagged with its raffle;
 * the pending ones with their filters and actions, and a preview of the completed ones,
 * latest reimbursement first.
 */
module ReimbursementsPage {
  import opened Wrappers
  import opened Types
  import opened Seqs
  import opened Text

  /** A cost with the raffle it belongs to (`Cost & { raffleId, raffleTitle, raffleCategory, raffleDate }`). */
  datatype Item = Item(cost: Cost, raffleId: string, raffleTitle: string, raffleCategory: string, raffleDate: Date)

  function Tag(r: Raffle, c: Cost): Item {
    Item(c, r.id, r.title, r.category, r.date)
  }

  /** The costs in `cs`, each tagged with the raffle `r` (`cs.map(cost => ({ ...cost, raffleId: r.id, ... }))`). */
  function TagAll(r: Raffle, cs: seq<Cost>): (s: seq<Item>)
    ensures |s| == |cs|
    ensures forall k :: 0 <= k < |cs| ==> s[k] == Tag(r, cs[k])
  {
    seq(|cs|, k requires 0 <= k < |cs| => Tag(r, cs[k]))
  }

  /** The costs of every raffle passing `p`, raffle by raffle, each tagged with its raffle (the `flatMap`). */
  function TaggedCosts(raffles: seq<Raffle>, p: Cost -> bool): seq<Item>
    decreases |raffles|
  {
    if raffles == [] then [] else TagAll(raffles[0], Filter(raffles[0].costs, p)) + TaggedCosts(raffles[1..], p)
  }

  /** `i` is one of the costs of one of `raffles`, tagged with that raffle. */
  predicate TaggedFrom(raffles: seq<Raffle>, i: Item)
    decreases |raffles|
  {
    && raffles != []
    && ((i.cost in raffles[0].costs && i == Tag(raffles[0], i.cost)) || TaggedFrom(raffles[1..], i))
  }

  /** The raffle an item was tagged from. */
  lemma {:induction false} Owner(raffles: seq<Raffle>, i: Item) returns (r: Raffle)
    requires TaggedFrom(raffles, i)
    ensures r in raffles && i.cost in r.costs && i == Tag(r, i.cost)
    decreases |raffles|
  {
    if i.cost in raffles[0].costs && i == Tag(raffles[0], i.cost) {
      r := raffles[0];
    } else {
      r := Owner(raffles[1..], i);
    }
  }

  /** The items of the `flatMap` are exactly the costs passing `p`, each tagged with its own raffle. */
  lemma {:induction false} TaggedMembers(raffles: seq<Raffle>, p: Cost -> bool)
    ensures forall i :: i in TaggedCosts(raffles, p) <==> p(i.cost) && TaggedFrom(raffles, i)
    decreases |raffles|
  {
    if raffles != [] {
      TaggedMembers(raffles[1..], p);
      var here := TagAll(raffles[0], Filter(raffles[0].costs, p));
      forall i ensures i in here <==> p(i.cost) && i.cost in raffles[0].costs && i == Tag(raffles[0], i.cost) {
        if i in here {
          var k :| 0 <= k < |here| && here[k] == i;
          assert Filter(raffles[0].costs, p)[k] in Filter(raffles[0].costs, p);
        }
        if p(i.cost) && i.cost in raffles[0].costs && i == Tag(raffles[0], i.cost) {
          var k :| 0 <= k < |Filter(raffles[0].costs, p)| && Filter(raffles[0].costs, p)[k] == i.cost;
          assert here[k] == i;
        }
      }
    }
  }

  /** The day a completed item was reimbursed; every completed item has one. */
  function ReimbursedDay(i: Item): Date {
    if i.cost.reimbursedDate.On? then i.cost.reimbursedDate.date else Date(0, 0, 0)
  }

  /** The comparator of the completed list: `a` was reimbursed later than `b`. */
  predicate LaterReimbursed(a: Item, b: Item) {
    Earlier(ReimbursedDay(b), ReimbursedDay(a))
  }

  /** `pendingReimbursements`. */
  function PendingItems(raffles: seq<Raffle>): seq<Item> {
    TaggedCosts(raffles, Pending)
  }

  /** `completedReimbursements`. */
  function CompletedItems(raffles: seq<Raffle>): seq<Item> {
    Sort(TaggedCosts(raffles, Reimbursed), LaterReimbursed)
  }

  /**
   * Pending lists the pending costs and completed the reimbursed ones, each tagged with its
   * own raffle; no cost is in both, together they are every reimbursable cost, and the
   * completed list runs from the latest reimbursement to the earliest.
   */
  lemma ListsPartitionReimbursable(raffles: seq<Raffle>)
    ensures forall i :: i in PendingItems(raffles) <==> Pending(i.cost) && TaggedFrom(raffles, i)
    ensures forall i :: i in CompletedItems(raffles) <==> Reimbursed(i.cost) && TaggedFrom(raffles, i)
    ensures forall i :: i in PendingItems(raffles) ==> i !in CompletedItems(raffles)
    ensures forall i: Item :: (Reimbursable(i.cost) && TaggedFrom(raffles, i))
                        <==> (i in PendingItems(raffles) || i in CompletedItems(raffles))
    ensures Sorted(CompletedItems(raffles), LaterReimbursed)
    ensures multiset(CompletedItems(raffles)) == multiset(TaggedCosts(raffles, Reimbursed))
  {
    TaggedMembers(raffles, Pending);
    TaggedMembers(raffles, Reimbursed);
    var all := TaggedCosts(raffles, Reimbursed);
    forall i ensures i in CompletedItems(raffles) <==> i in all {
      assert i in CompletedItems(raffles) <==> i in multiset(CompletedItems(raffles));
      assert i in all <==> i in multiset(all);
    }
    forall i: Item ensures Reimbursable(i.cost) <==> Pending(i.cost) || Reimbursed(i.cost) {
      ReimbursementStates(i.cost);
    }
    assert StrictWeakOrder(LaterReimbursed);
    SortSorted(all, LaterReimbursed);
  }

  // ---------------------------------------------------------------------------
  // Filters of the pending list
  // ---------------------------------------------------------------------------

  /**
   * The filters: a search term, a raffle id or "all", a category or "Todas", the year
   * shown and a month index (0 to 11) or all months.
   */
  datatype PendingFilter = PendingFilter(searchTerm: string, raffleId: string, category: string, year: int, month: Option<int>)

  /** The filters the page opens with: everything in November 2025's year. */
  const InitialFilter := PendingFilter("", "all", "Todas", 2025, None)

  /** The filter test of one pending item; the date tests apply only to a cost that has a date. */
  predicate PendingShown(f: PendingFilter, i: Item) {
    && (f.searchTerm == "" || MatchesIgnoringCase(i.cost.description, f.searchTerm))
    && (f.raffleId == "all" || i.raffleId == f.raffleId)
    && (f.category == "Todas" || i.raffleCategory == f.category)
    && (!i.cost.date.On? || i.cost.date.date.year == f.year)
    && (!i.cost.date.On? || f.month.None? || i.cost.date.date.month - 1 == f.month.value)
  }

  /** `filteredReimbursements`. */
  function FilteredPending(raffles: seq<Raffle>, f: PendingFilter): seq<Item> {
    Filter(PendingItems(raffles), (i: Item) => PendingShown(f, i))
  }

  /** The filtered list keeps the pending list's order and holds exactly its items that pass the filters. */
  lemma FilteredPendingIsOrderedSubset(raffles: seq<Raffle>, f: PendingFilter)
    ensures Subsequence(FilteredPending(raffles, f), PendingItems(raffles))
    ensures forall i :: i in FilteredPending(raffles, f) <==> (i in PendingItems(raffles) && PendingShown(f, i))
  {
  }

  /** A cost without a date passes the year and month filters whatever they are set to. */
  lemma UndatedCostIgnoresDate(f: PendingFilter, i: Item, year: int, month: Option<int>)
    requires !i.cost.date.On?
    ensures PendingShown(f.(year := year, month := month), i) == PendingShown(f, i)
  {
  }

  /** Searching ignores letter case, and a search for a cost's whole description finds it. */
  lemma SearchFindsDescription(f: PendingFilter, i: Item)
    requires f.searchTerm == i.cost.description || Lower(f.searchTerm) == Lower(i.cost.description)
    ensures PendingShown(f, i) == PendingShown(f.(searchTerm := ""), i)
  {
    ContainsItself(Lower(i.cost.description));
  }

  /** `completedReimbursements.slice(0, 5)`: the first five completed items. */
  function Preview(raffles: seq<Raffle>): (r: seq<Item>)
    ensures |r| <= 5 && |r| <= |CompletedItems(raffles)| && r == CompletedItems(raffles)[..|r|]
    ensures |r| < 5 ==> r == CompletedItems(raffles)
  {
    var done := CompletedItems(raffles);
    if |done| <= 5 then done else done[..5]
  }

  // ---------------------------------------------------------------------------
  // Actions on a pending item
  // ---------------------------------------------------------------------------

  /** `onOpenEditCostModal(raffleId, 'cost', cost)` and `onOpenReimburseModal(raffleId, cost)`. */
  datatype Request = EditCost(raffleId: string, cost: Cost) | Reimburse(raffleId: string, cost: Cost)

  /** The edit button, which read-only mode hides: it hands over the cost without the raffle's fields. */
  function EditClick(i: Item, isReadOnly: bool): (r: Option<Request>)
    ensures r.None? <==> isReadOnly
  {
    if isReadOnly then None else Some(EditCost(i.raffleId, i.cost))
  }

  /** The reimburse button, which read-only mode hides. */
  function ReimburseClick(i: Item, isReadOnly: bool): (r: Option<Request>)
    ensures r.None? <==> isReadOnly
  {
    if isReadOnly then None else Some(Reimburse(i.raffleId, i.cost))
  }

  /** Editing a listed item opens exactly the original cost of its own raffle. */
  lemma EditOpensOriginalCost(raffles: seq<Raffle>, i: Item)
    requires i in PendingItems(raffles)
    ensures EditClick(i, false).Some?
    ensures exists r :: r in raffles && EditClick(i, false) == Some(EditCost(r.id, i.cost)) && i.cost in r.costs
  {
    ListsPartitionReimbursable(raffles);
    var r := Owner(raffles, i);
    assert EditClick(i, false) == Some(EditCost(r.id, i.cost));
  }
}
