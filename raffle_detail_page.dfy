/**
 * RaffleDetailPage: one raffle's summary cards, its sale and cost lists with their
 * headers, the split of its reimbursements into pending and completed, and the controls a
 * finalised raffle hides.
 */
module RaffleDetailPage {
  import opened Wrappers
  import opened Types
  import opened Seqs
  import opened Totals
  import opened EntryRules
  import InlineEntryForm
  import App

  /** A sale recorded on the raffle raises its sales and its profit by the sale's amount. */
  lemma SaleMovesFigures(r: Raffle, s: Sale)
    ensures var f := FiguresOf(r);
      FiguresOf(r.(sales := r.sales + [s])) == f.(sales := f.sales + s.amount, profit := f.profit + s.amount)
  {
    SalesTotalAppend(r.sales, s);
  }

  /** A cost recorded on the raffle moves its costs and profit by its amount, or not at all for a donation. */
  lemma CostMovesFigures(r: Raffle, c: Cost)
    ensures var f := FiguresOf(r);
      FiguresOf(r.(costs := r.costs + [c])) == f.(costs := f.costs + CashCost(c), profit := f.profit - CashCost(c))
  {
    CostsTotalAppend(r.costs, c);
    CostsTotalExcludesDonations(r.costs);
    CostsTotalExcludesDonations(r.costs + [c]);
  }

  /** The list headers agree with the summary cards: the sales header and the cost header show the same totals. */
  lemma ListHeadersMatchFigures(r: Raffle)
    requires forall s :: s in r.sales ==> s.quantity > 0
    ensures SalesTotal(r.sales) == FiguresOf(r).sales
    ensures CostsTotal(r.costs) == FiguresOf(r).costs
    ensures QuantityTotal(r.sales) >= |r.sales|
  {
    CostsTotalExcludesDonations(r.costs);
    TicketsCoverSales(r.sales);
  }

  // ---------------------------------------------------------------------------
  // The reimbursement section
  // ---------------------------------------------------------------------------

  function PendingOf(costs: seq<Cost>): seq<Cost> {
    Filter(costs, Pending)
  }

  function CompletedOf(costs: seq<Cost>): seq<Cost> {
    Filter(costs, Reimbursed)
  }

  /** The section renders unless both of its lists are empty. */
  predicate SectionShown(costs: seq<Cost>) {
    |PendingOf(costs)| > 0 || |CompletedOf(costs)| > 0
  }

  /**
   * The two lists keep the raffle's order, never share a cost, and together hold every
   * reimbursable cost exactly as often as the raffle does.
   */
  lemma SplitPartitionsReimbursable(costs: seq<Cost>)
    ensures Subsequence(PendingOf(costs), costs) && Subsequence(CompletedOf(costs), costs)
    ensures forall c :: c in PendingOf(costs) ==> c !in CompletedOf(costs)
    ensures forall c :: (c in costs && Reimbursable(c)) <==> (c in PendingOf(costs) || c in CompletedOf(costs))
    ensures multiset(PendingOf(costs)) + multiset(CompletedOf(costs)) == multiset(Filter(costs, Reimbursable))
  {
    var p, d, all := PendingOf(costs), CompletedOf(costs), Filter(costs, Reimbursable);
    forall c ensures (multiset(p) + multiset(d))[c] == multiset(all)[c] {
      ReimbursementStates(c);
    }
    assert multiset(p) + multiset(d) == multiset(all);
    forall c ensures (c in costs && Reimbursable(c)) <==> (c in p || c in d) {
      ReimbursementStates(c);
    }
  }

  /** The section is hidden exactly when the raffle has no reimbursable cost. */
  lemma SectionShownIff(costs: seq<Cost>)
    ensures SectionShown(costs) <==> exists c :: c in costs && Reimbursable(c)
  {
    SplitPartitionsReimbursable(costs);
    if SectionShown(costs) {
      var c := if |PendingOf(costs)| > 0 then PendingOf(costs)[0] else CompletedOf(costs)[0];
      assert c in PendingOf(costs) || c in CompletedOf(costs);
    } else {
      forall c | c in costs ensures !Reimbursable(c) {
      }
    }
  }

  // ---------------------------------------------------------------------------
  // Controls and forwarding
  // ---------------------------------------------------------------------------

  /**
   * What the page offers: the finalise/reopen button with its label, the archived banner,
   * the header's edit and delete buttons for the raffle, the inline add forms, and the
   * edit and delete buttons of each sale and cost (with the completed reimbursements that
   * open the cost editor), which the finalised flag does not hide.
   */
  datatype Controls = Controls(toggleLabel: string, archivedBanner: bool, headerEditAndDelete: bool,
                               addForms: bool, entryEditAndDelete: bool)

  function ControlsOf(r: Raffle): (c: Controls)
    ensures c.archivedBanner <==> Flag(r.isFinalized)
    ensures c.archivedBanner ==> !c.headerEditAndDelete && !c.addForms && c.toggleLabel == "Reabrir Rifa"
    ensures !c.archivedBanner ==> c.headerEditAndDelete && c.addForms && c.toggleLabel == "Finalizar Rifa"
    ensures c.entryEditAndDelete
  {
    var done := Flag(r.isFinalized);
    Controls(if done then "Reabrir Rifa" else "Finalizar Rifa", done, !done, !done, true)
  }

  /**
   * Confirming the toggle offers the opposite header buttons and add forms: a reopened raffle
   * gets its forms back. The entries stay editable and deletable either way.
   */
  lemma ToggleFlipsControls(r: Raffle)
    ensures var t := r.(isFinalized := App.ToggledCore(r).isFinalized);
      && ControlsOf(t).addForms == !ControlsOf(r).addForms
      && ControlsOf(t).headerEditAndDelete == !ControlsOf(r).headerEditAndDelete
      && ControlsOf(t).toggleLabel != ControlsOf(r).toggleLabel
      && ControlsOf(t).entryEditAndDelete && ControlsOf(r).entryEditAndDelete
  {
  }

  /** `onAddEntry(raffleId, type, entry)`. */
  datatype PageEvent = AddEntry(raffleId: string, kind: EntryKind, entry: Entry)

  /**
   * Submitting the inline form of the `kind` list: nothing on a finalised raffle (the form
   * is not there) or for a rejected entry; otherwise the entry goes out with the raffle's id.
   */
  function SaveFromList(r: Raffle, kind: EntryKind, f: InlineEntryForm.FormState): (e: Option<PageEvent>)
    ensures e.Some? ==> !Flag(r.isFinalized) && e.value.raffleId == r.id && e.value.kind == kind
    ensures e.Some? ==> (e.value.entry.SaleEntry? <==> kind == SaleKind)
    ensures !Flag(r.isFinalized) ==> (e.Some? <==> InlineEntryForm.SubmitOutcome(kind, f).Accepted?)
  {
    if Flag(r.isFinalized) then None
    else
      match InlineEntryForm.SubmitOutcome(kind, f)
      case Rejected(_) => None
      case Accepted(entry) => Some(AddEntry(r.id, kind, entry))
  }
}
