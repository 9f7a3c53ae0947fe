/**
 * The monthly history page: the raffles bucketed by "YYYY-MM" month, latest month first,
 * one year at a time, with one month expanded to list its raffles.
 */
module MonthlyReportsPage {
  import opened Wrappers
  import opened Types
  import opened Seqs
  import opened Text
  import opened Reports

  /**
   * `allReports`: the `forEach` fills the month dictionary, pushing each raffle into its
   * month's bucket, and the entries are sorted by key, latest first.
   */
  method AllReports(raffles: seq<Raffle>) returns (reports: seq<Bucket>)
    ensures Reported(reports, raffles, MonthOf, ByKeyDescending)
  {
    var byMonth: map<string, Bucket>, monthKeys: seq<string> := map[], [];
    ghost var done: seq<Raffle> := [];
    var i := 0;
    while i < |raffles|
      invariant 0 <= i <= |raffles| && done == raffles[..i]
      invariant Grouped(byMonth, monthKeys, done, MonthOf)
    {
      byMonth, monthKeys := AddToBucket(byMonth, monthKeys, raffles[i], MonthOf, done);
      PrefixStep(raffles, i);
      done := done + [raffles[i]];
      i := i + 1;
    }
    PrefixStep(raffles, i);
    ByKeyDescendingIsStrictWeakOrder();
    reports := SortEntries(byMonth, monthKeys, raffles, MonthOf, ByKeyDescending);
  }

  /** `report.originalKey.startsWith(String(currentYear))`. */
  predicate OfYear(year: int, b: Bucket) {
    StartsWith(b.key, IntToString(year))
  }

  /** `reportsForYear`: the months of the year shown. */
  function ReportsForYear(reports: seq<Bucket>, year: int): seq<Bucket> {
    Filter(reports, (b: Bucket) => OfYear(year, b))
  }

  /**
   * For four-digit years the year view holds exactly the months whose raffles are of that
   * year, still latest first, and the month of every raffle of that year is among them.
   */
  lemma ReportsForYearSelectsYear(reports: seq<Bucket>, raffles: seq<Raffle>, year: int)
    requires Reported(reports, raffles, MonthOf, ByKeyDescending)
    requires forall r :: r in raffles ==> FourDigitDate(r.date)
    requires 1000 <= year <= 9999
    ensures Sorted(ReportsForYear(reports, year), ByKeyDescending)
    ensures forall b :: b in ReportsForYear(reports, year) <==>
      (b in reports && forall r :: r in b.raffles ==> r.date.year == year)
    ensures forall r :: r in raffles && r.date.year == year ==>
      GroupOf(raffles, MonthOf, MonthOf(r)) in ReportsForYear(reports, year)
  {
    var shown := ReportsForYear(reports, year);
    SubsequenceSorted(shown, reports, ByKeyDescending);
    forall b | b in reports
      ensures OfYear(year, b) <==> forall r :: r in b.raffles ==> r.date.year == year
    {
      var r := b.raffles[0];
      assert r in b.raffles;
      assert r in raffles && b.key == MonthOf(r);
      YearPrefixSelectsYear(r.date, year);
      forall r2 | r2 in b.raffles ensures r2.date.year == r.date.year {
        assert r2 in raffles && MonthOf(r2) == MonthOf(r);
        MonthKeyOrder(r.date, r2.date);
      }
    }
    forall r | r in raffles && r.date.year == year
      ensures GroupOf(raffles, MonthOf, MonthOf(r)) in shown
    {
      YearPrefixSelectsYear(r.date, year);
    }
  }

  /** The raffles of an expanded month, latest first (`new Date(b.date) - new Date(a.date)`). */
  function ExpandedRaffles(b: Bucket): (r: seq<Raffle>)
    ensures Sorted(r, LaterDate)
    ensures multiset(r) == multiset(b.raffles)
  {
    assert StrictWeakOrder(LaterDate);
    SortSorted(b.raffles, LaterDate);
    Sort(b.raffles, LaterDate)
  }

  /** `prevKey === key ? null : key`: a click on the open month closes it, on any other month opens that one. */
  function Toggled(prev: Option<string>, key: string): (next: Option<string>)
    ensures forall k :: next == Some(k) <==> (k == key && prev != Some(key))
  {
    if prev == Some(key) then None else Some(key)
  }

  /** Clicking the same month twice returns to a closed month or to that month, whichever was shown first. */
  lemma ToggleTwice(prev: Option<string>, key: string)
    ensures Toggled(Toggled(prev, key), key) == if prev == Some(key) then Some(key) else None
  {
  }

  /** The page's state: the year shown and the month expanded, if any. */
  class Page {
    var currentYear: int
    var expandedMonthKey: Option<string>

    /** `useState(new Date(2025, 1, 1).getFullYear())` and `useState(null)`. */
    constructor ()
      ensures currentYear == 2025 && expandedMonthKey == None
    {
      currentYear := 2025;
      expandedMonthKey := None;
    }

    /** `changeYear`: moves the year by `amount` and collapses any expanded month. */
    method ChangeYear(amount: int)
      modifies this
      ensures currentYear == old(currentYear) + amount
      ensures expandedMonthKey == None
    {
      currentYear := currentYear + amount;
      expandedMonthKey := None;
    }

    /** `toggleMonth`. */
    method ToggleMonth(key: string)
      modifies this
      ensures expandedMonthKey == Toggled(old(expandedMonthKey), key)
      ensures currentYear == old(currentYear)
    {
      if expandedMonthKey == Some(key) {
        expandedMonthKey := None;
      } else {
        expandedMonthKey := Some(key);
      }
    }

    /** `isExpanded` of a month row. */
    predicate IsExpanded(b: Bucket)
      reads this
    {
      expandedMonthKey == Some(b.key)
    }
  }
}
