/**
 * The general reports page: the financial summary over every raffle, the reimbursement
 * summary card, and the reports by category, by month and by year.
 */
module RelatoriosPage {
  import opened Types
  import opened Seqs
  import opened Text
  import opened Numbers
  import opened Totals
  import opened Reports

  // ---------------------------------------------------------------------------
  // Financial summary
  // ---------------------------------------------------------------------------

  datatype Summary = Summary(totalSales: real, totalCosts: real, totalProfit: real)

  /** `financialSummary`: the sales and the costs without donations of every raffle, and their difference. */
  function FinancialSummary(raffles: seq<Raffle>): (s: Summary)
    ensures s.totalProfit == s.totalSales - s.totalCosts
  {
    var sales := Sum(raffles, RaffleSales);
    var costs := Sum(raffles, RaffleCosts);
    Summary(sales, costs, sales - costs)
  }

  /**
   * The summary adds up the raffles' own figures: the costs charge every cost but the
   * donations, and the total profit is the sum of the raffles' profits.
   */
  lemma FinancialSummaryAddsUpRaffles(raffles: seq<Raffle>)
    ensures FinancialSummary(raffles).totalSales == Sum(raffles, (r: Raffle) => FiguresOf(r).sales)
    ensures FinancialSummary(raffles).totalCosts == Sum(raffles, (r: Raffle) => Sum(r.costs, CashCost))
    ensures FinancialSummary(raffles).totalProfit == Sum(raffles, Profit)
  {
    SumPointwise(raffles, RaffleSales, (r: Raffle) => FiguresOf(r).sales);
    forall r | r in raffles ensures RaffleCosts(r) == Sum(r.costs, CashCost) {
      CostsTotalExcludesDonations(r.costs);
    }
    SumPointwise(raffles, RaffleCosts, (r: Raffle) => Sum(r.costs, CashCost));
    SumSubtract(raffles, RaffleSales, RaffleCosts);
    SumPointwise(raffles, (r: Raffle) => RaffleSales(r) - RaffleCosts(r), Profit);
  }

  // ---------------------------------------------------------------------------
  // Reimbursement summary card
  // ---------------------------------------------------------------------------

  function ReimbursableAmount(c: Cost): real {
    if Reimbursable(c) then c.amount else 0.0
  }

  function ReimbursedAmount(c: Cost): real {
    if Reimbursed(c) then c.amount else 0.0
  }

  function PendingAmount(c: Cost): real {
    if Pending(c) then c.amount else 0.0
  }

  function RaffleReimbursable(r: Raffle): real {
    Sum(r.costs, ReimbursableAmount)
  }

  function RaffleReimbursed(r: Raffle): real {
    Sum(r.costs, ReimbursedAmount)
  }

  function RafflePending(r: Raffle): real {
    Sum(r.costs, PendingAmount)
  }

  datatype ReimbursementSummary = ReimbursementSummary(
    totalReimbursable: real,
    totalReimbursed: real,
    pending: real,
    percentage: real)

  /** `totalReimbursable > 0 ? (totalReimbursed / totalReimbursable) * 100 : 100`. */
  function Percentage(reimbursed: real, reimbursable: real): (p: real)
    ensures reimbursable <= 0.0 ==> p == 100.0
    ensures 0.0 <= reimbursed <= reimbursable ==> 0.0 <= p <= 100.0
    ensures 0.0 < reimbursable ==> (p == 100.0 <==> reimbursed == reimbursable)
  {
    if reimbursable > 0.0 then
      RatioBounds(reimbursed, reimbursable);
      (reimbursed / reimbursable) * 100.0
    else 100.0
  }

  /** A share of a positive whole: within 0 and 1 when the part is, and 1 exactly when the part is the whole. */
  lemma RatioBounds(part: real, whole: real)
    requires whole > 0.0
    ensures 0.0 <= part <= whole ==> 0.0 <= part / whole <= 1.0
    ensures part / whole == 1.0 <==> part == whole
  {
    var ratio := part / whole;
    assert ratio * whole == part;
  }

  /** A raffle's pending amount is its reimbursable amount less its reimbursed amount. */
  lemma {:induction false} RafflePendingIsDifference(costs: seq<Cost>)
    ensures Sum(costs, PendingAmount) == Sum(costs, ReimbursableAmount) - Sum(costs, ReimbursedAmount)
  {
    if costs != [] {
      RafflePendingIsDifference(costs[1..]);
    }
  }

  /** What is pending is what is reimbursable less what is reimbursed, over every raffle. */
  lemma {:induction false} PendingIsDifference(raffles: seq<Raffle>)
    ensures Sum(raffles, RafflePending) == Sum(raffles, RaffleReimbursable) - Sum(raffles, RaffleReimbursed)
  {
    if raffles != [] {
      RafflePendingIsDifference(raffles[0].costs);
      PendingIsDifference(raffles[1..]);
    }
  }

  /**
   * `ReimbursementSummaryCard`'s `summary`: the two nested `forEach` loops add every
   * reimbursable cost to the reimbursable total and, when it has a reimbursement date, to
   * the reimbursed total.
   */
  method Summarize(raffles: seq<Raffle>) returns (s: ReimbursementSummary)
    ensures s.totalReimbursable == Sum(raffles, RaffleReimbursable)
    ensures s.totalReimbursed == Sum(raffles, RaffleReimbursed)
    ensures s.pending == Sum(raffles, RafflePending)
    ensures s.percentage == Percentage(s.totalReimbursed, s.totalReimbursable)
  {
    var totalReimbursable := 0.0;
    var totalReimbursed := 0.0;
    var i := 0;
    while i < |raffles|
      invariant 0 <= i <= |raffles|
      invariant totalReimbursable == Sum(raffles[..i], RaffleReimbursable)
      invariant totalReimbursed == Sum(raffles[..i], RaffleReimbursed)
    {
      var costs := raffles[i].costs;
      var j := 0;
      while j < |costs|
        invariant 0 <= j <= |costs|
        invariant totalReimbursable == Sum(raffles[..i], RaffleReimbursable) + Sum(costs[..j], ReimbursableAmount)
        invariant totalReimbursed == Sum(raffles[..i], RaffleReimbursed) + Sum(costs[..j], ReimbursedAmount)
      {
        var cost := costs[j];
        SumPrefix(costs, j, ReimbursableAmount);
        SumPrefix(costs, j, ReimbursedAmount);
        if Flag(cost.isReimbursement) {
          totalReimbursable := totalReimbursable + cost.amount;
          if cost.reimbursedDate.On? {
            totalReimbursed := totalReimbursed + cost.amount;
          }
        }
        j := j + 1;
      }
      assert costs[..j] == costs;
      SumPrefix(raffles, i, RaffleReimbursable);
      SumPrefix(raffles, i, RaffleReimbursed);
      i := i + 1;
    }
    assert raffles[..i] == raffles;
    var percentage := if totalReimbursable > 0.0 then (totalReimbursed / totalReimbursable) * 100.0 else 100.0;
    PendingIsDifference(raffles);
    s := ReimbursementSummary(totalReimbursable, totalReimbursed, totalReimbursable - totalReimbursed, percentage);
  }

  /** With no negative amounts, nothing is reimbursed beyond what is reimbursable, so the bar stays within 0-100%. */
  lemma ReimbursedWithinReimbursable(raffles: seq<Raffle>)
    requires forall r, c :: r in raffles && c in r.costs ==> c.amount >= 0.0
    ensures 0.0 <= Sum(raffles, RaffleReimbursed) <= Sum(raffles, RaffleReimbursable)
    ensures 0.0 <= Percentage(Sum(raffles, RaffleReimbursed), Sum(raffles, RaffleReimbursable)) <= 100.0
  {
    forall r | r in raffles ensures 0.0 <= RaffleReimbursed(r) <= RaffleReimbursable(r) {
      SumNonNegative(r.costs, ReimbursedAmount);
      SumMonotone(r.costs, ReimbursedAmount, ReimbursableAmount);
    }
    SumNonNegative(raffles, RaffleReimbursed);
    SumMonotone(raffles, RaffleReimbursed, RaffleReimbursable);
  }

  // ---------------------------------------------------------------------------
  // Reports by category, month and year
  // ---------------------------------------------------------------------------

  function CategoryOf(r: Raffle): string {
    r.category
  }

  /** `String(date.getFullYear())`. */
  function YearOf(r: Raffle): string {
    IntToString(r.date.year)
  }

  /** `parseInt(label)` of a year row. */
  function YearNumber(b: Bucket): real {
    match ParseInt(b.key)
    case Some(y) => y as real
    case None => 0.0
  }

  /** The comparator `parseInt(b.label) - parseInt(a.label)`: the later year first. */
  predicate ByYearDescending(a: Bucket, b: Bucket) {
    YearNumber(a) > YearNumber(b)
  }

  lemma ByYearDescendingIsStrictWeakOrder()
    ensures StrictWeakOrder(ByYearDescending)
  {
  }

  /** The category dictionary of `reports` once the raffles `done` are counted: their groups, adding up to their totals. */
  ghost predicate CategoriesFilled(categories: map<string, Bucket>, categoryKeys: seq<string>, done: seq<Raffle>) {
    && Grouped(categories, categoryKeys, done, CategoryOf)
    && Sum(Entries(categories, categoryKeys), BucketSales) == Sum(done, RaffleSales)
    && Sum(Entries(categories, categoryKeys), BucketCosts) == Sum(done, RaffleCosts)
  }

  /** `raffle` counted in its category: the buckets still add up to the raffles counted. */
  method CountCategory(categories: map<string, Bucket>, categoryKeys: seq<string>, raffle: Raffle, ghost done: seq<Raffle>)
    returns (categories': map<string, Bucket>, categoryKeys': seq<string>)
    requires CategoriesFilled(categories, categoryKeys, done)
    ensures CategoriesFilled(categories', categoryKeys', done + [raffle])
  {
    SumSnoc(done, raffle, RaffleSales);
    SumSnoc(done, raffle, RaffleCosts);
    categories', categoryKeys' := AddToBucket(categories, categoryKeys, raffle, CategoryOf, done);
  }

  /** The category, month and year dictionaries of `reports` once the raffles `done` are counted. */
  ghost predicate Filled(categories: map<string, Bucket>, categoryKeys: seq<string>,
                         months: map<string, Bucket>, monthKeys: seq<string>,
                         years: map<string, Bucket>, yearKeys: seq<string>, done: seq<Raffle>)
  {
    && CategoriesFilled(categories, categoryKeys, done)
    && Grouped(months, monthKeys, done, MonthOf)
    && Grouped(years, yearKeys, done, YearOf)
  }

  /** Before the `forEach`, the three dictionaries are empty. */
  lemma NothingFilled()
    ensures Filled(map[], [], map[], [], map[], [], [])
  {
  }

  /** One turn of the `forEach` of `reports`: `raffle` is added to its category, month and year. */
  method CountRaffle(categories: map<string, Bucket>, categoryKeys: seq<string>,
                     months: map<string, Bucket>, monthKeys: seq<string>,
                     years: map<string, Bucket>, yearKeys: seq<string>,
                     raffle: Raffle, ghost done: seq<Raffle>)
    returns (categories': map<string, Bucket>, categoryKeys': seq<string>,
             months': map<string, Bucket>, monthKeys': seq<string>,
             years': map<string, Bucket>, yearKeys': seq<string>)
    requires Filled(categories, categoryKeys, months, monthKeys, years, yearKeys, done)
    ensures Filled(categories', categoryKeys', months', monthKeys', years', yearKeys', done + [raffle])
  {
    categories', categoryKeys' := CountCategory(categories, categoryKeys, raffle, done);
    months', monthKeys' := AddToBucket(months, monthKeys, raffle, MonthOf, done);
    years', yearKeys' := AddToBucket(years, yearKeys, raffle, YearOf, done);
  }

  /**
   * The `forEach` of `reports`: one pass over the raffles fills the category, month and
   * year dictionaries, each keeping its keys in the order they were first met.
   */
  method FillDictionaries(raffles: seq<Raffle>)
    returns (categories: map<string, Bucket>, categoryKeys: seq<string>,
             months: map<string, Bucket>, monthKeys: seq<string>,
             years: map<string, Bucket>, yearKeys: seq<string>)
    ensures Filled(categories, categoryKeys, months, monthKeys, years, yearKeys, raffles)
  {
    categories, categoryKeys := map[], [];
    months, monthKeys := map[], [];
    years, yearKeys := map[], [];
    NothingFilled();
    ghost var done: seq<Raffle> := [];
    var i := 0;
    while i < |raffles|
      invariant 0 <= i <= |raffles| && done == raffles[..i]
      invariant Filled(categories, categoryKeys, months, monthKeys, years, yearKeys, done)
    {
      PrefixStep(raffles, i);
      categories, categoryKeys, months, monthKeys, years, yearKeys :=
        CountRaffle(categories, categoryKeys, months, monthKeys, years, yearKeys, raffles[i], done);
      done := done + [raffles[i]];
      i := i + 1;
    }
    PrefixStep(raffles, i);
  }

  /**
   * `reports`: the entries of the three dictionaries, sorted: categories by profit, months
   * and years latest first. The category rows add up to the financial summary.
   */
  method BuildReports(raffles: seq<Raffle>) returns (byCategory: seq<Bucket>, byMonth: seq<Bucket>, byYear: seq<Bucket>)
    ensures Reported(byCategory, raffles, CategoryOf, ByProfit)
    ensures Reported(byMonth, raffles, MonthOf, ByKeyDescending)
    ensures Reported(byYear, raffles, YearOf, ByYearDescending)
    ensures Sum(byCategory, BucketSales) == FinancialSummary(raffles).totalSales
    ensures Sum(byCategory, BucketCosts) == FinancialSummary(raffles).totalCosts
  {
    var categories, categoryKeys, months, monthKeys, years, yearKeys := FillDictionaries(raffles);
    ByProfitIsStrictWeakOrder();
    ByKeyDescendingIsStrictWeakOrder();
    ByYearDescendingIsStrictWeakOrder();
    byCategory := SortEntries(categories, categoryKeys, raffles, CategoryOf, ByProfit);
    byMonth := SortEntries(months, monthKeys, raffles, MonthOf, ByKeyDescending);
    byYear := SortEntries(years, yearKeys, raffles, YearOf, ByYearDescending);
  }

  /** A year row reads back the year its label was written from. */
  lemma YearNumberOfKey(row: Bucket, year: int)
    requires row.key == IntToString(year)
    ensures YearNumber(row) == year as real
  {
    ParseIntOfString(year);
  }

  /** Of two rows of different years that the comparator leaves in place, the first is the later year. */
  lemma LaterYearFirst(first: Bucket, second: Bucket, firstYear: int, secondYear: int)
    requires first.key == IntToString(firstYear) && second.key == IntToString(secondYear)
    requires firstYear != secondYear && !ByYearDescending(second, first)
    ensures secondYear < firstYear
  {
    YearNumberOfKey(first, firstYear);
    YearNumberOfKey(second, secondYear);
  }

  /** In the year report, every raffle of an earlier row is of a later year than every raffle of a later row. */
  lemma YearRowsLatestFirst(rows: seq<Bucket>, raffles: seq<Raffle>, i: int, j: int, a: Raffle, b: Raffle)
    requires Reported(rows, raffles, YearOf, ByYearDescending)
    requires 0 <= i < j < |rows| && a in rows[i].raffles && b in rows[j].raffles
    ensures b.date.year < a.date.year
  {
    RowsInOrder(rows, raffles, YearOf, ByYearDescending, i, j, a, b);
    LaterYearFirst(rows[i], rows[j], a.date.year, b.date.year);
  }

  /** `recentMonthlyReports`: the first three rows of the month report. */
  function RecentMonths(byMonth: seq<Bucket>): (r: seq<Bucket>)
    ensures |r| == if |byMonth| < 3 then |byMonth| else 3
    ensures r == byMonth[..|r|]
  {
    if |byMonth| < 3 then byMonth else byMonth[..3]
  }

  /**
   * For four-digit years, the recent months are the latest months that have raffles: a
   * raffle shown among them is of a later month than any raffle left out.
   */
  lemma RecentMonthsAreLatest(rows: seq<Bucket>, raffles: seq<Raffle>, a: Raffle, b: Raffle)
    requires Reported(rows, raffles, MonthOf, ByKeyDescending)
    requires forall r :: r in raffles ==> FourDigitDate(r.date)
    requires exists i :: 0 <= i < |RecentMonths(rows)| && a in rows[i].raffles
    requires exists j :: |RecentMonths(rows)| <= j < |rows| && b in rows[j].raffles
    ensures MonthBefore(b.date, a.date)
  {
    var i :| 0 <= i < |RecentMonths(rows)| && a in rows[i].raffles;
    var j :| |RecentMonths(rows)| <= j < |rows| && b in rows[j].raffles;
    MonthRowsLatestFirst(rows, raffles, i, j, a, b);
  }
}
