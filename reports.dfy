/**
 * The report buckets of RelatoriosPage and MonthlyReportsPage: raffles grouped under a
 * key (a category, a "YYYY-MM" month or a year) in a dictionary that a loop fills, with
 * the sums of their sales and of their costs without donations.
 */
module Reports {
  import opened Wrappers
  import opened Types
  import opened Seqs
  import opened Text
  import opened Totals

  // ---------------------------------------------------------------------------
  // Month keys
  // ---------------------------------------------------------------------------

  /** `${year}-${String(month + 1).padStart(2, '0')}` of a raffle's day (`month` here counts from 1). */
  function MonthKey(d: Date): string {
    IntToString(d.year) + "-" + PadStart2(IntToString(d.month))
  }

  /** A day of a four-digit year and a month from 1 to 12. */
  predicate FourDigitDate(d: Date) {
    1000 <= d.year <= 9999 && 1 <= d.month <= 12
  }

  /** `a` falls in an earlier month than `b`. */
  predicate MonthBefore(a: Date, b: Date) {
    a.year < b.year || (a.year == b.year && a.month < b.month)
  }

  /** The key of a day of a four-digit year is its four-digit year, a dash and its two-digit month. */
  lemma MonthKeyParts(d: Date)
    requires FourDigitDate(d)
    ensures MonthKey(d) == Digits(d.year, 4) + ("-" + Digits(d.month, 2))
  {
    var year, month := IntToString(d.year), PadStart2(IntToString(d.month));
    FourDigitYear(d.year);
    TwoDigits(d.month);
    ConcatAssociative(year, "-", month);
  }

  /** Keys made of a fixed-width year, a dash and a fixed-width month compare year first, then month. */
  lemma KeyPartsLess(ya: string, ma: string, yb: string, mb: string)
    requires |ya| == |yb| && |ma| == |mb|
    ensures StringLess(ya + ("-" + ma), yb + ("-" + mb)) <==> StringLess(ya, yb) || (ya == yb && StringLess(ma, mb))
  {
    StringLessConcat(ya, "-" + ma, yb, "-" + mb);
    StringLessConcat("-", ma, "-", mb);
  }

  /** Such keys are equal exactly when their years and their months are. */
  lemma KeyPartsEqual(ya: string, ma: string, yb: string, mb: string)
    requires |ya| == |yb|
    ensures ya + ("-" + ma) == yb + ("-" + mb) <==> (ya == yb && ma == mb)
  {
    if ya + ("-" + ma) == yb + ("-" + mb) {
      assert (ya + ("-" + ma))[..|ya|] == ya && (yb + ("-" + mb))[..|yb|] == yb;
      assert (ya + ("-" + ma))[|ya| + 1..] == ma && (yb + ("-" + mb))[|yb| + 1..] == mb;
    }
  }

  /** Month keys sort as their months do, and two days share a key exactly when they share a month. */
  lemma MonthKeyOrder(a: Date, b: Date)
    requires FourDigitDate(a) && FourDigitDate(b)
    ensures StringLess(MonthKey(a), MonthKey(b)) <==> MonthBefore(a, b)
    ensures MonthKey(a) == MonthKey(b) <==> (a.year == b.year && a.month == b.month)
  {
    MonthKeyParts(a);
    MonthKeyParts(b);
    FourDigitYear(a.year);
    FourDigitYear(b.year);
    TwoDigits(a.month);
    TwoDigits(b.month);
    DigitsOrder(a.year, b.year, 4);
    DigitsOrder(a.month, b.month, 2);
    KeyPartsLess(Digits(a.year, 4), Digits(a.month, 2), Digits(b.year, 4), Digits(b.month, 2));
    KeyPartsEqual(Digits(a.year, 4), Digits(a.month, 2), Digits(b.year, 4), Digits(b.month, 2));
  }

  /** `key.startsWith(String(year))` keeps exactly the months of that year, for four-digit years. */
  lemma YearPrefixSelectsYear(d: Date, year: int)
    requires FourDigitDate(d) && 1000 <= year <= 9999
    ensures StartsWith(MonthKey(d), IntToString(year)) <==> d.year == year
  {
    FourDigitYear(d.year);
    FourDigitYear(year);
    DigitsOrder(d.year, year, 4);
    assert MonthKey(d)[..4] == Digits(d.year, 4);
  }

  // ---------------------------------------------------------------------------
  // Buckets
  // ---------------------------------------------------------------------------

  function RaffleSales(r: Raffle): real {
    SalesTotal(r.sales)
  }

  function RaffleCosts(r: Raffle): real {
    CostsTotal(r.costs)
  }

  /** `{ sales, costs, raffles }` under a key; the profit shown is `sales - costs`. */
  datatype Bucket = Bucket(key: string, sales: real, costs: real, raffles: seq<Raffle>)

  function BucketProfit(b: Bucket): real {
    b.sales - b.costs
  }

  function KeyIs(key: Raffle -> string, k: string): Raffle -> bool {
    (r: Raffle) => key(r) == k
  }

  /** The bucket `k` should hold: its raffles in order, and the sums of their sales and costs. */
  function GroupOf(raffles: seq<Raffle>, key: Raffle -> string, k: string): Bucket {
    var members := Filter(raffles, KeyIs(key, k));
    Bucket(k, Sum(members, RaffleSales), Sum(members, RaffleCosts), members)
  }

  lemma GroupOfAppend(raffles: seq<Raffle>, r: Raffle, key: Raffle -> string, k: string)
    ensures var g := GroupOf(raffles, key, k);
      GroupOf(raffles + [r], key, k)
      == if key(r) == k then g.(sales := g.sales + RaffleSales(r), costs := g.costs + RaffleCosts(r), raffles := g.raffles + [r])
         else g
  {
    if key(r) == k {
      GroupGains(raffles, r, key);
    } else {
      FilterSnoc(raffles, r, KeyIs(key, k));
    }
  }

  /** A raffle of key `k` joins the group of `k`, adding its sales and costs. */
  lemma GroupGains(raffles: seq<Raffle>, r: Raffle, key: Raffle -> string)
    ensures var g := GroupOf(raffles, key, key(r));
      GroupOf(raffles + [r], key, key(r))
      == g.(sales := g.sales + RaffleSales(r), costs := g.costs + RaffleCosts(r), raffles := g.raffles + [r])
  {
    var p := KeyIs(key, key(r));
    var members := Filter(raffles, p);
    FilterSnoc(raffles, r, p);
    SumSnoc(members, r, RaffleSales);
    SumSnoc(members, r, RaffleCosts);
  }

  lemma EmptyGroup(raffles: seq<Raffle>, key: Raffle -> string, k: string)
    requires GroupOf(raffles, key, k).raffles == []
    ensures GroupOf(raffles, key, k) == Bucket(k, 0.0, 0.0, [])
  {
  }

  /**
   * A dictionary filled from `raffles`: `order` lists its keys once each in the order they
   * were added (the order of `Object.entries`), a key has a bucket exactly when some raffle
   * has that key, and every bucket is the group of its key.
   */
  ghost predicate Grouped(dict: map<string, Bucket>, order: seq<string>, raffles: seq<Raffle>, key: Raffle -> string) {
    && (forall i, j :: 0 <= i < j < |order| ==> order[i] != order[j])
    && (forall k :: k in order <==> k in dict)
    && (forall k :: k in dict ==> dict[k] == GroupOf(raffles, key, k))
    && (forall k {:trigger GroupOf(raffles, key, k)} :: k in dict <==> GroupOf(raffles, key, k).raffles != [])
  }

  lemma StepKeysDistinct(dict: map<string, Bucket>, order: seq<string>, done: seq<Raffle>, r: Raffle, key: Raffle -> string)
    requires Grouped(dict, order, done, key)
    ensures var k := key(r); var keys := if k in dict then order else order + [k];
      forall i, j :: 0 <= i < j < |keys| ==> keys[i] != keys[j]
  {
    var k := key(r);
    var keys := if k in dict then order else order + [k];
    forall i, j | 0 <= i < j < |keys| ensures keys[i] != keys[j] {
      if j == |order| {
        assert keys[i] in order;
      }
    }
  }

  lemma StepBuckets(dict: map<string, Bucket>, order: seq<string>, done: seq<Raffle>, r: Raffle, key: Raffle -> string)
    requires Grouped(dict, order, done, key)
    ensures var k := key(r); var grown := dict[k := GroupOf(done + [r], key, k)];
      forall k2 :: k2 in grown ==> grown[k2] == GroupOf(done + [r], key, k2)
  {
    var k := key(r);
    var grown := dict[k := GroupOf(done + [r], key, k)];
    forall k2 | k2 in grown
      ensures grown[k2] == GroupOf(done + [r], key, k2)
    {
      if k2 != k {
        GroupOfAppend(done, r, key, k2);
      }
    }
  }

  lemma StepMembership(dict: map<string, Bucket>, order: seq<string>, done: seq<Raffle>, r: Raffle, key: Raffle -> string)
    requires Grouped(dict, order, done, key)
    ensures var k := key(r); var grown := dict[k := GroupOf(done + [r], key, k)];
      forall k2 {:trigger GroupOf(done + [r], key, k2)} :: k2 in grown <==> GroupOf(done + [r], key, k2).raffles != []
  {
    var k := key(r);
    var grown := dict[k := GroupOf(done + [r], key, k)];
    forall k2
      ensures k2 in grown <==> GroupOf(done + [r], key, k2).raffles != []
    {
      GroupOfAppend(done, r, key, k2);
      if k2 == k {
        assert r in GroupOf(done + [r], key, k2).raffles;
      } else {
        assert GroupOf(done + [r], key, k2) == GroupOf(done, key, k2);
      }
    }
  }

  /** Adding `r` to the bucket of its key, created when missing, keeps the dictionary grouped. */
  lemma GroupedStep(dict: map<string, Bucket>, order: seq<string>, done: seq<Raffle>, r: Raffle, key: Raffle -> string)
    requires Grouped(dict, order, done, key)
    ensures var k := key(r);
      Grouped(dict[k := GroupOf(done + [r], key, k)], if k in dict then order else order + [k], done + [r], key)
  {
    StepKeysDistinct(dict, order, done, r, key);
    StepBuckets(dict, order, done, r, key);
    StepMembership(dict, order, done, r, key);
  }

  /** The bucket of `k` before a step: the existing one, or the fresh `{ sales: 0, costs: 0 }`. */
  lemma BucketBefore(dict: map<string, Bucket>, order: seq<string>, done: seq<Raffle>, key: Raffle -> string, k: string)
    requires Grouped(dict, order, done, key)
    ensures (if k in dict then dict[k] else Bucket(k, 0.0, 0.0, [])) == GroupOf(done, key, k)
  {
    if k !in dict {
      EmptyGroup(done, key, k);
    }
  }

  /** The bucket of `r`'s key after `r` is added to it is the group of that key with `r`. */
  lemma BucketAfter(dict: map<string, Bucket>, order: seq<string>, done: seq<Raffle>, r: Raffle, key: Raffle -> string, b: Bucket)
    requires Grouped(dict, order, done, key)
    requires b == if key(r) in dict then dict[key(r)] else Bucket(key(r), 0.0, 0.0, [])
    ensures b.(sales := b.sales + RaffleSales(r), costs := b.costs + RaffleCosts(r), raffles := b.raffles + [r])
            == GroupOf(done + [r], key, key(r))
  {
    BucketBefore(dict, order, done, key, key(r));
    GroupOfAppend(done, r, key, key(r));
  }

  /**
   * One step of the `forEach`: create the bucket of `r`'s key when it is missing, then add
   * `r`'s sales and costs to it (and, for the monthly page, push `r`).
   */
  method AddToBucket(dict: map<string, Bucket>, order: seq<string>, r: Raffle, key: Raffle -> string, ghost done: seq<Raffle>)
    returns (grown: map<string, Bucket>, keys: seq<string>)
    requires Grouped(dict, order, done, key)
    ensures Grouped(grown, keys, done + [r], key)
    ensures grown == dict[key(r) := GroupOf(done + [r], key, key(r))]
    ensures keys == if key(r) in dict then order else order + [key(r)]
    ensures Sum(Entries(grown, keys), BucketSales) == Sum(Entries(dict, order), BucketSales) + RaffleSales(r)
    ensures Sum(Entries(grown, keys), BucketCosts) == Sum(Entries(dict, order), BucketCosts) + RaffleCosts(r)
  {
    var k := key(r);
    var b: Bucket;
    keys := order;
    if k in dict {
      b := dict[k];
    } else {
      b := Bucket(k, 0.0, 0.0, []);
      keys := order + [k];
    }
    BucketAfter(dict, order, done, r, key, b);
    grown := dict[k := b.(sales := b.sales + RaffleSales(r), costs := b.costs + RaffleCosts(r), raffles := b.raffles + [r])];
    GroupedStep(dict, order, done, r, key);
    StepTotals(dict, order, done, r, key);
  }

  /** Buckets in the order of their keys. */
  function Entries(dict: map<string, Bucket>, order: seq<string>): (rows: seq<Bucket>)
    requires forall k :: k in order ==> k in dict
    ensures |rows| == |order| && forall i :: 0 <= i < |order| ==> rows[i] == dict[order[i]]
  {
    seq(|order|, i requires 0 <= i < |order| => dict[order[i]])
  }

  function BucketSales(b: Bucket): real {
    b.sales
  }

  function BucketCosts(b: Bucket): real {
    b.costs
  }

  /**
   * Updating the bucket of `k` changes the sum of a figure over the entries by that
   * bucket's change; a new key adds its bucket at the end.
   */
  lemma EntriesUpdate(dict: map<string, Bucket>, order: seq<string>, k: string, b: Bucket, f: Bucket -> real)
    requires forall i, j :: 0 <= i < j < |order| ==> order[i] != order[j]
    requires forall k2 :: k2 in order <==> k2 in dict
    ensures k in dict ==> Sum(Entries(dict[k := b], order), f) == Sum(Entries(dict, order), f) - f(dict[k]) + f(b)
    ensures k !in dict ==> Sum(Entries(dict[k := b], order + [k]), f) == Sum(Entries(dict, order), f) + f(b)
  {
    var entries := Entries(dict, order);
    if k in dict {
      var i :| 0 <= i < |order| && order[i] == k;
      assert Entries(dict[k := b], order) == entries[i := b];
      SumUpdate(entries, i, b, f);
    } else {
      assert Entries(dict[k := b], order + [k]) == entries + [b];
      SumAppend(entries, [b], f);
    }
  }

  /** After a step of the `forEach` the buckets' sales and costs add up to one more raffle's. */
  lemma StepTotals(dict: map<string, Bucket>, order: seq<string>, done: seq<Raffle>, r: Raffle, key: Raffle -> string)
    requires Grouped(dict, order, done, key)
    ensures var k := key(r);
      var grown := dict[k := GroupOf(done + [r], key, k)];
      var keys := if k in dict then order else order + [k];
      && Sum(Entries(grown, keys), BucketSales) == Sum(Entries(dict, order), BucketSales) + RaffleSales(r)
      && Sum(Entries(grown, keys), BucketCosts) == Sum(Entries(dict, order), BucketCosts) + RaffleCosts(r)
  {
    var k := key(r);
    BucketBefore(dict, order, done, key, k);
    GroupOfAppend(done, r, key, k);
    EntriesUpdate(dict, order, k, GroupOf(done + [r], key, k), BucketSales);
    EntriesUpdate(dict, order, k, GroupOf(done + [r], key, k), BucketCosts);
  }

  /** Sorting the entries keeps their totals. */
  lemma SortedTotals(rows: seq<Bucket>, less: (Bucket, Bucket) -> bool)
    ensures Sum(Sort(rows, less), BucketSales) == Sum(rows, BucketSales)
    ensures Sum(Sort(rows, less), BucketCosts) == Sum(rows, BucketCosts)
  {
    SumSort(rows, less, BucketSales);
    SumSort(rows, less, BucketCosts);
  }

  // ---------------------------------------------------------------------------
  // Profit margin bar
  // ---------------------------------------------------------------------------

  /**
   * `Math.max(0, Math.min(sales > 0 ? (profit / sales) * 100 : 0, 100))`: the width of the
   * green bar of a report row.
   */
  function ClampedMargin(sales: real, profit: real): (m: real)
    ensures 0.0 <= m <= 100.0
    ensures sales <= 0.0 || profit <= 0.0 ==> m == 0.0
    ensures sales > 0.0 && profit >= sales ==> m == 100.0
    ensures sales > 0.0 && 0.0 <= profit <= sales ==> m * sales == profit * 100.0
  {
    var margin := if sales > 0.0 then (profit / sales) * 100.0 else 0.0;
    var capped := if margin < 100.0 then margin else 100.0;
    if 0.0 > capped then 0.0 else capped
  }

  // ---------------------------------------------------------------------------
  // Sorted reports
  // ---------------------------------------------------------------------------

  /**
   * `rows` is the report of `raffles` grouped by `key`: one bucket per key, each the group
   * of its key and none empty, every raffle's bucket present, ordered by `less`.
   */
  ghost predicate Reported(rows: seq<Bucket>, raffles: seq<Raffle>, key: Raffle -> string, less: (Bucket, Bucket) -> bool) {
    && (forall i, j :: 0 <= i < j < |rows| ==> rows[i].key != rows[j].key)
    && (forall b :: b in rows ==> b == GroupOf(raffles, key, b.key) && b.raffles != [])
    && (forall r :: r in raffles ==> GroupOf(raffles, key, key(r)) in rows)
    && Sorted(rows, less)
  }

  /** The entries of a filled dictionary: distinct groups, none empty, one for every raffle. */
  lemma EntriesAreGroups(dict: map<string, Bucket>, order: seq<string>, raffles: seq<Raffle>, key: Raffle -> string)
    requires Grouped(dict, order, raffles, key)
    ensures Distinct(Entries(dict, order))
    ensures forall b :: b in Entries(dict, order) ==> b == GroupOf(raffles, key, b.key) && b.raffles != []
    ensures forall r :: r in raffles ==> GroupOf(raffles, key, key(r)) in Entries(dict, order)
  {
    var entries := Entries(dict, order);
    forall i, j | 0 <= i < j < |entries| ensures entries[i] != entries[j] {
      assert entries[i].key == order[i];
    }
    forall b | b in entries ensures b == GroupOf(raffles, key, b.key) && b.raffles != [] {
      var i :| 0 <= i < |entries| && entries[i] == b;
      assert order[i] in dict;
    }
    forall r | r in raffles ensures GroupOf(raffles, key, key(r)) in entries {
      assert r in GroupOf(raffles, key, key(r)).raffles;
      assert key(r) in order;
      var i :| 0 <= i < |order| && order[i] == key(r);
      assert entries[i] == GroupOf(raffles, key, key(r));
    }
  }

  /** Reordering distinct groups keeps them distinct groups, and keeps every raffle's group. */
  lemma ReorderedGroups(entries: seq<Bucket>, rows: seq<Bucket>, raffles: seq<Raffle>, key: Raffle -> string)
    requires multiset(rows) == multiset(entries) && Distinct(entries)
    requires forall b :: b in entries ==> b == GroupOf(raffles, key, b.key) && b.raffles != []
    requires forall r :: r in raffles ==> GroupOf(raffles, key, key(r)) in entries
    ensures forall i, j :: 0 <= i < j < |rows| ==> rows[i].key != rows[j].key
    ensures forall b :: b in rows ==> b == GroupOf(raffles, key, b.key) && b.raffles != []
    ensures forall r :: r in raffles ==> GroupOf(raffles, key, key(r)) in rows
  {
    PermutationMembers(entries, rows);
    DistinctCounts(entries);
    DistinctCounts(rows);
    forall i, j | 0 <= i < j < |rows| ensures rows[i].key != rows[j].key {
      assert rows[i] in entries && rows[j] in entries;
    }
  }

  /** Sorting the entries of a filled dictionary gives its report. */
  lemma SortedEntriesReported(dict: map<string, Bucket>, order: seq<string>, raffles: seq<Raffle>,
                              key: Raffle -> string, less: (Bucket, Bucket) -> bool)
    requires Grouped(dict, order, raffles, key) && StrictWeakOrder(less)
    ensures Reported(Sort(Entries(dict, order), less), raffles, key, less)
  {
    var entries := Entries(dict, order);
    EntriesAreGroups(dict, order, raffles, key);
    SortSorted(entries, less);
    ReorderedGroups(entries, Sort(entries, less), raffles, key);
  }

  /** `Object.entries(dict).map(...).sort(cmp)`: the report of a filled dictionary. */
  method SortEntries(dict: map<string, Bucket>, order: seq<string>, ghost raffles: seq<Raffle>,
                     key: Raffle -> string, less: (Bucket, Bucket) -> bool)
    returns (rows: seq<Bucket>)
    requires Grouped(dict, order, raffles, key) && StrictWeakOrder(less)
    ensures Reported(rows, raffles, key, less)
    ensures Sum(rows, BucketSales) == Sum(Entries(dict, order), BucketSales)
    ensures Sum(rows, BucketCosts) == Sum(Entries(dict, order), BucketCosts)
  {
    rows := Sort(Entries(dict, order), less);
    SortedEntriesReported(dict, order, raffles, key, less);
    SortedTotals(Entries(dict, order), less);
  }

  /** In a report every raffle is in exactly one bucket: the one of its own key. */
  lemma OneBucketPerRaffle(rows: seq<Bucket>, raffles: seq<Raffle>, key: Raffle -> string, less: (Bucket, Bucket) -> bool, r: Raffle)
    requires Reported(rows, raffles, key, less) && r in raffles
    ensures GroupOf(raffles, key, key(r)) in rows
    ensures forall b :: b in rows ==> (r in b.raffles <==> b.key == key(r))
  {
  }

  /** Two rows of a report, the raffles they hold, and the order of their keys. */
  lemma RowsInOrder(rows: seq<Bucket>, raffles: seq<Raffle>, key: Raffle -> string, less: (Bucket, Bucket) -> bool,
                    i: int, j: int, a: Raffle, b: Raffle)
    requires Reported(rows, raffles, key, less)
    requires 0 <= i < j < |rows| && a in rows[i].raffles && b in rows[j].raffles
    ensures rows[i].key == key(a) && rows[j].key == key(b) && key(a) != key(b)
    ensures !less(rows[j], rows[i])
  {
    assert rows[i] in rows && rows[j] in rows;
  }

  /** The comparator `b.profit - a.profit`: the bucket with the larger profit first. */
  predicate ByProfit(a: Bucket, b: Bucket) {
    BucketProfit(a) > BucketProfit(b)
  }

  /** The comparator `b.originalKey.localeCompare(a.originalKey)`: the larger key first. */
  predicate ByKeyDescending(a: Bucket, b: Bucket) {
    StringLess(b.key, a.key)
  }

  lemma ByProfitIsStrictWeakOrder()
    ensures StrictWeakOrder(ByProfit)
  {
  }

  lemma ByKeyDescendingIsStrictWeakOrder()
    ensures StrictWeakOrder(ByKeyDescending)
  {
    forall a: Bucket, b: Bucket | ByKeyDescending(a, b) ensures !ByKeyDescending(b, a) {
      if ByKeyDescending(b, a) {
        StringLessTransitive(a.key, b.key, a.key);
        StringLessIrreflexive(a.key);
      }
    }
    forall a: Bucket, b: Bucket, c: Bucket | !ByKeyDescending(a, b) && !ByKeyDescending(b, c)
      ensures !ByKeyDescending(a, c)
    {
      if a.key != b.key {
        StringLessTotal(a.key, b.key);
      }
      if b.key != c.key {
        StringLessTotal(b.key, c.key);
      }
      if ByKeyDescending(a, c) {
        if a.key != b.key && b.key != c.key {
          StringLessTransitive(a.key, b.key, c.key);
          StringLessTransitive(a.key, c.key, a.key);
          StringLessIrreflexive(a.key);
        }
      }
    }
  }

  /** The month key of a raffle's day. */
  function MonthOf(r: Raffle): string {
    MonthKey(r.date)
  }

  /**
   * In a month report sorted by key, for four-digit years, every raffle of an earlier row
   * falls in a later month than every raffle of a later row.
   */
  lemma MonthRowsLatestFirst(rows: seq<Bucket>, raffles: seq<Raffle>, i: int, j: int, a: Raffle, b: Raffle)
    requires Reported(rows, raffles, MonthOf, ByKeyDescending)
    requires forall r :: r in raffles ==> FourDigitDate(r.date)
    requires 0 <= i < j < |rows| && a in rows[i].raffles && b in rows[j].raffles
    ensures MonthBefore(b.date, a.date)
  {
    RowsInOrder(rows, raffles, MonthOf, ByKeyDescending, i, j, a, b);
    assert a in raffles && b in raffles by {
      assert rows[i] in rows && rows[j] in rows;
    }
    StringLessTotal(rows[i].key, rows[j].key);
    MonthKeyOrder(b.date, a.date);
  }
}
