/**
 * The array operations the pages are built from: `filter`, `find`, `map`, `reduce` into a sum, and the
 * stable `sort` of JavaScript arrays with a comparator.
 */
module Seqs {
  import opened Wrappers


  /** `r` is `s` with some elements left out and the rest in their original order. */
  predicate Subsequence<T(==)>(r: seq<T>, s: seq<T>)
    decreases |s|
  {
    if r == [] then true
    else if s == [] then false
    else if r[0] == s[0] then Subsequence(r[1..], s[1..])
    else Subsequence(r, s[1..])
  }

  lemma {:induction false} SubsequenceOfTail<T>(r: seq<T>, s: seq<T>)
    requires s != [] && Subsequence(r, s[1..])
    ensures Subsequence(r, s)
    decreases |s|, 0
  {
    if r != [] && r[0] == s[0] {
      SubsequenceDropHead(r, s[1..]);
    }
  }

  lemma {:induction false} SubsequenceDropHead<T>(r: seq<T>, t: seq<T>)
    requires r != [] && Subsequence(r, t)
    ensures Subsequence(r[1..], t)
    decreases |t|, 1
  {
    if r[0] == t[0] {
      SubsequenceOfTail(r[1..], t);
    } else {
      SubsequenceDropHead(r, t[1..]);
      SubsequenceOfTail(r[1..], t);
    }
  }

  /** `s.filter(p)`. */
  function Filter<T(!new)>(s: seq<T>, p: T -> bool): (r: seq<T>)
    ensures |r| <= |s|
    ensures Subsequence(r, s)
    ensures forall x :: x in r <==> x in s && p(x)
    ensures forall x :: multiset(r)[x] == if p(x) then multiset(s)[x] else 0
    decreases |s|
  {
    if s == [] then []
    else
      var rest := Filter(s[1..], p);
      assert s == [s[0]] + s[1..];
      if p(s[0]) then [s[0]] + rest
      else
        SubsequenceOfTail(rest, s);
        rest
  }

  /** A filter that keeps every element returns the whole sequence. */
  lemma {:induction false} FilterKeepsAll<T(!new)>(s: seq<T>, p: T -> bool)
    requires forall x :: x in s ==> p(x)
    ensures Filter(s, p) == s
    decreases |s|
  {
    if s != [] {
      assert forall x :: x in s[1..] ==> x in s;
      FilterKeepsAll(s[1..], p);
    }
  }

  /** Every element of a subsequence is an element of the whole. */
  lemma {:induction false} SubsequenceMembers<T>(r: seq<T>, s: seq<T>)
    requires Subsequence(r, s)
    ensures forall x :: x in r ==> x in s
    decreases |s|
  {
    if r != [] {
      if r[0] == s[0] {
        SubsequenceMembers(r[1..], s[1..]);
        assert forall x :: x in r ==> x == r[0] || x in r[1..];
      } else {
        SubsequenceMembers(r, s[1..]);
      }
    }
  }

  /** Leaving elements out of an ordered sequence keeps it ordered. */
  lemma {:induction false} SubsequenceSorted<T>(r: seq<T>, s: seq<T>, less: (T, T) -> bool)
    requires Subsequence(r, s) && Sorted(s, less)
    ensures Sorted(r, less)
    decreases |s|
  {
    if r != [] {
      assert Sorted(s[1..], less) by {
        forall i, j | 0 <= i < j < |s[1..]| ensures !less(s[1..][j], s[1..][i]) {
          assert s[1..][j] == s[j + 1] && s[1..][i] == s[i + 1];
        }
      }
      if r[0] == s[0] {
        SubsequenceSorted(r[1..], s[1..], less);
        SubsequenceMembers(r[1..], s[1..]);
        forall i, j | 0 <= i < j < |r| ensures !less(r[j], r[i]) {
          if i == 0 {
            assert r[j] in r[1..];
            var k :| 0 <= k < |s[1..]| && s[1..][k] == r[j];
            assert s[k + 1] == r[j];
          } else {
            assert r[j] == r[1..][j - 1] && r[i] == r[1..][i - 1];
          }
        }
      } else {
        SubsequenceSorted(r, s[1..], less);
      }
    }
  }

  /** Two sequences with the same multiset have the same members. */
  lemma PermutationMembers<T>(s: seq<T>, t: seq<T>)
    requires multiset(s) == multiset(t)
    ensures forall x :: x in s <==> x in t
  {
    forall x ensures x in s <==> x in t {
      assert x in s <==> x in multiset(s);
      assert x in t <==> x in multiset(t);
    }
  }

  /** No element occurs twice. */
  predicate Distinct<T(==)>(s: seq<T>) {
    forall i, j :: 0 <= i < j < |s| ==> s[i] != s[j]
  }

  lemma {:induction false} DistinctCounts<T>(s: seq<T>)
    ensures Distinct(s) <==> forall x :: multiset(s)[x] <= 1
    decreases |s|
  {
    if s != [] {
      DistinctCounts(s[1..]);
      assert s == [s[0]] + s[1..];
      assert multiset(s) == multiset{s[0]} + multiset(s[1..]);
      if Distinct(s) {
        assert Distinct(s[1..]) by {
          forall i, j | 0 <= i < j < |s[1..]| ensures s[1..][i] != s[1..][j] {
            assert s[1..][i] == s[i + 1] && s[1..][j] == s[j + 1];
          }
        }
        assert s[0] !in s[1..];
      } else {
        var i, j :| 0 <= i < j < |s| && s[i] == s[j];
        if i == 0 {
          assert s[j] in s[1..];
          assert multiset(s)[s[0]] >= 2;
        } else {
          assert s[1..][i - 1] == s[1..][j - 1];
          assert !Distinct(s[1..]);
          var x :| multiset(s[1..])[x] > 1;
          assert multiset(s)[x] > 1;
        }
      }
    }
  }

  /** Mapping the elements that pass `p`: everything passing is there, and nothing else. */
  lemma MapFilterMembers<T(!new), U>(s: seq<T>, p: T -> bool, f: T -> U)
    ensures forall x :: x in s && p(x) ==> f(x) in Map(Filter(s, p), f)
    ensures forall y :: y in Map(Filter(s, p), f) ==> exists x :: x in s && p(x) && f(x) == y
  {
    var r := Filter(s, p);
    forall x | x in s && p(x) ensures f(x) in Map(r, f) {
      var k :| 0 <= k < |r| && r[k] == x;
      assert Map(r, f)[k] == f(x);
    }
    forall y | y in Map(r, f) ensures exists x :: x in s && p(x) && f(x) == y {
      var k :| 0 <= k < |r| && Map(r, f)[k] == y;
      assert r[k] in r;
    }
  }

  lemma {:induction false} FilterAppend<T(!new)>(s: seq<T>, t: seq<T>, p: T -> bool)
    ensures Filter(s + t, p) == Filter(s, p) + Filter(t, p)
  {
    if s == [] {
      assert s + t == t;
    } else {
      var x, rest := s[0], s[1..];
      assert s == [x] + rest && s + t == [x] + (rest + t);
      FilterCons(x, rest + t, p);
      FilterCons(x, rest, p);
      FilterAppend(rest, t, p);
      ConcatAssociative([x], Filter(rest, p), Filter(t, p));
    }
  }

  /** Filtering a sequence that starts with `x` keeps `x` in front when it passes. */
  lemma FilterCons<T(!new)>(x: T, s: seq<T>, p: T -> bool)
    ensures Filter([x] + s, p) == if p(x) then [x] + Filter(s, p) else Filter(s, p)
  {
    assert ([x] + s)[0] == x && ([x] + s)[1..] == s;
  }

  lemma ConcatAssociative<T>(a: seq<T>, b: seq<T>, c: seq<T>)
    ensures a + (b + c) == a + b + c
  {
  }

  /** Filtering one element keeps it exactly when it passes. */
  lemma FilterSingleton<T(!new)>(x: T, p: T -> bool)
    ensures Filter([x], p) == if p(x) then [x] else []
  {
    assert [x][1..] == [];
  }

  /** Filtering a sequence with one more element appends that element when it passes. */
  lemma FilterSnoc<T(!new)>(s: seq<T>, x: T, p: T -> bool)
    ensures Filter(s + [x], p) == if p(x) then Filter(s, p) + [x] else Filter(s, p)
  {
    FilterAppend(s, [x], p);
    FilterSingleton(x, p);
    assert Filter(s, p) + [] == Filter(s, p);
  }

  /** `s.map(f)`. */
  function Map<T, U>(s: seq<T>, f: T -> U): (r: seq<U>)
    ensures |r| == |s|
    ensures forall i :: 0 <= i < |s| ==> r[i] == f(s[i])
  {
    seq(|s|, i requires 0 <= i < |s| => f(s[i]))
  }

  /** Mapping distributes over concatenation. */
  lemma MapAppend<T, U>(s: seq<T>, t: seq<T>, f: T -> U)
    ensures Map(s + t, f) == Map(s, f) + Map(t, f)
  {
    assert forall i :: 0 <= i < |s + t| ==> Map(s + t, f)[i] == (Map(s, f) + Map(t, f))[i];
  }

  /** Mapping two permutations of each other gives two permutations of each other. */
  lemma {:induction false} MapPermutation<T, U>(s: seq<T>, t: seq<T>, f: T -> U)
    requires multiset(s) == multiset(t)
    ensures multiset(Map(s, f)) == multiset(Map(t, f))
    decreases |s|
  {
    if s == [] {
      assert |multiset(t)| == 0;
    } else {
      var x := s[0];
      assert x in multiset(t);
      var k :| 0 <= k < |t| && t[k] == x;
      var rest := t[..k] + t[k + 1..];
      assert t == t[..k] + [x] + t[k + 1..];
      assert multiset(t) == multiset(rest) + multiset{x};
      assert s == [x] + s[1..];
      assert multiset(s) == multiset{x} + multiset(s[1..]);
      assert multiset(s[1..]) == multiset(s) - multiset{x} == multiset(rest);
      MapPermutation(s[1..], rest, f);
      MapAppend([x], s[1..], f);
      MapAppend(t[..k] + [x], t[k + 1..], f);
      MapAppend(t[..k], [x], f);
      MapAppend(t[..k], t[k + 1..], f);
    }
  }

  /** `s.reduce((sum, x) => sum + f(x), 0)` over amounts. */
  function Sum<T>(s: seq<T>, f: T -> real): real
    decreases |s|
  {
    if s == [] then 0.0 else f(s[0]) + Sum(s[1..], f)
  }

  /** The same fold over whole numbers (ticket quantities). */
  function SumInt<T>(s: seq<T>, f: T -> int): int
    decreases |s|
  {
    if s == [] then 0 else f(s[0]) + SumInt(s[1..], f)
  }

  lemma {:induction false} SumAppend<T>(s: seq<T>, t: seq<T>, f: T -> real)
    ensures Sum(s + t, f) == Sum(s, f) + Sum(t, f)
  {
    if s == [] {
      assert s + t == t;
    } else {
      assert (s + t)[1..] == s[1..] + t;
      SumAppend(s[1..], t, f);
    }
  }

  /** Appending one element adds its value to the sum. */
  lemma SumSnoc<T>(s: seq<T>, x: T, f: T -> real)
    ensures Sum(s + [x], f) == Sum(s, f) + f(x)
  {
    SumAppend(s, [x], f);
    assert [x][1..] == [];
  }

  /** Summing after a filter is summing the elements the filter keeps and zero for the rest. */
  lemma {:induction false} SumFilter<T(!new)>(s: seq<T>, p: T -> bool, f: T -> real)
    ensures Sum(Filter(s, p), f) == Sum(s, x => if p(x) then f(x) else 0.0)
  {
    if s != [] {
      SumFilter(s[1..], p, f);
    }
  }

  /** Two summands that agree on every element give the same sum. */
  lemma {:induction false} SumPointwise<T>(s: seq<T>, f: T -> real, g: T -> real)
    requires forall x :: x in s ==> f(x) == g(x)
    ensures Sum(s, f) == Sum(s, g)
  {
    if s != [] {
      SumPointwise(s[1..], f, g);
    }
  }

  /** Summing the sum of two functions gives the sum of the sums. */
  lemma {:induction false} SumAdd<T>(s: seq<T>, f: T -> real, g: T -> real)
    ensures Sum(s, x => f(x) + g(x)) == Sum(s, f) + Sum(s, g)
  {
    if s != [] {
      SumAdd(s[1..], f, g);
    }
  }

  /** Summing the difference of two functions gives the difference of the sums. */
  lemma {:induction false} SumSubtract<T>(s: seq<T>, f: T -> real, g: T -> real)
    ensures Sum(s, x => f(x) - g(x)) == Sum(s, f) - Sum(s, g)
  {
    if s != [] {
      SumSubtract(s[1..], f, g);
    }
  }

  /** A summand that is nowhere larger gives a sum that is no larger. */
  lemma {:induction false} SumMonotone<T>(s: seq<T>, f: T -> real, g: T -> real)
    requires forall x :: x in s ==> f(x) <= g(x)
    ensures Sum(s, f) <= Sum(s, g)
  {
    if s != [] {
      SumMonotone(s[1..], f, g);
    }
  }

  /** A sum of summands none of which is negative is not negative. */
  lemma {:induction false} SumNonNegative<T>(s: seq<T>, f: T -> real)
    requires forall x :: x in s ==> f(x) >= 0.0
    ensures Sum(s, f) >= 0.0
  {
    if s != [] {
      SumNonNegative(s[1..], f);
    }
  }

  /** The prefixes a loop over `s` walks through: one more element each step, all of `s` at the end. */
  lemma PrefixStep<T>(s: seq<T>, i: int)
    requires 0 <= i <= |s|
    ensures i < |s| ==> s[..i + 1] == s[..i] + [s[i]]
    ensures i == |s| ==> s[..i] == s
  {
  }

  /** The running total after one more element of a loop over `s`. */
  lemma SumPrefix<T>(s: seq<T>, i: int, f: T -> real)
    requires 0 <= i < |s|
    ensures Sum(s[..i + 1], f) == Sum(s[..i], f) + f(s[i])
  {
    assert s[..i + 1] == s[..i] + [s[i]];
    SumAppend(s[..i], [s[i]], f);
  }

  /** Replacing one element changes the sum by the difference of the two summands. */
  lemma SumUpdate<T>(s: seq<T>, i: int, x: T, f: T -> real)
    requires 0 <= i < |s|
    ensures Sum(s[i := x], f) == Sum(s, f) - f(s[i]) + f(x)
  {
    assert s == s[..i] + [s[i]] + s[i + 1..];
    assert s[i := x] == s[..i] + [x] + s[i + 1..];
    SumAppend(s[..i] + [s[i]], s[i + 1..], f);
    SumAppend(s[..i] + [x], s[i + 1..], f);
    SumAppend(s[..i], [s[i]], f);
    SumAppend(s[..i], [x], f);
  }

  // ---------------------------------------------------------------------------
  // Stable sort with a comparator
  // ---------------------------------------------------------------------------

  /**
   * A comparator `cmp` passed to `Array.prototype.sort` is modelled by `less(a, b)`, which
   * holds when `cmp(a, b) < 0`: `a` must come before `b`. The sort is well defined when this
   * is a strict weak order: asymmetric, and "not before" is transitive.
   */
  ghost predicate StrictWeakOrder<T(!new)>(less: (T, T) -> bool) {
    && (forall a, b :: less(a, b) ==> !less(b, a))
    && (forall a, b, c :: !less(a, b) && !less(b, c) ==> !less(a, c))
  }

  /** No element is strictly before an element that precedes it. */
  predicate Sorted<T>(s: seq<T>, less: (T, T) -> bool) {
    forall i, j :: 0 <= i < j < |s| ==> !less(s[j], s[i])
  }

  /** Puts `x` in front of the first element it does not have to follow. */
  function Insert<T>(x: T, s: seq<T>, less: (T, T) -> bool): (r: seq<T>)
    ensures multiset(r) == multiset(s) + multiset{x}
    ensures |r| == |s| + 1
    decreases |s|
  {
    if s == [] || !less(s[0], x) then [x] + s
    else
      assert s == [s[0]] + s[1..];
      [s[0]] + Insert(x, s[1..], less)
  }

  /** `[...s].sort(cmp)`: insertion sort, which keeps equal elements in their original order. */
  function Sort<T>(s: seq<T>, less: (T, T) -> bool): (r: seq<T>)
    ensures multiset(r) == multiset(s)
    ensures |r| == |s|
    decreases |s|
  {
    if s == [] then []
    else
      assert s == [s[0]] + s[1..];
      Insert(s[0], Sort(s[1..], less), less)
  }

  lemma {:induction false} SumInsert<T>(x: T, s: seq<T>, less: (T, T) -> bool, f: T -> real)
    ensures Sum(Insert(x, s, less), f) == f(x) + Sum(s, f)
    decreases |s|
  {
    if s == [] || !less(s[0], x) {
      assert ([x] + s)[1..] == s;
    } else {
      SumInsert(x, s[1..], less, f);
      assert ([s[0]] + Insert(x, s[1..], less))[1..] == Insert(x, s[1..], less);
    }
  }

  /** Sorting does not change a sum. */
  lemma {:induction false} SumSort<T>(s: seq<T>, less: (T, T) -> bool, f: T -> real)
    ensures Sum(Sort(s, less), f) == Sum(s, f)
    decreases |s|
  {
    if s != [] {
      SumSort(s[1..], less, f);
      SumInsert(s[0], Sort(s[1..], less), less, f);
    }
  }

  /** Two comparators that agree on the elements involved insert in the same place. */
  lemma {:induction false} InsertAgree<T>(x: T, s: seq<T>, less: (T, T) -> bool, other: (T, T) -> bool)
    requires forall a, b :: a in [x] + s && b in [x] + s ==> less(a, b) == other(a, b)
    ensures Insert(x, s, less) == Insert(x, s, other)
    decreases |s|
  {
    if s != [] {
      assert s[0] in [x] + s;
      assert forall a :: a in [x] + s[1..] ==> a in [x] + s;
      InsertAgree(x, s[1..], less, other);
    }
  }

  /** Every element of the sorted sequence comes from the input. */
  lemma SortedFrom<T>(s: seq<T>, less: (T, T) -> bool, a: T)
    requires a in Sort(s, less)
    ensures a in s
  {
    assert a in multiset(Sort(s, less));
  }

  /** Two comparators that agree on the elements of `s` sort it alike. */
  lemma {:induction false} SortAgree<T>(s: seq<T>, less: (T, T) -> bool, other: (T, T) -> bool)
    requires forall a, b :: a in s && b in s ==> less(a, b) == other(a, b)
    ensures Sort(s, less) == Sort(s, other)
    decreases |s|
  {
    if s != [] {
      var x, tail := s[0], s[1..];
      assert forall a :: a in tail ==> a in s;
      SortAgree(tail, less, other);
      var rest := Sort(tail, less);
      forall a | a in [x] + rest ensures a in s {
        if a != x {
          SortedFrom(tail, less, a);
        }
      }
      InsertAgree(x, rest, less, other);
    }
  }

  lemma {:induction false} InsertSorted<T(!new)>(x: T, s: seq<T>, less: (T, T) -> bool)
    requires StrictWeakOrder(less) && Sorted(s, less)
    ensures Sorted(Insert(x, s, less), less)
    decreases |s|
  {
    if s == [] || !less(s[0], x) {
      var r := [x] + s;
      forall i, j | 0 <= i < j < |r| ensures !less(r[j], r[i]) {
        if i == 0 && j > 1 {
          assert !less(r[j], r[1]);
        }
      }
    } else {
      InsertSorted(x, s[1..], less);
      var rest := Insert(x, s[1..], less);
      var r := [s[0]] + rest;
      assert forall y :: y in multiset(rest) ==> y == x || y in s[1..];
      forall j | 0 < j < |r| ensures !less(r[j], r[0]) {
        assert r[j] in multiset(rest);
        if r[j] != x {
          var k :| 0 <= k < |s[1..]| && s[1..][k] == r[j];
          assert s[k + 1] == r[j];
        }
      }
    }
  }

  /** The sort's output is ordered by the comparator. */
  lemma {:induction false} SortSorted<T(!new)>(s: seq<T>, less: (T, T) -> bool)
    requires StrictWeakOrder(less)
    ensures Sorted(Sort(s, less), less)
    decreases |s|
  {
    if s != [] {
      SortSorted(s[1..], less);
      InsertSorted(s[0], Sort(s[1..], less), less);
    }
  }

  /** Sorting the elements that pass `p`: ordered, exactly those elements, each as often as in `s`. */
  lemma SortedSelection<T(!new)>(s: seq<T>, p: T -> bool, less: (T, T) -> bool)
    requires StrictWeakOrder(less)
    ensures Sorted(Sort(Filter(s, p), less), less)
    ensures forall x :: x in Sort(Filter(s, p), less) <==> x in s && p(x)
    ensures forall x :: multiset(Sort(Filter(s, p), less))[x] == if p(x) then multiset(s)[x] else 0
  {
    SortSorted(Filter(s, p), less);
    var r := Sort(Filter(s, p), less);
    forall x ensures x in r <==> x in s && p(x) {
      assert x in r <==> x in multiset(r);
      assert x in Filter(s, p) <==> x in multiset(Filter(s, p));
    }
  }

  // ---------------------------------------------------------------------------
  // Search
  // ---------------------------------------------------------------------------

  /** `s.find(p)`: the first element that passes `p`, if any. */
  function Find<T>(s: seq<T>, p: T -> bool): (r: Option<T>)
    ensures r.Some? <==> exists i :: 0 <= i < |s| && p(s[i])
    ensures r.Some? ==> r.value in s && p(r.value)
    ensures r.Some? ==> exists i :: (0 <= i < |s| && s[i] == r.value && forall j :: 0 <= j < i ==> !p(s[j]))
  {
    if |s| == 0 then None
    else if p(s[0]) then Some(s[0])
    else
      var r := Find(s[1..], p);
      assert r.Some? ==> exists i :: (0 <= i < |s| && s[i] == r.value && forall j :: 0 <= j < i ==> !p(s[j]))
      by {
        if r.Some? {
          var i :| 0 <= i < |s[1..]| && s[1..][i] == r.value && forall j :: 0 <= j < i ==> !p(s[1..][j]);
          assert s[i + 1] == r.value;
        }
      }
      r
  }

  /** Ordering by a key, largest key first (`(a, b) => key(b) - key(a)`), is a strict weak order. */
  lemma KeyDescending<T(!new)>(key: T -> real)
    ensures StrictWeakOrder((a: T, b: T) => key(a) > key(b))
  {
  }
}
