// Generic sequence vocabulary shared by every module: optional values,
// filters (Array.prototype.filter), subsequences, sums and counts
// (Array.prototype.reduce), distinct values (a JS Set built from an array)
// and a stable insertion sort that stands for Array.prototype.sort.

module Seqs {

  datatype Option<T> = None | Some(value: T)

  // ---------------------------------------------------------------- filter

  /** Array.prototype.filter: the elements satisfying p, in their order. */
  function Filter<T>(s: seq<T>, p: T -> bool): (r: seq<T>)
    ensures |r| <= |s|
    ensures forall i :: 0 <= i < |r| ==> p(r[i])
  {
    if s == [] then [] else (if p(s[0]) then [s[0]] else []) + Filter(s[1..], p)
  }

  /** An element survives the filter exactly when it is in s and satisfies p. */
  lemma {:induction false} FilterMembers<T>(s: seq<T>, p: T -> bool)
    ensures forall x :: x in Filter(s, p) <==> x in s && p(x)
  {
    if s != [] {
      FilterMembers(s[1..], p);
      assert s == [s[0]] + s[1..];
    }
  }

  /** r can be obtained from s by deleting elements (order kept, nothing added). */
  predicate SubseqOf<T(==)>(r: seq<T>, s: seq<T>)
    decreases |s|
  {
    if r == [] then true
    else if s == [] then false
    else if r[0] == s[0] then SubseqOf(r[1..], s[1..])
    else SubseqOf(r, s[1..])
  }

  /** Dropping the first element of r keeps it a subsequence. */
  lemma {:induction false} SubseqDropHead<T>(r: seq<T>, s: seq<T>)
    requires r != [] && SubseqOf(r, s)
    ensures SubseqOf(r[1..], s)
    decreases |s|, 1
  {
    assert [s[0]] + s[1..] == s;
    if r[0] == s[0] {
      SubseqExtend(r[1..], s[1..], s[0]);
    } else {
      SubseqDropHead(r, s[1..]);
      SubseqExtend(r[1..], s[1..], s[0]);
    }
  }

  /** Putting an extra element in front of s keeps r a subsequence. */
  lemma {:induction false} SubseqExtend<T>(r: seq<T>, s: seq<T>, x: T)
    requires SubseqOf(r, s)
    ensures SubseqOf(r, [x] + s)
    decreases |s| + 1, 0
  {
    var xs := [x] + s;
    assert xs[1..] == s;
    if r != [] && r[0] == x {
      SubseqDropHead(r, s);
    }
  }

  lemma {:induction false} SubseqRefl<T>(s: seq<T>)
    ensures SubseqOf(s, s)
  {
    if s != [] {
      SubseqRefl(s[1..]);
    }
  }

  /** A prefix of a subsequence is a subsequence. */
  lemma {:induction false} SubseqPrefix<T>(r: seq<T>, s: seq<T>, n: nat)
    requires SubseqOf(r, s) && n <= |r|
    ensures SubseqOf(r[..n], s)
    decreases |s|
  {
    if n > 0 {
      if r[0] == s[0] {
        SubseqPrefix(r[1..], s[1..], n - 1);
        assert r[..n][1..] == r[1..][..n - 1];
      } else {
        SubseqPrefix(r, s[1..], n);
      }
    }
  }

  /** The result of Filter is a subsequence of its input. */
  lemma {:induction false} FilterIsSubseq<T>(s: seq<T>, p: T -> bool)
    ensures SubseqOf(Filter(s, p), s)
  {
    if s != [] {
      FilterIsSubseq(s[1..], p);
      if p(s[0]) {
        assert Filter(s, p) == [s[0]] + Filter(s[1..], p);
        assert ([s[0]] + Filter(s[1..], p))[1..] == Filter(s[1..], p);
      } else {
        assert Filter(s, p) == Filter(s[1..], p);
        SubseqExtend(Filter(s[1..], p), s[1..], s[0]);
        assert [s[0]] + s[1..] == s;
      }
    }
  }

  lemma {:induction false} FilterAll<T>(s: seq<T>, p: T -> bool)
    requires forall i :: 0 <= i < |s| ==> p(s[i])
    ensures Filter(s, p) == s
  {
    if s != [] {
      FilterAll(s[1..], p);
    }
  }

  lemma {:induction false} FilterAppend<T>(a: seq<T>, b: seq<T>, p: T -> bool)
    ensures Filter(a + b, p) == Filter(a, p) + Filter(b, p)
  {
    if a == [] {
      assert a + b == b;
    } else {
      assert (a + b)[1..] == a[1..] + b;
      FilterAppend(a[1..], b, p);
    }
  }

  /** Filtering twice is filtering by the conjunction pq of the two predicates. */
  lemma {:induction false} FilterFilter<T>(s: seq<T>, p: T -> bool, q: T -> bool, pq: T -> bool)
    requires forall x :: pq(x) == (p(x) && q(x))
    ensures Filter(Filter(s, p), q) == Filter(s, pq)
  {
    if s != [] {
      FilterFilter(s[1..], p, q, pq);
      if p(s[0]) {
        assert Filter(s, p) == [s[0]] + Filter(s[1..], p);
        FilterAppend([s[0]], Filter(s[1..], p), q);
        assert [s[0]][1..] == [];
      } else {
        assert !pq(s[0]);
        assert Filter(s, p) == Filter(s[1..], p);
        assert Filter(s, pq) == Filter(s[1..], pq);
      }
    }
  }

  /** The first element of a filter is the first element that satisfies p. */
  lemma {:induction false} FilterHead<T>(s: seq<T>, p: T -> bool, i: nat)
    requires i < |s| && p(s[i])
    ensures Filter(s, p) != []
    ensures exists k :: 0 <= k <= i && p(s[k]) && Filter(s, p)[0] == s[k] && (forall m :: 0 <= m < k ==> !p(s[m]))
  {
    if !p(s[0]) {
      FilterHead(s[1..], p, i - 1);
      var k :| 0 <= k <= i - 1 && p(s[1..][k]) && Filter(s[1..], p)[0] == s[1..][k] && (forall m :: 0 <= m < k ==> !p(s[1..][m]));
      assert forall m :: 0 <= m < k + 1 ==> !p(s[m]) by {
        forall m | 0 <= m < k + 1 ensures !p(s[m]) {
          if m > 0 { assert s[m] == s[1..][m - 1]; }
        }
      }
      assert p(s[k + 1]) && Filter(s, p)[0] == s[k + 1];
    }
  }

  /** A filter selects nothing exactly when no element satisfies p. */
  lemma FilterEmpty<T>(s: seq<T>, p: T -> bool)
    ensures Filter(s, p) == [] <==> forall i :: 0 <= i < |s| ==> !p(s[i])
  {
    if exists i :: 0 <= i < |s| && p(s[i]) {
      var i :| 0 <= i < |s| && p(s[i]);
      FilterHead(s, p, i);
    } else {
      FilterNone(s, p);
    }
  }

  /** The number of elements satisfying p. */
  function Count<T>(s: seq<T>, p: T -> bool): (n: nat)
    ensures n <= |s|
  {
    |Filter(s, p)|
  }

  /** When q holds exactly where p fails, their counts add up to the length. */
  lemma {:induction false} CountComplement<T>(s: seq<T>, p: T -> bool, q: T -> bool)
    requires forall i :: 0 <= i < |s| ==> q(s[i]) == !p(s[i])
    ensures Count(s, p) + Count(s, q) == |s|
  {
    if s != [] {
      CountComplement(s[1..], p, q);
    }
  }

  /** Counts of two predicates no element satisfies together add up to the
      count of their disjunction pq. */
  lemma {:induction false} CountDisjoint<T>(s: seq<T>, p: T -> bool, q: T -> bool, pq: T -> bool)
    requires forall i :: 0 <= i < |s| ==> !(p(s[i]) && q(s[i]))
    requires forall i :: 0 <= i < |s| ==> pq(s[i]) == (p(s[i]) || q(s[i]))
    ensures Count(s, p) + Count(s, q) == Count(s, pq)
  {
    if s != [] {
      CountDisjoint(s[1..], p, q, pq);
    }
  }

  /** A predicate that implies another selects at most as many elements. */
  lemma {:induction false} CountImplies<T>(s: seq<T>, p: T -> bool, q: T -> bool)
    requires forall i :: 0 <= i < |s| && p(s[i]) ==> q(s[i])
    ensures Count(s, p) <= Count(s, q)
  {
    if s != [] {
      CountImplies(s[1..], p, q);
    }
  }

  /** Two predicates that agree on every element select the same elements. */
  lemma {:induction false} FilterCongruent<T>(s: seq<T>, p: T -> bool, q: T -> bool)
    requires forall i :: 0 <= i < |s| ==> p(s[i]) == q(s[i])
    ensures Filter(s, p) == Filter(s, q)
  {
    if s != [] {
      FilterCongruent(s[1..], p, q);
    }
  }

  /** A predicate that nothing satisfies selects nothing. */
  lemma {:induction false} FilterNone<T>(s: seq<T>, p: T -> bool)
    requires forall i :: 0 <= i < |s| ==> !p(s[i])
    ensures Filter(s, p) == []
  {
    if s != [] {
      FilterNone(s[1..], p);
    }
  }

  // -------------------------------------------------------------- map / sum

  /** Array.prototype.map. */
  function Map<T, U>(s: seq<T>, f: T -> U): (r: seq<U>)
    ensures |r| == |s|
    ensures forall i :: 0 <= i < |s| ==> r[i] == f(s[i])
  {
    if s == [] then [] else [f(s[0])] + Map(s[1..], f)
  }

  /** Array.prototype.map with the index: element i becomes f(s[i], base + i). */
  function MapIndexed<T, U>(s: seq<T>, base: int, f: (T, int) -> U): (r: seq<U>)
    ensures |r| == |s|
    ensures forall i :: 0 <= i < |s| ==> r[i] == f(s[i], base + i)
  {
    if s == [] then [] else [f(s[0], base)] + MapIndexed(s[1..], base + 1, f)
  }

  /** reduce((acc, x) => acc + f(x), 0). */
  function Sum<T>(s: seq<T>, f: T -> real): real
  {
    if s == [] then 0.0 else f(s[0]) + Sum(s[1..], f)
  }

  lemma {:induction false} SumAppend<T>(a: seq<T>, b: seq<T>, f: T -> real)
    ensures Sum(a + b, f) == Sum(a, f) + Sum(b, f)
  {
    if a == [] {
      assert a + b == b;
    } else {
      assert (a + b)[1..] == a[1..] + b;
      SumAppend(a[1..], b, f);
    }
  }

  /** Summing over the elements that satisfy p and over the others gives the total. */
  lemma {:induction false} SumSplit<T>(s: seq<T>, p: T -> bool, f: T -> real)
    ensures Sum(Filter(s, p), f) + Sum(Filter(s, x => !p(x)), f) == Sum(s, f)
  {
    if s != [] {
      SumSplit(s[1..], p, f);
      var rest := s[1..];
      if p(s[0]) {
        assert Filter(s, p) == [s[0]] + Filter(rest, p);
        assert Filter(s, x => !p(x)) == Filter(rest, x => !p(x));
      } else {
        assert Filter(s, p) == Filter(rest, p);
        assert Filter(s, x => !p(x)) == [s[0]] + Filter(rest, x => !p(x));
      }
    }
  }

  /** A sum of terms that are all nonnegative is nonnegative. */
  lemma {:induction false} SumNonneg<T>(s: seq<T>, f: T -> real)
    requires forall i :: 0 <= i < |s| ==> f(s[i]) >= 0.0
    ensures Sum(s, f) >= 0.0
  {
    if s != [] {
      SumNonneg(s[1..], f);
    }
  }

  /** Sums of pointwise-equal terms are equal. */
  lemma {:induction false} SumCongruent<T>(s: seq<T>, f: T -> real, g: T -> real)
    requires forall i :: 0 <= i < |s| ==> f(s[i]) == g(s[i])
    ensures Sum(s, f) == Sum(s, g)
  {
    if s != [] {
      SumCongruent(s[1..], f, g);
    }
  }

  /** Terms that vanish outside p do not change the sum when the others are dropped. */
  lemma {:induction false} SumOverFilter<T>(s: seq<T>, p: T -> bool, f: T -> real)
    requires forall i :: 0 <= i < |s| && !p(s[i]) ==> f(s[i]) == 0.0
    ensures Sum(Filter(s, p), f) == Sum(s, f)
  {
    if s != [] {
      SumOverFilter(s[1..], p, f);
      var x := Filter(s[1..], p);
      if p(s[0]) {
        assert Filter(s, p) == [s[0]] + x;
        assert ([s[0]] + x)[1..] == x;
      } else {
        assert f(s[0]) == 0.0;
        assert Filter(s, p) == x;
      }
    }
  }

  // -------------------------------------------------------- distinct values

  /** [...new Set(s)]: the distinct values of s in order of first appearance. */
  function Distinct<T(==)>(s: seq<T>): (r: seq<T>)
  {
    DistinctFrom(s, [])
  }

  function DistinctFrom<T(==)>(s: seq<T>, seen: seq<T>): (r: seq<T>)
  {
    if s == [] then []
    else if s[0] in seen then DistinctFrom(s[1..], seen)
    else [s[0]] + DistinctFrom(s[1..], seen + [s[0]])
  }

  predicate NoDuplicates<T(==)>(s: seq<T>)
  {
    forall i, j :: 0 <= i < j < |s| ==> s[i] != s[j]
  }

  lemma {:induction false} DistinctFromSpec<T>(s: seq<T>, seen: seq<T>)
    ensures NoDuplicates(DistinctFrom(s, seen))
    ensures forall x :: x in DistinctFrom(s, seen) <==> x in s && x !in seen
  {
    if s != [] {
      DistinctFromSpec(s[1..], seen);
      DistinctFromSpec(s[1..], seen + [s[0]]);
    }
  }

  /** The distinct values are duplicate-free and are exactly the values of s. */
  lemma DistinctSpec<T>(s: seq<T>)
    ensures NoDuplicates(Distinct(s))
    ensures forall x :: x in Distinct(s) <==> x in s
  {
    DistinctFromSpec(s, []);
  }

  /** A duplicate-free sequence has as many elements as the set of its values. */
  lemma {:induction false} NoDuplicatesCard<T>(s: seq<T>)
    requires NoDuplicates(s)
    ensures |set x | x in s| == |s|
  {
    if s != [] {
      NoDuplicatesCard(s[1..]);
      var rest := set x | x in s[1..];
      assert (set x | x in s) == rest + {s[0]};
      assert forall j :: 0 <= j < |s[1..]| ==> s[1..][j] == s[j + 1] != s[0];
      assert s[0] !in s[1..];
    }
  }

  /** A sequence with a repeated value has fewer distinct values than elements. */
  lemma {:induction false} DuplicatesCard<T>(s: seq<T>)
    requires !NoDuplicates(s)
    ensures |set x | x in s| < |s|
  {
    var i, j :| 0 <= i < j < |s| && s[i] == s[j];
    SetCardAtMost(s[1..]);
    var rest := set x | x in s[1..];
    assert (set x | x in s) == rest + {s[0]};
    if i == 0 {
      assert s[0] == s[1..][j - 1];
      assert (set x | x in s) == rest;
    } else {
      assert !NoDuplicates(s[1..]) by {
        assert s[1..][i - 1] == s[1..][j - 1];
      }
      DuplicatesCard(s[1..]);
    }
  }

  lemma {:induction false} SetCardAtMost<T>(s: seq<T>)
    ensures |set x | x in s| <= |s|
  {
    if s != [] {
      SetCardAtMost(s[1..]);
      assert (set x | x in s) == (set x | x in s[1..]) + {s[0]};
    }
  }

  /** `arr.length !== new Set(arr).size` decides whether arr repeats a value. */
  lemma SetSizeDetectsDuplicates<T>(s: seq<T>)
    ensures (|set x | x in s| != |s|) <==> !NoDuplicates(s)
  {
    if NoDuplicates(s) { NoDuplicatesCard(s); } else { DuplicatesCard(s); }
  }

  // ------------------------------------------------------------------- sort

  /** A comparator "a strictly precedes b" that is a strict order. */
  ghost predicate StrictOrder<T(!new)>(before: (T, T) -> bool)
  {
    (forall a, b :: before(a, b) ==> !before(b, a)) &&
    (forall a, b, c :: before(a, b) && before(b, c) ==> before(a, c))
  }

  /** No element strictly precedes an element placed before it. */
  predicate SortedBy<T>(s: seq<T>, before: (T, T) -> bool)
  {
    forall i, j :: 0 <= i < j < |s| ==> !before(s[j], s[i])
  }

  /** Inserts x after every element it does not strictly precede (stable). */
  function Insert<T>(s: seq<T>, x: T, before: (T, T) -> bool): (r: seq<T>)
    ensures |r| == |s| + 1
    ensures multiset(r) == multiset(s) + multiset{x}
  {
    if s == [] then [x]
    else if before(x, s[0]) then [x] + s
    else
      assert s == [s[0]] + s[1..];
      [s[0]] + Insert(s[1..], x, before)
  }

  /** Array.prototype.sort with a comparator: JS sorts are stable, and the stable
      sort of a sequence under a strict weak order is this insertion sort. */
  function SortBy<T>(s: seq<T>, before: (T, T) -> bool): (r: seq<T>)
    ensures |r| == |s|
    ensures multiset(r) == multiset(s)
  {
    if s == [] then []
    else
      assert s == s[..|s| - 1] + [s[|s| - 1]];
      Insert(SortBy(s[..|s| - 1], before), s[|s| - 1], before)
  }

  lemma {:induction false} InsertSorted<T(!new)>(s: seq<T>, x: T, before: (T, T) -> bool)
    requires StrictOrder(before)
    requires SortedBy(s, before)
    ensures SortedBy(Insert(s, x, before), before)
  {
    var r := Insert(s, x, before);
    if s == [] {
    } else if before(x, s[0]) {
      forall i, j | 0 <= i < j < |r| ensures !before(r[j], r[i]) {
        if i == 0 {
          assert r[j] == s[j - 1];
          if j - 1 > 0 {
            assert !before(s[j - 1], s[0]);
          }
        } else {
          assert r[i] == s[i - 1] && r[j] == s[j - 1];
        }
      }
    } else {
      var t := Insert(s[1..], x, before);
      InsertSorted(s[1..], x, before);
      assert r == [s[0]] + t;
      assert multiset(t) == multiset(s[1..]) + multiset{x};
      forall j | 1 <= j < |r| ensures !before(r[j], r[0]) {
        assert r[j] in multiset(t);
        assert r[j] == x || r[j] in multiset(s[1..]);
        if r[j] != x {
          var k :| 0 <= k < |s[1..]| && s[1..][k] == r[j];
          assert s[k + 1] == r[j];
        }
      }
      forall i, j | 0 <= i < j < |r| ensures !before(r[j], r[i]) {
        if i > 0 {
          assert r[i] == t[i - 1] && r[j] == t[j - 1];
        }
      }
    }
  }

  /** The result of SortBy is ordered by the comparator. */
  lemma {:induction false} SortBySorted<T(!new)>(s: seq<T>, before: (T, T) -> bool)
    requires StrictOrder(before)
    ensures SortedBy(SortBy(s, before), before)
  {
    if s != [] {
      SortBySorted(s[..|s| - 1], before);
      InsertSorted(SortBy(s[..|s| - 1], before), s[|s| - 1], before);
    }
  }

  /** Sorting keeps exactly the elements (with multiplicity) and orders them. */
  lemma SortBySpec<T(!new)>(s: seq<T>, before: (T, T) -> bool)
    requires StrictOrder(before)
    ensures multiset(SortBy(s, before)) == multiset(s)
    ensures SortedBy(SortBy(s, before), before)
  {
    SortBySorted(s, before);
  }

  /** A comparator that never puts one element first (one that always
      returns 0) leaves the order as it is. */
  lemma {:induction false} InsertUnordered<T>(s: seq<T>, x: T, before: (T, T) -> bool)
    requires forall a, b :: !before(a, b)
    ensures Insert(s, x, before) == s + [x]
  {
    if s != [] {
      InsertUnordered(s[1..], x, before);
      assert s + [x] == [s[0]] + (s[1..] + [x]);
    }
  }

  lemma {:induction false} SortByUnordered<T>(s: seq<T>, before: (T, T) -> bool)
    requires forall a, b :: !before(a, b)
    ensures SortBy(s, before) == s
  {
    if s != [] {
      SortByUnordered(s[..|s| - 1], before);
      InsertUnordered(s[..|s| - 1], s[|s| - 1], before);
      assert s[..|s| - 1] + [s[|s| - 1]] == s;
    }
  }

  /** Filtering a sorted sequence keeps it sorted. */
  lemma {:induction false} FilterSorted<T(!new)>(s: seq<T>, p: T -> bool, before: (T, T) -> bool)
    requires SortedBy(s, before)
    ensures SortedBy(Filter(s, p), before)
  {
    if s != [] {
      var rest := s[1..];
      assert SortedBy(rest, before) by {
        forall i, j | 0 <= i < j < |rest| ensures !before(rest[j], rest[i]) {
          assert rest[j] == s[j + 1] && rest[i] == s[i + 1];
        }
      }
      FilterSorted(rest, p, before);
      if p(s[0]) {
        var r := Filter(rest, p);
        FilterMembers(rest, p);
        forall j | 0 <= j < |r| ensures !before(r[j], s[0]) {
          assert r[j] in Filter(rest, p);
          assert r[j] in rest;
          var k :| 0 <= k < |rest| && rest[k] == r[j];
          assert s[k + 1] == r[j];
        }
        var t := [s[0]] + r;
        assert Filter(s, p) == t;
        forall i, j | 0 <= i < j < |t| ensures !before(t[j], t[i]) {
          if i > 0 {
            assert t[i] == r[i - 1] && t[j] == r[j - 1];
          }
        }
      }
    }
  }

  /** Inserting x adds f(x) to a sum. */
  lemma {:induction false} SumInsert<T>(s: seq<T>, x: T, before: (T, T) -> bool, f: T -> real)
    ensures Sum(Insert(s, x, before), f) == f(x) + Sum(s, f)
  {
    if s != [] && !before(x, s[0]) {
      SumInsert(s[1..], x, before, f);
      assert Insert(s, x, before)[1..] == Insert(s[1..], x, before);
    }
  }

  /** Sorting does not change a sum. */
  lemma {:induction false} SumSortBy<T>(s: seq<T>, before: (T, T) -> bool, f: T -> real)
    ensures Sum(SortBy(s, before), f) == Sum(s, f)
  {
    if s != [] {
      var init, last := s[..|s| - 1], s[|s| - 1];
      var sorted := SortBy(init, before);
      assert Sum(SortBy(s, before), f) == f(last) + Sum(sorted, f) by {
        assert SortBy(s, before) == Insert(sorted, last, before);
        SumInsert(sorted, last, before, f);
      }
      assert Sum(s, f) == Sum(init, f) + f(last) by {
        assert init + [last] == s;
        SumAppend(init, [last], f);
        assert Sum([last], f) == f(last);
      }
      SumSortBy(init, before, f);
    }
  }

  /** A rearrangement of a duplicate-free sequence is duplicate-free. */
  lemma PermutationNoDuplicates<T>(a: seq<T>, b: seq<T>)
    requires multiset(a) == multiset(b) && NoDuplicates(b)
    ensures NoDuplicates(a)
  {
    assert |a| == |b| by {
      assert |multiset(a)| == |multiset(b)|;
    }
    assert (set x | x in a) == (set x | x in b) by {
      forall x ensures x in a <==> x in b {
        assert x in a <==> x in multiset(a);
        assert x in b <==> x in multiset(b);
      }
    }
    NoDuplicatesCard(b);
    SetSizeDetectsDuplicates(a);
  }

  /** Ordering by a real-valued key, largest first. */
  lemma KeyDescIsStrictOrder<T(!new)>(key: T -> real)
    ensures StrictOrder((a: T, b: T) => key(a) > key(b))
  {
  }

  /** Ordering by a real-valued key, smallest first. */
  lemma KeyAscIsStrictOrder<T(!new)>(key: T -> real)
    ensures StrictOrder((a: T, b: T) => key(a) < key(b))
  {
  }
}
