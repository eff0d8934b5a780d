// Per-key totals built by the pages' reduce-into-an-object idiom
// (`acc[key] = (acc[key] || 0) + value`), as in the expense-by-category sums
// of src/pages/finance/FinancePage.tsx and src/pages/reports/FinancialReportPage.tsx
// and the value-by-category sums of src/pages/reports/InventoryReportPage.tsx.
// The object is an association list in key-insertion order, which is the
// order Object.entries lists non-numeric keys in.

module Grouping {
  import opened Seqs

  /** acc[k] = (acc[k] || 0) + v: an existing key is updated where it stands,
      a new key is appended. */
  function AddTo(acc: seq<(string, real)>, k: string, v: real): (r: seq<(string, real)>)
    ensures |r| == |acc| || |r| == |acc| + 1
  {
    if acc == [] then [(k, v)]
    else if acc[0].0 == k then [(k, acc[0].1 + v)] + acc[1..]
    else [acc[0]] + AddTo(acc[1..], k, v)
  }

  /** The sum of every entry's total. */
  function Total(acc: seq<(string, real)>): real
  {
    if acc == [] then 0.0 else acc[0].1 + Total(acc[1..])
  }

  /** acc[k] || 0: the total of the first entry with key k. */
  function Lookup(acc: seq<(string, real)>, k: string): real
  {
    if acc == [] then 0.0 else if acc[0].0 == k then acc[0].1 else Lookup(acc[1..], k)
  }

  function Keys(acc: seq<(string, real)>): (r: seq<string>)
    ensures |r| == |acc|
    ensures forall i :: 0 <= i < |acc| ==> r[i] == acc[i].0
  {
    if acc == [] then [] else [acc[0].0] + Keys(acc[1..])
  }

  /** The reduce, element by element from the first. */
  function GroupFrom<T>(acc: seq<(string, real)>, s: seq<T>, key: T -> string, f: T -> real): seq<(string, real)>
    decreases |s|
  {
    if s == [] then acc else GroupFrom(AddTo(acc, key(s[0]), f(s[0])), s[1..], key, f)
  }

  /** reduce((acc, x) => { acc[key(x)] = (acc[key(x)] || 0) + f(x); return acc }, {}). */
  function GroupSum<T>(s: seq<T>, key: T -> string, f: T -> real): seq<(string, real)>
  {
    GroupFrom([], s, key, f)
  }

  /** The elements filed under key k. */
  function HasKey<T>(key: T -> string, k: string): T -> bool
  {
    x => key(x) == k
  }

  /** Some element has key k. */
  predicate Occurs<T>(s: seq<T>, key: T -> string, k: string)
  {
    exists i :: 0 <= i < |s| && key(s[i]) == k
  }

  // ---------------------------------------------------------------- AddTo

  lemma {:induction false} AddToTotal(acc: seq<(string, real)>, k: string, v: real)
    ensures Total(AddTo(acc, k, v)) == Total(acc) + v
  {
    if acc != [] && acc[0].0 != k {
      AddToTotal(acc[1..], k, v);
      assert ([acc[0]] + AddTo(acc[1..], k, v))[1..] == AddTo(acc[1..], k, v);
    } else if acc != [] {
      assert ([(k, acc[0].1 + v)] + acc[1..])[1..] == acc[1..];
    }
  }

  lemma {:induction false} AddToLookup(acc: seq<(string, real)>, k: string, v: real, j: string)
    ensures Lookup(AddTo(acc, k, v), j) == Lookup(acc, j) + (if j == k then v else 0.0)
  {
    if acc != [] && acc[0].0 != k {
      AddToLookup(acc[1..], k, v, j);
      assert ([acc[0]] + AddTo(acc[1..], k, v))[1..] == AddTo(acc[1..], k, v);
    } else if acc != [] {
      assert ([(k, acc[0].1 + v)] + acc[1..])[1..] == acc[1..];
    }
  }

  lemma {:induction false} AddToKeys(acc: seq<(string, real)>, k: string, v: real)
    ensures Keys(AddTo(acc, k, v)) == if k in Keys(acc) then Keys(acc) else Keys(acc) + [k]
  {
    if acc != [] {
      assert Keys(acc) == [acc[0].0] + Keys(acc[1..]);
      if acc[0].0 != k {
        AddToKeys(acc[1..], k, v);
        assert ([acc[0]] + AddTo(acc[1..], k, v))[1..] == AddTo(acc[1..], k, v);
      } else {
        assert ([(k, acc[0].1 + v)] + acc[1..])[1..] == acc[1..];
      }
    }
  }

  /** Keys stay distinct: a key already present is not added again. */
  lemma AddToDistinct(acc: seq<(string, real)>, k: string, v: real)
    requires NoDuplicates(Keys(acc))
    ensures NoDuplicates(Keys(AddTo(acc, k, v)))
    ensures forall j :: j in Keys(AddTo(acc, k, v)) <==> j in Keys(acc) || j == k
  {
    AddToKeys(acc, k, v);
  }

  // ------------------------------------------------------------ the reduce

  lemma {:induction false} GroupFromTotal<T>(acc: seq<(string, real)>, s: seq<T>, key: T -> string, f: T -> real)
    ensures Total(GroupFrom(acc, s, key, f)) == Total(acc) + Sum(s, f)
    decreases |s|
  {
    if s != [] {
      AddToTotal(acc, key(s[0]), f(s[0]));
      GroupFromTotal(AddTo(acc, key(s[0]), f(s[0])), s[1..], key, f);
    }
  }

  lemma {:induction false} GroupFromLookup<T>(acc: seq<(string, real)>, s: seq<T>, key: T -> string, f: T -> real, j: string)
    ensures Lookup(GroupFrom(acc, s, key, f), j) == Lookup(acc, j) + Sum(Filter(s, HasKey(key, j)), f)
    decreases |s|
  {
    if s != [] {
      AddToLookup(acc, key(s[0]), f(s[0]), j);
      GroupFromLookup(AddTo(acc, key(s[0]), f(s[0])), s[1..], key, f, j);
      var rest := Filter(s[1..], HasKey(key, j));
      if key(s[0]) == j {
        assert Filter(s, HasKey(key, j)) == [s[0]] + rest;
        assert ([s[0]] + rest)[1..] == rest;
      } else {
        assert Filter(s, HasKey(key, j)) == rest;
      }
    }
  }

  lemma {:induction false} GroupFromKeys<T>(acc: seq<(string, real)>, s: seq<T>, key: T -> string, f: T -> real)
    requires NoDuplicates(Keys(acc))
    ensures NoDuplicates(Keys(GroupFrom(acc, s, key, f)))
    ensures forall j :: j in Keys(GroupFrom(acc, s, key, f)) <==>
      j in Keys(acc) || Occurs(s, key, j)
    decreases |s|
  {
    if s != [] {
      var acc' := AddTo(acc, key(s[0]), f(s[0]));
      AddToDistinct(acc, key(s[0]), f(s[0]));
      GroupFromKeys(acc', s[1..], key, f);
      forall j
        ensures Occurs(s, key, j) <==> key(s[0]) == j || Occurs(s[1..], key, j)
      {
        if Occurs(s, key, j) {
          var i :| 0 <= i < |s| && key(s[i]) == j;
          if i > 0 {
            assert key(s[1..][i - 1]) == j;
          }
        }
        if Occurs(s[1..], key, j) {
          var i :| 0 <= i < |s[1..]| && key(s[1..][i]) == j;
          assert key(s[i + 1]) == j;
        }
      }
    }
  }

  /** The per-key totals: one entry per distinct key that occurs, each entry
      the sum over the elements with that key, and together the sum over all
      elements. */
  lemma GroupSumSpec<T>(s: seq<T>, key: T -> string, f: T -> real)
    ensures Total(GroupSum(s, key, f)) == Sum(s, f)
    ensures forall j :: Lookup(GroupSum(s, key, f), j) == Sum(Filter(s, HasKey(key, j)), f)
    ensures NoDuplicates(Keys(GroupSum(s, key, f)))
    ensures forall j :: j in Keys(GroupSum(s, key, f)) <==> Occurs(s, key, j)
  {
    GroupFromTotal([], s, key, f);
    forall j
      ensures Lookup(GroupSum(s, key, f), j) == Sum(Filter(s, HasKey(key, j)), f)
    {
      GroupFromLookup([], s, key, f, j);
    }
    GroupFromKeys([], s, key, f);
  }

  /** The totals of the entries with distinct keys are their lookups. */
  lemma {:induction false} LookupDistinct(acc: seq<(string, real)>, i: nat)
    requires NoDuplicates(Keys(acc)) && i < |acc|
    ensures Lookup(acc, acc[i].0) == acc[i].1
  {
    if i > 0 {
      assert Keys(acc)[0] != Keys(acc)[i];
      assert NoDuplicates(Keys(acc[1..])) by {
        assert forall a, b :: 0 <= a < b < |acc| - 1 ==> Keys(acc[1..])[a] == Keys(acc)[a + 1] && Keys(acc[1..])[b] == Keys(acc)[b + 1];
      }
      LookupDistinct(acc[1..], i - 1);
    }
  }
}
