// The three list edits every record page repeats on its id-keyed list
// (tasks, collaborators, suppliers, clients): find the record with an id,
// merge a form into the record with an id (`list.map(x => x.id === id ?
// {...x, ...form} : x)`) and drop the record with an id
// (`list.filter(x => x.id !== id)`).

module IdLists {
  import opened Seqs

  /** list.find(x => x.id === key) */
  function Find<T>(s: seq<T>, id: T -> int, key: int): (r: Option<T>)
    ensures r.Some? ==> r.value in s && id(r.value) == key
    ensures r.None? <==> forall i :: 0 <= i < |s| ==> id(s[i]) != key
  {
    if s == [] then None
    else if id(s[0]) == key then Some(s[0])
    else Find(s[1..], id, key)
  }

  /** With unique ids, the record found is the one at the key's position. */
  lemma {:induction false} FindUnique<T>(s: seq<T>, id: T -> int, k: nat)
    requires k < |s|
    requires forall i, j :: 0 <= i < j < |s| ==> id(s[i]) != id(s[j])
    ensures Find(s, id, id(s[k])) == Some(s[k])
  {
    if k > 0 {
      assert id(s[0]) != id(s[k]);
      FindUnique(s[1..], id, k - 1);
    }
  }

  /** list.map(x => id(x) === key ? f(x) : x) */
  function Update<T>(s: seq<T>, id: T -> int, key: int, f: T -> T): (r: seq<T>)
    ensures |r| == |s|
    ensures forall i :: 0 <= i < |s| ==> r[i] == if id(s[i]) == key then f(s[i]) else s[i]
  {
    Map(s, (x: T) => if id(x) == key then f(x) else x)
  }

  /** An update under an id no record has changes nothing. */
  lemma UpdateAbsent<T>(s: seq<T>, id: T -> int, key: int, f: T -> T)
    requires forall i :: 0 <= i < |s| ==> id(s[i]) != key
    ensures Update(s, id, key, f) == s
  {
  }

  function WithoutKey<T>(id: T -> int, key: int): T -> bool
  {
    (x: T) => id(x) != key
  }

  /** list.filter(x => id(x) !== key) */
  function Remove<T>(s: seq<T>, id: T -> int, key: int): seq<T>
  {
    Filter(s, WithoutKey(id, key))
  }

  /** The other records stay in their order, every record with the id goes,
      and an id no record has leaves the list as it is. */
  lemma RemoveSpec<T>(s: seq<T>, id: T -> int, key: int)
    ensures SubseqOf(Remove(s, id, key), s)
    ensures forall x :: x in Remove(s, id, key) <==> x in s && id(x) != key
    ensures (forall i :: 0 <= i < |s| ==> id(s[i]) != key) ==> Remove(s, id, key) == s
  {
    FilterIsSubseq(s, WithoutKey(id, key));
    FilterMembers(s, WithoutKey(id, key));
    if forall i :: 0 <= i < |s| ==> id(s[i]) != key {
      FilterAll(s, WithoutKey(id, key));
    }
  }

  /** With unique ids, removing a stored id takes exactly one record out. */
  lemma {:induction false} RemoveOne<T>(s: seq<T>, id: T -> int, k: nat)
    requires k < |s|
    requires forall i, j :: 0 <= i < j < |s| ==> id(s[i]) != id(s[j])
    ensures |Remove(s, id, id(s[k]))| == |s| - 1
  {
    var key := id(s[k]);
    if k == 0 {
      assert forall i :: 0 <= i < |s[1..]| ==> id(s[1..][i]) != key by {
        forall i | 0 <= i < |s[1..]| ensures id(s[1..][i]) != key {
          assert s[1..][i] == s[i + 1];
        }
      }
      FilterAll(s[1..], WithoutKey(id, key));
    } else {
      assert id(s[0]) != key;
      RemoveOne(s[1..], id, k - 1);
      assert s[1..][k - 1] == s[k];
    }
  }

  /** A record put in front under an id no other record has is removed again
      by its id. */
  lemma RemoveFront<T>(x: T, s: seq<T>, id: T -> int)
    requires forall i :: 0 <= i < |s| ==> id(s[i]) != id(x)
    ensures Remove([x] + s, id, id(x)) == s
  {
    assert ([x] + s)[1..] == s;
    FilterAll(s, WithoutKey(id, id(x)));
  }
}
