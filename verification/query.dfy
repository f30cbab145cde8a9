/**
 The part of the document store the controllers rely on, over a collection
 kept as a sequence of documents in insertion order: `findOne`/`findById`
 (the first document a filter accepts), `find` (every document a filter
 accepts, in collection order) and `deleteOne` (removal at a position).
 */
module Query {
  import opened Common

  /** findOne: the position of the first document that satisfies p. */
  function FindFirst<T>(s: seq<T>, p: T -> bool): (r: Option<nat>)
    ensures r.Some? ==> r.value < |s| && p(s[r.value])
    ensures r.Some? ==> forall j :: 0 <= j < r.value ==> !p(s[j])
    ensures r.None? <==> forall j :: 0 <= j < |s| ==> !p(s[j])
  {
    if s == [] then None
    else if p(s[0]) then Some(0)
    else match FindFirst(s[1..], p)
      case None => None
      case Some(k) => Some(k + 1)
  }

  /** find: the documents that satisfy p, each as often as it is stored. */
  function Select<T(!new)>(s: seq<T>, p: T -> bool): (r: seq<T>)
    ensures |r| <= |s|
    ensures forall x :: multiset(r)[x] == if p(x) then multiset(s)[x] else 0
    ensures forall x :: x in r <==> x in s && p(x)
  {
    if s == [] then []
    else
      assert s == [s[0]] + s[1..];
      if p(s[0]) then [s[0]] + Select(s[1..], p) else Select(s[1..], p)
  }

  /** A filter every document passes returns the whole collection. */
  lemma {:induction false} SelectAll<T(!new)>(s: seq<T>, p: T -> bool)
    requires forall x :: x in s ==> p(x)
    ensures Select(s, p) == s
  {
    if s != [] {
      assert forall x :: x in s[1..] ==> x in s;
      SelectAll(s[1..], p);
    }
  }

  /** Inserting a document adds it to the end of every result it passes. */
  lemma {:induction false} SelectAppend<T(!new)>(s: seq<T>, x: T, p: T -> bool)
    ensures Select(s + [x], p) == Select(s, p) + (if p(x) then [x] else [])
  {
    if s == [] {
      assert s + [x] == [x];
    } else {
      assert (s + [x])[1..] == s[1..] + [x];
      SelectAppend(s[1..], x, p);
    }
  }

  /** deleteOne: the collection without the document at position i. */
  function RemoveAt<T>(s: seq<T>, i: nat): (r: seq<T>)
    requires i < |s|
    ensures |r| == |s| - 1
    ensures forall j :: 0 <= j < i ==> r[j] == s[j]
    ensures forall j :: i <= j < |r| ==> r[j] == s[j + 1]
    ensures multiset(r) == multiset(s) - multiset{s[i]}
  {
    assert s == s[..i] + [s[i]] + s[i + 1..];
    s[..i] + s[i + 1..]
  }

  /** The filter `{ key: k }`. */
  function KeyIs<T, K(==)>(key: T -> K, k: K): (r: T -> bool) {
    x => key(x) == k
  }

  /** findById and findOne on one key: the first document holding key k. */
  function FindKey<T, K(==)>(s: seq<T>, key: T -> K, k: K): (r: Option<nat>)
    ensures r.Some? ==> r.value < |s| && key(s[r.value]) == k
    ensures r.None? <==> forall j :: 0 <= j < |s| ==> key(s[j]) != k
  {
    var r := FindFirst(s, KeyIs(key, k));
    assert forall j :: 0 <= j < |s| ==> (KeyIs(key, k)(s[j]) <==> key(s[j]) == k);
    r
  }

  /** No two documents share a key. */
  ghost predicate UniqueKeys<T, K>(s: seq<T>, key: T -> K) {
    forall i, j :: 0 <= i < j < |s| ==> key(s[i]) != key(s[j])
  }

  /** Every key is below the next one the store will allocate. */
  ghost predicate KeysBelow<T>(s: seq<T>, key: T -> Id, bound: Id) {
    forall i :: 0 <= i < |s| ==> key(s[i]) < bound
  }

  /** Appending a document with a fresh key keeps the keys unique. */
  lemma AppendFreshKey<T>(s: seq<T>, x: T, key: T -> Id, bound: Id)
    requires UniqueKeys(s, key) && KeysBelow(s, key, bound) && key(x) == bound
    ensures UniqueKeys(s + [x], key) && KeysBelow(s + [x], key, bound + 1)
  {
  }

  /** Removing one document keeps the remaining keys unique. */
  lemma RemoveKeepsUnique<T, K>(s: seq<T>, i: nat, key: T -> K)
    requires i < |s| && UniqueKeys(s, key)
    ensures UniqueKeys(RemoveAt(s, i), key)
  {
    var r := RemoveAt(s, i);
    forall a, b | 0 <= a < b < |r| ensures key(r[a]) != key(r[b]) {
      var a' := if a < i then a else a + 1;
      var b' := if b < i then b else b + 1;
      assert r[a] == s[a'] && r[b] == s[b'] && a' < b';
    }
  }

  /** Removing one document keeps the remaining keys unique and bounded. */
  lemma RemoveKeepsKeys<T>(s: seq<T>, i: nat, key: T -> Id, bound: Id)
    requires i < |s| && UniqueKeys(s, key) && KeysBelow(s, key, bound)
    ensures UniqueKeys(RemoveAt(s, i), key) && KeysBelow(RemoveAt(s, i), key, bound)
  {
    RemoveKeepsUnique(s, i, key);
  }

  /** With unique keys, the document holding key k is the first one found by k. */
  lemma FindByUniqueKey<T, K>(s: seq<T>, i: nat, key: T -> K)
    requires i < |s| && UniqueKeys(s, key)
    ensures FindKey(s, key, key(s[i])) == Some(i)
  {
  }

  /** With unique keys, once the document at position i is removed its key
      is no longer found. */
  lemma RemovedKeyGone<T, K>(s: seq<T>, i: nat, key: T -> K)
    requires i < |s| && UniqueKeys(s, key)
    ensures FindKey(RemoveAt(s, i), key, key(s[i])) == None
  {
    var r := RemoveAt(s, i);
    forall j | 0 <= j < |r| ensures key(r[j]) != key(s[i]) {
      if j < i {
        assert r[j] == s[j];
      } else {
        assert r[j] == s[j + 1];
      }
    }
  }

  /** Replacing a document by one with the same key keeps the keys unique,
      and the key still finds it at the same position. */
  lemma UpdateKeepsKey<T, K>(s: seq<T>, i: nat, x: T, key: T -> K)
    requires i < |s| && UniqueKeys(s, key) && key(x) == key(s[i])
    ensures UniqueKeys(s[i := x], key)
    ensures FindKey(s[i := x], key, key(x)) == Some(i)
  {
    assert forall j :: 0 <= j < |s| ==> key(s[i := x][j]) == key(s[j]);
    FindByUniqueKey(s[i := x], i, key);
  }

  /** Removing a position forgets what was written there. */
  lemma RemoveAfterUpdate<T>(s: seq<T>, i: nat, x: T)
    requires i < |s|
    ensures RemoveAt(s[i := x], i) == RemoveAt(s, i)
  {
  }
}
