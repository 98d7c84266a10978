/** The dataset collection of a chart: `findIndex`, `filter`, the add-or-replace and
    remove operations, and the one-record-per-owner invariant. */
module DatasetList {
  import opened Js

  /** `Array.prototype.findIndex`: the first index the predicate accepts, or -1. */
  function FindIndex<T>(s: seq<T>, pred: T -> bool): (r: int)
    ensures -1 <= r < |s|
    ensures r == -1 <==> forall i :: 0 <= i < |s| ==> !pred(s[i])
    ensures 0 <= r ==> pred(s[r]) && forall j :: 0 <= j < r ==> !pred(s[j])
    decreases |s|
  {
    if |s| == 0 then -1
    else if pred(s[0]) then 0
    else
      var k := FindIndex(s[1..], pred);
      if k == -1 then -1 else k + 1
  }

  /** `Array.prototype.filter`: the elements `keep` accepts, in their original order. */
  function Filter<T(==,!new)>(s: seq<T>, keep: T -> bool): (r: seq<T>)
    ensures |r| <= |s|
    ensures forall i :: 0 <= i < |r| ==> keep(r[i])
    ensures (forall i :: 0 <= i < |s| ==> keep(s[i])) ==> r == s
    decreases |s|
  {
    if |s| == 0 then []
    else
      var rest := Filter(s[1..], keep);
      assert s == [s[0]] + s[1..];
      if keep(s[0]) then [s[0]] + rest else rest
  }

  /** Filtering keeps every accepted element as often as it occurs, and nothing else. */
  lemma {:induction false} FilterCounts<T(!new)>(s: seq<T>, keep: T -> bool)
    ensures forall x :: multiset(Filter(s, keep))[x] == if keep(x) then multiset(s)[x] else 0
    ensures forall x :: x in Filter(s, keep) <==> x in s && keep(x)
    decreases |s|
  {
    if |s| > 0 {
      FilterCounts(s[1..], keep);
      assert s == [s[0]] + s[1..];
      assert multiset(s) == multiset{s[0]} + multiset(s[1..]);
      if keep(s[0]) {
        assert multiset(Filter(s, keep)) == multiset{s[0]} + multiset(Filter(s[1..], keep));
      }
    }
  }

  /** Filtering distributes over concatenation, so it keeps the original order. */
  lemma {:induction false} FilterAppend<T(!new)>(a: seq<T>, b: seq<T>, keep: T -> bool)
    ensures Filter(a + b, keep) == Filter(a, keep) + Filter(b, keep)
    decreases |a|
  {
    if |a| == 0 {
      assert a + b == b;
    } else {
      assert (a + b)[1..] == a[1..] + b;
      FilterAppend(a[1..], b, keep);
    }
  }

  /** An element the filter rejects leaves no trace, wherever it stands. */
  lemma FilterSkip<T(!new)>(a: seq<T>, x: T, b: seq<T>, keep: T -> bool)
    requires !keep(x)
    ensures Filter(a + [x] + b, keep) == Filter(a + b, keep)
  {
    FilterAppend(a + [x], b, keep);
    FilterAppend(a, [x], keep);
    FilterAppend(a, b, keep);
    assert [x][1..] == [];
    assert Filter([x], keep) == [];
    assert Filter(a, keep) + [] == Filter(a, keep);
  }

  /** `addOrReplaceDataset` on the collection: replace the first match in place
      (`splice(i, 1, item)`), or append when nothing matches. */
  function AddOrReplace<T>(s: seq<T>, pred: T -> bool, item: T): (r: seq<T>)
    ensures (forall i :: 0 <= i < |s| ==> !pred(s[i])) ==> r == s + [item]
    ensures forall k :: 0 <= k < |s| && pred(s[k]) && (forall j :: 0 <= j < k ==> !pred(s[j])) ==> r == s[k := item]
  {
    var k := FindIndex(s, pred);
    if k == -1 then s + [item] else s[k := item]
  }

  function Not<T>(pred: T -> bool): T -> bool {
    x => !pred(x)
  }

  /** `removeDataset` on the collection: `datasets.filter(x => !predicate(x))`. */
  function RemoveMatching<T(==,!new)>(s: seq<T>, pred: T -> bool): (r: seq<T>)
    ensures forall x :: x in r <==> x in s && !pred(x)
    ensures forall x :: !pred(x) ==> multiset(r)[x] == multiset(s)[x]
    ensures (forall i :: 0 <= i < |s| ==> !pred(s[i])) ==> r == s
  {
    FilterCounts(s, Not(pred));
    Filter(s, Not(pred))
  }

  /** Removal commutes with concatenation: what survives keeps its relative order. */
  lemma RemoveMatchingAppend<T(!new)>(a: seq<T>, b: seq<T>, pred: T -> bool)
    ensures RemoveMatching(a + b, pred) == RemoveMatching(a, pred) + RemoveMatching(b, pred)
  {
    FilterAppend(a, b, Not(pred));
  }

  /** The element a record names as its `owner`, when it is an object holding one. */
  function OwnerOf(v: JsValue): Option<ElementId> {
    if v.Obj? && "owner" in v.fields && v.fields["owner"].Ref? then Some(v.fields["owner"].element) else None
  }

  /** The predicate `ds => ds.owner === this` of a dataset element. */
  function OwnedBy(e: ElementId): JsValue -> bool {
    v => OwnerOf(v) == Some(e)
  }

  /** No two records of the collection share an owner. */
  ghost predicate UniqueOwners(ds: seq<JsValue>) {
    forall i, j :: 0 <= i < j < |ds| && OwnerOf(ds[i]).Some? ==> OwnerOf(ds[i]) != OwnerOf(ds[j])
  }

  /** Synchronising a record owned by `e` keeps owners unique and leaves that record in
      the collection: exactly one record belongs to `e` afterwards. */
  lemma SyncKeepsOwnersUnique(ds: seq<JsValue>, e: ElementId, rec: JsValue)
    requires UniqueOwners(ds) && OwnerOf(rec) == Some(e)
    ensures UniqueOwners(AddOrReplace(ds, OwnedBy(e), rec))
    ensures rec in AddOrReplace(ds, OwnedBy(e), rec)
  {
    var k := FindIndex(ds, OwnedBy(e));
    var r := AddOrReplace(ds, OwnedBy(e), rec);
    if k == -1 {
      assert r == ds + [rec];
      assert forall i :: 0 <= i < |ds| ==> OwnerOf(ds[i]) != Some(e) by {
        forall i | 0 <= i < |ds| ensures OwnerOf(ds[i]) != Some(e) { assert !OwnedBy(e)(ds[i]); }
      }
    } else {
      assert r == ds[k := rec];
      assert OwnerOf(ds[k]) == Some(e) by { assert OwnedBy(e)(ds[k]); }
      assert forall i :: 0 <= i < |ds| ==> OwnerOf(r[i]) == OwnerOf(ds[i]);
    }
  }

  /** Removing the records owned by `e` leaves none of them and keeps owners unique. */
  lemma RemoveOwnedClears(ds: seq<JsValue>, e: ElementId)
    requires UniqueOwners(ds)
    ensures forall x :: x in RemoveMatching(ds, OwnedBy(e)) ==> OwnerOf(x) != Some(e)
    ensures UniqueOwners(RemoveMatching(ds, OwnedBy(e)))
  {
    FilterKeepsUniqueOwners(ds, Not(OwnedBy(e)));
  }

  lemma UniqueOwnersTail(ds: seq<JsValue>)
    requires UniqueOwners(ds) && |ds| > 0
    ensures UniqueOwners(ds[1..])
  {
    var tail := ds[1..];
    forall i, j | 0 <= i < j < |tail| && OwnerOf(tail[i]).Some? ensures OwnerOf(tail[i]) != OwnerOf(tail[j]) {
      assert tail[i] == ds[i + 1] && tail[j] == ds[j + 1];
    }
  }

  lemma UniqueOwnersCons(x: JsValue, rest: seq<JsValue>)
    requires UniqueOwners(rest)
    requires OwnerOf(x).Some? ==> forall y :: y in rest ==> OwnerOf(y) != OwnerOf(x)
    ensures UniqueOwners([x] + rest)
  {
    var r := [x] + rest;
    forall i, j | 0 <= i < j < |r| && OwnerOf(r[i]).Some? ensures OwnerOf(r[i]) != OwnerOf(r[j]) {
      if i == 0 {
        assert r[j] == rest[j - 1];
      } else {
        assert r[i] == rest[i - 1] && r[j] == rest[j - 1];
      }
    }
  }

  lemma {:induction false} FilterKeepsUniqueOwners(ds: seq<JsValue>, keep: JsValue -> bool)
    requires UniqueOwners(ds)
    ensures UniqueOwners(Filter(ds, keep))
    decreases |ds|
  {
    if |ds| > 0 {
      var tail := ds[1..];
      UniqueOwnersTail(ds);
      FilterKeepsUniqueOwners(tail, keep);
      if keep(ds[0]) {
        FilterCounts(tail, keep);
        forall y | y in Filter(tail, keep) && OwnerOf(ds[0]).Some? ensures OwnerOf(y) != OwnerOf(ds[0]) {
          var j :| 0 <= j < |tail| && tail[j] == y;
          assert ds[j + 1] == y;
        }
        UniqueOwnersCons(ds[0], Filter(tail, keep));
      }
    }
  }
}
