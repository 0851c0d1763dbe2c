/**
 * The model containers (next/misc/memory.h): a list of models behind one
 * lock, with lookups by ID and by GUID that hand back a `locked` handle.
 * Everything here is single-threaded, so a handle that would own the lock
 * always does; what is left of `locked` is whether it holds a model.
 */
module Containers {
  import opened Wrappers
  import opened BaseModels

  /** `locked<T>`: whether the handle owns the lock, and the model it points to. */
  datatype Locked = Locked(ownsLock: bool, data: BaseModel?)
  {
    /** `operator bool`: the handle owns the lock and points to a model. */
    predicate Valid() {
      ownsLock && data != null
    }
  }

  /** The default-constructed handle: it owns nothing and points nowhere. */
  function Empty(): (r: Locked)
    ensures !r.Valid() && r.data == null
  {
    Locked(false, null)
  }

  /** A handle on `m`, taken under the container's lock. */
  function Holding(m: BaseModel): (r: Locked)
    ensures r.Valid() && r.data == m
  {
    Locked(true, m)
  }

  /** The first position of `x` in `xs`, or None when `x` does not occur. */
  function FirstIndex<T(==)>(xs: seq<T>, x: T): (r: Option<nat>)
    ensures r.Some? ==> r.value < |xs| && xs[r.value] == x && x !in xs[..r.value]
    ensures r.None? <==> x !in xs
  {
    if |xs| == 0 then None
    else if xs[0] == x then Some(0)
    else
      match FirstIndex(xs[1..], x)
      case None => None
      case Some(k) =>
        assert xs[..k + 1] == [xs[0]] + xs[1..][..k];
        Some(k + 1)
  }

  /** The search of a concatenation finds the first part's match before looking in the second. */
  lemma {:induction false} FirstIndexAppend<T>(a: seq<T>, b: seq<T>, x: T)
    ensures FirstIndex(a + b, x) ==
              if x in a then FirstIndex(a, x)
              else match FirstIndex(b, x)
                   case None => None
                   case Some(k) => Some(|a| + k)
  {
    if |a| == 0 {
      assert a + b == b;
    } else {
      assert (a + b)[1..] == a[1..] + b;
      FirstIndexAppend(a[1..], b, x);
      if a[0] != x {
        assert x in a <==> x in a[1..];
      }
    }
  }

  /** `xs` with position `k` taken out. */
  function Without<T>(xs: seq<T>, k: nat): (r: seq<T>)
    requires k < |xs|
    ensures |r| == |xs| - 1
    ensures forall i :: 0 <= i < k ==> r[i] == xs[i]
    ensures forall i :: k <= i < |r| ==> r[i] == xs[i + 1]
  {
    xs[..k] + xs[k + 1..]
  }

  /** No value occurs twice. */
  predicate NoDuplicates<T(==)>(xs: seq<T>) {
    forall i, j :: 0 <= i < j < |xs| ==> xs[i] != xs[j]
  }

  /** Taking out a value that occurs once leaves no trace of it. */
  lemma WithoutUniqueIsGone<T>(xs: seq<T>, k: nat)
    requires NoDuplicates(xs) && k < |xs|
    ensures xs[k] !in Without(xs, k)
    ensures FirstIndex(Without(xs, k), xs[k]).None?
  {
    var r := Without(xs, k);
    forall i | 0 <= i < |r|
      ensures r[i] != xs[k]
    {
      if i < k {
        assert r[i] == xs[i];
      } else {
        assert r[i] == xs[i + 1];
      }
    }
  }

  /** Taking one position out keeps every other value. */
  lemma WithoutKeepsOthers<T>(xs: seq<T>, k: nat, y: T)
    requires k < |xs| && y in xs && y != xs[k]
    ensures y in Without(xs, k)
    ensures FirstIndex(Without(xs, k), y).Some?
  {
    var j :| 0 <= j < |xs| && xs[j] == y;
    var r := Without(xs, k);
    if j < k {
      assert r[j] == y;
    } else {
      assert r[j - 1] == y;
    }
  }

  /** The IDs of the models, in order. */
  function Ids(items: seq<BaseModel>): (r: seq<nat>)
    reads items
    ensures |r| == |items|
    ensures forall i :: 0 <= i < |items| ==> r[i] == items[i].id
  {
    seq(|items|, i requires 0 <= i < |items| reads items => items[i].id)
  }

  /** The GUIDs of the models, in order. */
  function Guids(items: seq<BaseModel>): (r: seq<string>)
    reads items
    ensures |r| == |items|
    ensures forall i :: 0 <= i < |items| ==> r[i] == items[i].guid
  {
    seq(|items|, i requires 0 <= i < |items| reads items => items[i].guid)
  }

  /** The handle a lookup returns for a search result. */
  function Found(items: seq<BaseModel>, k: Option<nat>): (r: Locked)
    ensures k.Some? && k.value < |items| ==> r.Valid() && r.data == items[k.value]
    ensures !(k.Some? && k.value < |items|) ==> !r.Valid()
  {
    if k.Some? && k.value < |items| then Holding(items[k.value]) else Empty()
  }

  /**
   * A linear search for a GUID, the loop `findByGUID` runs: it stops at the
   * first model with that GUID.
   */
  method SearchGuid(items: seq<BaseModel>, guid: string) returns (k: Option<nat>)
    ensures k == FirstIndex(Guids(items), guid)
  {
    var i := 0;
    while i < |items|
      invariant 0 <= i <= |items|
      invariant guid !in Guids(items)[..i]
    {
      if items[i].guid == guid {
        assert Guids(items)[..i + 1] == Guids(items)[..i] + [guid];
        FirstIndexUnique(Guids(items), guid, i);
        return Some(i);
      }
      assert Guids(items)[..i + 1] == Guids(items)[..i] + [items[i].guid];
      i := i + 1;
    }
    assert Guids(items)[..i] == Guids(items);
    return None;
  }

  /** The loop `findByID` runs: it stops at the first model with that ID. */
  method SearchId(items: seq<BaseModel>, id: nat) returns (k: Option<nat>)
    ensures k == FirstIndex(Ids(items), id)
  {
    var i := 0;
    while i < |items|
      invariant 0 <= i <= |items|
      invariant id !in Ids(items)[..i]
    {
      if items[i].id == id {
        FirstIndexUnique(Ids(items), id, i);
        return Some(i);
      }
      assert Ids(items)[..i + 1] == Ids(items)[..i] + [items[i].id];
      i := i + 1;
    }
    assert Ids(items)[..i] == Ids(items);
    return None;
  }

  /** A position holding `x` with no `x` before it is the first position of `x`. */
  lemma {:induction false} FirstIndexUnique<T>(xs: seq<T>, x: T, i: nat)
    requires i < |xs| && xs[i] == x && x !in xs[..i]
    ensures FirstIndex(xs, x) == Some(i)
  {
    if i > 0 {
      assert xs[0] == xs[..i][0];
      assert xs[1..][..i - 1] == xs[..i][1..];
      FirstIndexUnique(xs[1..], x, i - 1);
    }
  }

  /**
   * `ProtectedModel` / `ProtectedContainer`: the models of one kind, in
   * insertion order.
   */
  class ProtectedModel {
    var items: seq<BaseModel>

    /** An empty container. */
    constructor()
      ensures items == []
    {
      items := [];
    }

    /** `size`. */
    function Size(): (n: nat)
      reads this
      ensures n == |items|
    {
      |items|
    }

    /** `clear`: afterwards the container is empty. */
    method Clear()
      modifies this`items
      ensures items == [] && Size() == 0
    {
      items := [];
    }

    /** `create`: appends one new, empty model and hands it back. */
    method Create() returns (r: Locked)
      modifies this`items
      ensures r.Valid() && fresh(r.data)
      ensures items == old(items) + [r.data]
      ensures Size() == old(Size()) + 1
      ensures r.data.id == 0 && r.data.guid == ""
    {
      var m := new BaseModel();
      items := items + [m];
      r := Holding(m);
    }

    /** `create(uuid, id)` of the tested container: appends a new model with that GUID and ID. */
    method CreateWith(guid: string, id: nat) returns (r: Locked)
      modifies this`items
      ensures r.Valid() && fresh(r.data)
      ensures items == old(items) + [r.data]
      ensures r.data.id == id && r.data.guid == guid
    {
      var m := new BaseModel();
      m.SetGUID(guid);
      m.SetID(id);
      items := items + [m];
      r := Holding(m);
    }

    /** `findByID` / `byId`: the first model with that ID, or an invalid handle. */
    method FindByID(id: nat) returns (r: Locked)
      ensures r == Found(items, FirstIndex(Ids(items), id))
      ensures r.Valid() <==> id in Ids(items)
      ensures r.Valid() ==> r.data in items && r.data.id == id
    {
      var k := SearchId(items, id);
      r := Found(items, k);
    }

    /** `findByGUID` / `operator[](uuid)`: the first model with that GUID, or an invalid handle. */
    method FindByGUID(guid: string) returns (r: Locked)
      ensures r == Found(items, FirstIndex(Guids(items), guid))
      ensures r.Valid() <==> guid in Guids(items)
      ensures r.Valid() ==> r.data in items && r.data.guid == guid
    {
      var k := SearchGuid(items, guid);
      r := Found(items, k);
    }

    /** `operator[](size_t)`: the model at a position, or an invalid handle past the end. */
    method At(index: nat) returns (r: Locked)
      ensures index < |items| ==> r.Valid() && r.data == items[index]
      ensures index >= |items| ==> !r.Valid()
    {
      r := if index < |items| then Holding(items[index]) else Empty();
    }

    /** `remove(uuid)`: takes out the first model with that GUID, if there is one. */
    method Remove(guid: string)
      modifies this`items
      ensures FirstIndex(Guids(old(items)), guid).None? ==> items == old(items)
      ensures FirstIndex(Guids(old(items)), guid).Some? ==>
                items == Without(old(items), FirstIndex(Guids(old(items)), guid).value)
    {
      var k := SearchGuid(items, guid);
      if k.Some? {
        items := Without(items, k.value);
      }
    }

    /** `erase(iterator)`: takes out the model at a position. */
    method Erase(index: nat)
      requires index < |items|
      modifies this`items
      ensures items == Without(old(items), index)
      ensures Size() == old(Size()) - 1
    {
      items := Without(items, index);
    }
  }

  /** The GUIDs after taking a position out are the GUIDs before, with that position taken out. */
  lemma GuidsWithout(items: seq<BaseModel>, k: nat)
    requires k < |items|
    ensures Guids(Without(items, k)) == Without(Guids(items), k)
    ensures Ids(Without(items, k)) == Without(Ids(items), k)
  {
  }

  /**
   * Removing the model with a GUID, when GUIDs and IDs are unique, leaves
   * one model fewer, and that model is found neither by its GUID nor by
   * its ID.
   */
  lemma RemovedModelIsGone(items: seq<BaseModel>, k: nat)
    requires k < |items|
    requires NoDuplicates(Guids(items)) && NoDuplicates(Ids(items))
    ensures |Without(items, k)| == |items| - 1
    ensures Found(Without(items, k), FirstIndex(Guids(Without(items, k)), items[k].guid)) == Empty()
    ensures Found(Without(items, k), FirstIndex(Ids(Without(items, k)), items[k].id)) == Empty()
  {
    GuidsWithout(items, k);
    WithoutUniqueIsGone(Guids(items), k);
    WithoutUniqueIsGone(Ids(items), k);
  }

  /** Removing one model leaves every model with another GUID findable by it. */
  lemma RemovalKeepsOthersFindable(items: seq<BaseModel>, k: nat, guid: string)
    requires k < |items| && guid in Guids(items) && guid != items[k].guid
    ensures Found(Without(items, k), FirstIndex(Guids(Without(items, k)), guid)).Valid()
  {
    GuidsWithout(items, k);
    WithoutKeepsOthers(Guids(items), k, guid);
  }
}
