/**
  What the create, update and delete operations promise about ids and lookups,
  alone and over a sequence of requests whose saves succeed.
 */
module Properties {
  import opened Wrappers
  import opened Json
  import opened Collection

  /** Every stored integer id is below the counter, so the counter is fresh. */
  predicate IdsBelowNext(s: State)
  {
    forall j :: 0 <= j < |s.items| && IdOf(s.items[j]).Some? ==> IdOf(s.items[j]).value < s.nextId
  }

  /** No two stored items share an integer id. */
  predicate UniqueIds(items: seq<Item>)
  {
    forall i, j :: 0 <= i < j < |items| && IdOf(items[i]).Some? ==> IdOf(items[i]) != IdOf(items[j])
  }

  predicate WellNumbered(s: State)
  {
    IdsBelowNext(s) && UniqueIds(s.items)
  }

  /** An appended item is found only by a lookup that found nothing before. */
  lemma {:induction false} FindIndexAppend(items: seq<Item>, x: Item, id: Option<int>)
    ensures FindIndex(items + [x], id) ==
      if FindIndex(items, id) != -1 then FindIndex(items, id)
      else if Matches(x, id) then |items|
      else -1
  {
    if |items| > 0 && !Matches(items[0], id) {
      assert (items + [x])[1..] == items[1..] + [x];
      FindIndexAppend(items[1..], x, id);
    }
  }

  // ---- create ----

  /**
    Create then get: with an id-less body, the new item gets the old counter as
    its id and a lookup of that id finds exactly it.
   */
  lemma CreateThenGet(s: State, body: Item, now: string)
    requires IdsBelowNext(s) && "id" !in body
    ensures IdOf(NewItem(s.nextId, body, now)) == Some(s.nextId)
    ensures Find(CreateState(s, body, now).items, Some(s.nextId)) == Some(NewItem(s.nextId, body, now))
  {
    FindIndexAppend(s.items, NewItem(s.nextId, body, now), Some(s.nextId));
  }

  /**
    A create never changes what a lookup finds among the earlier items: an item
    created with a body id that is already stored stays hidden behind the
    earlier item with that id, until every earlier item with that id is deleted.
   */
  lemma CreateNeverShadows(s: State, body: Item, now: string, id: Option<int>)
    requires Find(s.items, id).Some?
    ensures Find(CreateState(s, body, now).items, id) == Find(s.items, id)
  {
    FindIndexAppend(s.items, NewItem(s.nextId, body, now), id);
  }

  /** Create with an id-less body keeps ids below the counter and distinct. */
  lemma CreatePreservesNumbering(s: State, body: Item, now: string)
    requires WellNumbered(s) && "id" !in body
    ensures WellNumbered(CreateState(s, body, now))
  {
    var r := CreateState(s, body, now);
    assert IdOf(r.items[|s.items|]) == Some(s.nextId);
    forall j | 0 <= j < |r.items| && IdOf(r.items[j]).Some?
      ensures IdOf(r.items[j]).value < r.nextId
    {
      if j < |s.items| {
        assert r.items[j] == s.items[j];
      }
    }
    forall i, j | 0 <= i < j < |r.items| && IdOf(r.items[i]).Some?
      ensures IdOf(r.items[i]) != IdOf(r.items[j])
    {
      assert r.items[i] == s.items[i];
      if j < |s.items| {
        assert r.items[j] == s.items[j];
      }
    }
  }

  /**
    A body id overrides the counter: the new item carries the body's id, which
    can duplicate a stored id or run ahead of the counter.
   */
  lemma CreateWithBodyId(s: State, body: Item, k: int, now: string)
    requires "id" in body && body["id"] == Num(k)
    ensures IdOf(CreateState(s, body, now).items[|s.items|]) == Some(k)
    ensures k >= s.nextId + 1 ==> !IdsBelowNext(CreateState(s, body, now))
    ensures (exists j :: 0 <= j < |s.items| && IdOf(s.items[j]) == Some(k)) ==>
      !UniqueIds(CreateState(s, body, now).items)
  {
    var r := CreateState(s, body, now);
    var n := |s.items|;
    assert IdOf(r.items[n]) == Some(k);
    if exists j :: 0 <= j < n && IdOf(s.items[j]) == Some(k) {
      var j :| 0 <= j < n && IdOf(s.items[j]) == Some(k);
      assert r.items[j] == s.items[j];
      assert IdOf(r.items[j]) == IdOf(r.items[n]);
    }
  }

  /**
    A duplicate made by a body id surfaces once the earlier item is deleted: in
    a store whose ids are distinct, a get of that id first finds the stored
    item, and after a delete of that id it returns the new item. So a delete
    removes every trace of an id only when ids are distinct.
   */
  lemma DuplicateSurfacesAfterDelete(s: State, body: Item, k: int, now: string)
    requires UniqueIds(s.items) && "id" in body && body["id"] == Num(k)
    requires Find(s.items, Some(k)).Some?
    ensures var c := CreateState(s, body, now);
      && Find(c.items, Some(k)) == Find(s.items, Some(k))
      && DeleteState(c, Some(k)).Some?
      && Find(DeleteState(c, Some(k)).value.items, Some(k)) == Some(NewItem(s.nextId, body, now))
  {
    var y := NewItem(s.nextId, body, now);
    var c := CreateState(s, body, now);
    var n := |s.items|;
    var i := FindIndex(s.items, Some(k));
    CreateNeverShadows(s, body, now, Some(k));
    FindIndexAppend(s.items, y, Some(k));
    assert c.items == s.items + [y];
    assert FindIndex(c.items, Some(k)) == i;
    var d := DeleteState(c, Some(k)).value.items;
    assert |d| == n && d[n - 1] == y;
    forall j | 0 <= j < n - 1
      ensures !Matches(d[j], Some(k))
    {
      if j >= i {
        assert d[j] == s.items[j + 1];
        assert IdOf(s.items[i]) != IdOf(s.items[j + 1]);
      }
    }
    FindIndexIs(d, Some(k), n - 1);
  }

  // ---- update ----

  /**
    Update lets a body overwrite `createdAt`: only `id` and `updatedAt` are
    forced, so a body `createdAt` replaces the stored creation time.
   */
  lemma UpdateOverwritesCreatedAt(existing: Item, body: Item, id: int, now: string)
    requires "createdAt" in body
    ensures UpdatedItem(existing, body, id, now)["createdAt"] == body["createdAt"]
  {
  }

  /**
    Update then get: the lookup finds the merged item, whose id is still the one
    it was found by, whatever the body said.
   */
  lemma UpdateThenGet(s: State, id: Option<int>, body: Item, now: string)
    requires UpdateState(s, id, body, now).Some?
    ensures var i := FindIndex(s.items, id);
      && IdOf(UpdateState(s, id, body, now).value.items[i]) == IdOf(s.items[i])
      && Find(UpdateState(s, id, body, now).value.items, id) == Some(UpdatedItem(s.items[i], body, id.value, now))
  {
    var i := FindIndex(s.items, id);
    var r := UpdateState(s, id, body, now).value;
    assert Matches(r.items[i], id);
    assert forall j :: 0 <= j < i ==> r.items[j] == s.items[j];
  }

  /** Update keeps ids below the counter and distinct, even when the body has an id. */
  lemma UpdatePreservesNumbering(s: State, id: Option<int>, body: Item, now: string)
    requires WellNumbered(s) && UpdateState(s, id, body, now).Some?
    ensures WellNumbered(UpdateState(s, id, body, now).value)
  {
    var i := FindIndex(s.items, id);
    var r := UpdateState(s, id, body, now).value;
    assert IdOf(r.items[i]) == IdOf(s.items[i]);
    assert forall j :: 0 <= j < |r.items| ==> IdOf(r.items[j]) == IdOf(s.items[j]);
  }

  // ---- delete ----

  lemma RemoveAtMultiset(items: seq<Item>, i: nat)
    requires i < |items|
    ensures multiset(RemoveAt(items, i)) + multiset{items[i]} == multiset(items)
  {
    assert items == items[..i] + [items[i]] + items[i + 1..];
  }

  /** Delete removes exactly one occurrence of the found item and nothing else. */
  lemma DeleteRemovesOne(s: State, id: Option<int>)
    requires DeleteState(s, id).Some?
    ensures multiset(DeleteState(s, id).value.items) + multiset{s.items[FindIndex(s.items, id)]}
      == multiset(s.items)
  {
    RemoveAtMultiset(s.items, FindIndex(s.items, id));
  }

  /** With distinct ids, a deleted id is no longer found. */
  lemma DeleteThenGet(s: State, id: Option<int>)
    requires UniqueIds(s.items) && DeleteState(s, id).Some?
    ensures Find(DeleteState(s, id).value.items, id).None?
  {
    var i := FindIndex(s.items, id);
    var r := DeleteState(s, id).value;
    forall j | 0 <= j < |r.items|
      ensures !Matches(r.items[j], id)
    {
      if j >= i {
        assert r.items[j] == s.items[j + 1];
        assert IdOf(s.items[i]) != IdOf(s.items[j + 1]);
      }
    }
  }

  /** FindIndex is determined by its contract: the first match, or -1. */
  lemma FindIndexIs(items: seq<Item>, id: Option<int>, k: int)
    requires -1 <= k < |items|
    requires k != -1 ==> Matches(items[k], id)
    requires forall j :: 0 <= j < |items| && (k == -1 || j < k) ==> !Matches(items[j], id)
    ensures FindIndex(items, id) == k
  {
  }

  /** Delete does not change what a lookup of any other id finds. */
  lemma DeleteKeepsOthers(s: State, id: Option<int>, other: Option<int>)
    requires DeleteState(s, id).Some? && other != id
    ensures Find(DeleteState(s, id).value.items, other) == Find(s.items, other)
  {
    var i := FindIndex(s.items, id);
    var r := RemoveAt(s.items, i);
    assert !Matches(s.items[i], other);
    var k := FindIndex(s.items, other);
    var k' := if k == -1 then -1 else if k < i then k else k - 1;
    assert k' != -1 ==> r[k'] == s.items[k];
    forall j | 0 <= j < |r| && (k' == -1 || j < k') ensures !Matches(r[j], other) {
      assert r[j] == s.items[if j < i then j else j + 1];
    }
    FindIndexIs(r, other, k');
  }

  /** Delete keeps ids below the counter and distinct. */
  lemma DeletePreservesNumbering(s: State, id: Option<int>)
    requires WellNumbered(s) && DeleteState(s, id).Some?
    ensures WellNumbered(DeleteState(s, id).value)
  {
    var i := FindIndex(s.items, id);
    var r := DeleteState(s, id).value;
    assert forall j :: 0 <= j < |r.items| ==> r.items[j] == s.items[if j < i then j else j + 1];
  }

  // ---- sequences of requests ----

  /** A write request whose load and save succeed. */
  datatype Request =
    | Post(body: Item, now: string)
    | Put(id: Option<int>, body: Item, now: string)
    | Delete(id: Option<int>)

  /** The saved state after one request; a not-found request saves nothing. */
  function Apply(s: State, r: Request): State
  {
    match r
    case Post(body, now) => CreateState(s, body, now)
    case Put(id, body, now) =>
      var u := UpdateState(s, id, body, now); if u.Some? then u.value else s
    case Delete(id) =>
      var d := DeleteState(s, id); if d.Some? then d.value else s
  }

  function Run(s: State, rs: seq<Request>): State
    decreases |rs|
  {
    if rs == [] then s else Run(Apply(s, rs[0]), rs[1..])
  }

  /** The items the requests' posts created, in order. */
  function CreatedItems(s: State, rs: seq<Request>): seq<Item>
    decreases |rs|
  {
    if rs == [] then []
    else
      var head := if rs[0].Post? then [NewItem(s.nextId, rs[0].body, rs[0].now)] else [];
      head + CreatedItems(Apply(s, rs[0]), rs[1..])
  }

  predicate IdlessPosts(rs: seq<Request>)
  {
    forall i :: 0 <= i < |rs| && rs[i].Post? ==> "id" !in rs[i].body
  }

  lemma IdlessTail(rs: seq<Request>)
    requires rs != [] && IdlessPosts(rs)
    ensures IdlessPosts(rs[1..])
  {
    forall i | 0 <= i < |rs[1..]| && rs[1..][i].Post? ensures "id" !in rs[1..][i].body {
      assert rs[1..][i] == rs[i + 1];
    }
  }

  /** Only a post moves the counter, by one. */
  lemma ApplyCounter(s: State, r: Request)
    ensures Apply(s, r).nextId == if r.Post? then s.nextId + 1 else s.nextId
  {
  }

  /** Any run of requests with id-less posts keeps ids below the counter and distinct. */
  lemma {:induction false} RunPreservesNumbering(s: State, rs: seq<Request>)
    requires WellNumbered(s) && IdlessPosts(rs)
    ensures WellNumbered(Run(s, rs))
    decreases |rs|
  {
    if rs != [] {
      match rs[0] {
        case Post(body, now) => CreatePreservesNumbering(s, body, now);
        case Put(id, body, now) =>
          if UpdateState(s, id, body, now).Some? { UpdatePreservesNumbering(s, id, body, now); }
        case Delete(id) =>
          if DeleteState(s, id).Some? { DeletePreservesNumbering(s, id); }
      }
      IdlessTail(rs);
      RunPreservesNumbering(Apply(s, rs[0]), rs[1..]);
    }
  }

  /** The items carry integer ids in [lo, hi), strictly increasing along the sequence. */
  predicate IncreasingIdsIn(c: seq<Item>, lo: int, hi: int)
  {
    && (forall i :: 0 <= i < |c| ==> IdOf(c[i]).Some? && lo <= IdOf(c[i]).value < hi)
    && (forall i, j :: 0 <= i < j < |c| ==> IdOf(c[i]).value < IdOf(c[j]).value)
  }

  /**
    Ids handed out by id-less posts, interleaved with any updates and deletes,
    strictly increase, start at the counter and stay below the final counter:
    an id is never handed out twice, even after its item was deleted.
   */
  lemma {:induction false} RunAssignsIncreasingIds(s: State, rs: seq<Request>)
    requires IdlessPosts(rs)
    ensures s.nextId <= Run(s, rs).nextId
    ensures IncreasingIdsIn(CreatedItems(s, rs), s.nextId, Run(s, rs).nextId)
    decreases |rs|
  {
    if rs != [] {
      var t := Apply(s, rs[0]);
      IdlessTail(rs);
      RunAssignsIncreasingIds(t, rs[1..]);
      ApplyCounter(s, rs[0]);
      var rest := CreatedItems(t, rs[1..]);
      var hi := Run(s, rs).nextId;
      assert Run(t, rs[1..]).nextId == hi;
      if rs[0].Post? {
        var x := NewItem(s.nextId, rs[0].body, rs[0].now);
        assert CreatedItems(s, rs) == [x] + rest;
        NewItemId(s.nextId, rs[0].body, rs[0].now);
        PrependLowest(x, rest, s.nextId, hi);
      } else {
        assert CreatedItems(s, rs) == rest;
      }
    }
  }

  lemma PrependLowest(x: Item, c: seq<Item>, lo: int, hi: int)
    requires IdOf(x) == Some(lo) && lo < hi
    requires IncreasingIdsIn(c, lo + 1, hi)
    ensures IncreasingIdsIn([x] + c, lo, hi)
  {
    assert forall i :: 0 < i < |[x] + c| ==> ([x] + c)[i] == c[i - 1];
  }

  // ---- worked scenarios ----

  lemma WalkCreate(t1: string)
    ensures CreateState(Empty, map["name" := Str("a")], t1) ==
      State([map["id" := Num(1), "name" := Str("a"), "createdAt" := Str(t1)]], 2)
  {
    var a := map["id" := Num(1), "name" := Str("a"), "createdAt" := Str(t1)];
    var x := NewItem(1, map["name" := Str("a")], t1);
    assert x.Keys == a.Keys;
    assert x == a;
    assert [] + [x] == [a];
  }

  lemma WalkUpdate(t1: string, t2: string)
    ensures UpdateState(State([map["id" := Num(1), "name" := Str("a"), "createdAt" := Str(t1)]], 2),
                        Some(1), map["name" := Str("b")], t2) ==
      Some(State([map["id" := Num(1), "name" := Str("b"), "createdAt" := Str(t1), "updatedAt" := Str(t2)]], 2))
  {
    var a := map["id" := Num(1), "name" := Str("a"), "createdAt" := Str(t1)];
    var b := map["id" := Num(1), "name" := Str("b"), "createdAt" := Str(t1), "updatedAt" := Str(t2)];
    assert Matches(a, Some(1));
    assert FindIndex([a], Some(1)) == 0;
    var y := UpdatedItem(a, map["name" := Str("b")], 1, t2);
    assert y.Keys == b.Keys;
    assert y == b;
    assert [a][0 := y] == [b];
  }

  lemma WalkDelete(t1: string, t2: string)
    ensures DeleteState(State([map["id" := Num(1), "name" := Str("b"), "createdAt" := Str(t1), "updatedAt" := Str(t2)]], 2), Some(1)) ==
      Some(State([], 2))
  {
    var b := map["id" := Num(1), "name" := Str("b"), "createdAt" := Str(t1), "updatedAt" := Str(t2)];
    assert Matches(b, Some(1));
    assert FindIndex([b], Some(1)) == 0;
  }

  /**
    Empty store, create {name: "a"}, update id 1 with {name: "b"}, delete id 1,
    then get id 1: each step runs on the previous step's result, and the final
    lookup finds nothing.
   */
  lemma Walkthrough(t1: string, t2: string)
    ensures
      var s1 := CreateState(Empty, map["name" := Str("a")], t1);
      var s2 := UpdateState(s1, Some(1), map["name" := Str("b")], t2);
      && s1 == State([map["id" := Num(1), "name" := Str("a"), "createdAt" := Str(t1)]], 2)
      && s2 == Some(State([map["id" := Num(1), "name" := Str("b"), "createdAt" := Str(t1), "updatedAt" := Str(t2)]], 2))
      && DeleteState(s2.value, Some(1)) == Some(State([], 2))
      && Find(DeleteState(s2.value, Some(1)).value.items, Some(1)).None?
  {
    WalkCreate(t1);
    WalkUpdate(t1, t2);
    WalkDelete(t1, t2);
  }

  lemma NewItemId(n: int, body: Item, now: string)
    requires "id" !in body
    ensures IdOf(NewItem(n, body, now)) == Some(n)
  {
  }

  lemma DeleteSecond(x1: Item, x2: Item, x3: Item)
    requires IdOf(x1) == Some(1) && IdOf(x2) == Some(2)
    ensures DeleteState(State([x1, x2, x3], 4), Some(2)) == Some(State([x1, x3], 4))
  {
    assert FindIndex([x1, x2, x3], Some(2)) == 1;
    assert RemoveAt([x1, x2, x3], 1) == [x1, x3];
  }

  /** Create three items into an empty store, delete id 2: items 1 and 3 remain, in order. */
  lemma DeleteMiddle(b1: Item, b2: Item, b3: Item, now: string)
    requires "id" !in b1 && "id" !in b2 && "id" !in b3
    ensures DeleteState(CreateState(CreateState(CreateState(Empty, b1, now), b2, now), b3, now), Some(2)) ==
      Some(State([NewItem(1, b1, now), NewItem(3, b3, now)], 4))
  {
    var x1, x2, x3 := NewItem(1, b1, now), NewItem(2, b2, now), NewItem(3, b3, now);
    assert CreateState(CreateState(CreateState(Empty, b1, now), b2, now), b3, now) == State([x1, x2, x3], 4) by {
      assert CreateState(Empty, b1, now) == State([x1], 2);
      assert CreateState(State([x1], 2), b2, now) == State([x1, x2], 3);
      assert CreateState(State([x1, x2], 3), b3, now) == State([x1, x2, x3], 4);
    }
    NewItemId(1, b1, now);
    NewItemId(2, b2, now);
    DeleteSecond(x1, x2, x3);
  }
}
