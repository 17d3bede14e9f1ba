/**
  The in-memory collection every request handler loads, changes and saves back:
  an ordered sequence of items and the counter for the next id. The lookups and
  the object-spread merges are functions; the in-place changes a handler makes to
  the loaded object are methods of class Data, each specified by a function on
  State.
 */
module Collection {
  import opened Wrappers
  import opened Json

  /** An item is a JSON object, seen as a shallow map from field names to values. */
  type Item = map<string, Value>

  /** The persisted collection: the ordered items and the next id to hand out. */
  datatype State = State(items: seq<Item>, nextId: int)

  /** The state written on first start and used when the file is missing or corrupt. */
  const Empty := State([], 1)

  /** The integer `id` field of an item, if it has one. */
  function IdOf(item: Item): Option<int>
  {
    if "id" in item && item["id"].Num? then Some(item["id"].n) else None
  }

  /**
    `item.id === id` for an id parsed from a request path. None stands for NaN,
    which is strictly equal to nothing, not even to an item without an id.
   */
  predicate Matches(item: Item, id: Option<int>)
  {
    id.Some? && IdOf(item) == id
  }

  /** `items.findIndex(item => item.id === id)`: the first matching index, or -1. */
  function FindIndex(items: seq<Item>, id: Option<int>): (r: int)
    ensures -1 <= r < |items|
    ensures r == -1 <==> forall j :: 0 <= j < |items| ==> !Matches(items[j], id)
    ensures r != -1 ==> Matches(items[r], id) && forall j :: 0 <= j < r ==> !Matches(items[j], id)
  {
    if |items| == 0 then -1
    else if Matches(items[0], id) then 0
    else
      var k := FindIndex(items[1..], id);
      if k == -1 then -1 else k + 1
  }

  /** `items.find(item => item.id === id)`: the first matching item, if any. */
  function Find(items: seq<Item>, id: Option<int>): (r: Option<Item>)
    ensures r.None? <==> forall j :: 0 <= j < |items| ==> !Matches(items[j], id)
    ensures r.Some? ==>
      exists j :: 0 <= j < |items| && items[j] == r.value && Matches(r.value, id) &&
        forall k :: 0 <= k < j ==> !Matches(items[k], id)
  {
    var i := FindIndex(items, id);
    if i == -1 then None else Some(items[i])
  }

  /**
    The item built on create, `{ id: nextId, ...body, createdAt }`. Map `+` keeps
    the right-hand value for a shared key, as a later spread does, so a body `id`
    overrides the generated one while `createdAt` is always the server's.
   */
  function NewItem(nextId: int, body: Item, createdAt: string): (r: Item)
    ensures r.Keys == body.Keys + {"id", "createdAt"}
    ensures r["createdAt"] == Str(createdAt)
    ensures r["id"] == if "id" in body then body["id"] else Num(nextId)
    ensures forall k :: k in body && k != "createdAt" ==> r[k] == body[k]
  {
    map["id" := Num(nextId)] + body + map["createdAt" := Str(createdAt)]
  }

  /**
    The item built on update, `{ ...existing, ...body, id, updatedAt }`: body
    fields override stored ones, then the path id and the server timestamp
    override both.
   */
  function UpdatedItem(existing: Item, body: Item, id: int, updatedAt: string): (r: Item)
    ensures r.Keys == existing.Keys + body.Keys + {"id", "updatedAt"}
    ensures r["id"] == Num(id) && r["updatedAt"] == Str(updatedAt)
    ensures forall k :: k in body && k != "id" && k != "updatedAt" ==> r[k] == body[k]
    ensures forall k :: k in existing && k !in body && k != "id" && k != "updatedAt" ==> r[k] == existing[k]
  {
    existing + body + map["id" := Num(id), "updatedAt" := Str(updatedAt)]
  }

  /** The state after a create: the new item appended, the counter advanced. */
  function CreateState(s: State, body: Item, createdAt: string): (r: State)
    ensures |r.items| == |s.items| + 1 && r.items[..|s.items|] == s.items
    ensures r.items[|s.items|] == NewItem(s.nextId, body, createdAt)
    ensures r.nextId == s.nextId + 1
  {
    State(s.items + [NewItem(s.nextId, body, createdAt)], s.nextId + 1)
  }

  /** The state after an update, or None when no item has the id. */
  function UpdateState(s: State, id: Option<int>, body: Item, updatedAt: string): (r: Option<State>)
    ensures r.None? <==> FindIndex(s.items, id) == -1
    ensures r.Some? ==>
      var i := FindIndex(s.items, id);
      && r.value.nextId == s.nextId
      && |r.value.items| == |s.items|
      && r.value.items[i] == UpdatedItem(s.items[i], body, id.value, updatedAt)
      && forall j :: 0 <= j < |s.items| && j != i ==> r.value.items[j] == s.items[j]
  {
    var i := FindIndex(s.items, id);
    if i == -1 then None
    else Some(State(s.items[i := UpdatedItem(s.items[i], body, id.value, updatedAt)], s.nextId))
  }

  /** `items.splice(i, 1)`: the item at i is gone; those after it move down by one. */
  function RemoveAt(items: seq<Item>, i: nat): (r: seq<Item>)
    requires i < |items|
    ensures |r| == |items| - 1
    ensures forall j :: 0 <= j < i ==> r[j] == items[j]
    ensures forall j :: i <= j < |r| ==> r[j] == items[j + 1]
  {
    items[..i] + items[i + 1..]
  }

  /** The state after a delete, or None when no item has the id. */
  function DeleteState(s: State, id: Option<int>): (r: Option<State>)
    ensures r.None? <==> FindIndex(s.items, id) == -1
    ensures r.Some? ==>
      var i := FindIndex(s.items, id);
      && r.value.nextId == s.nextId
      && |r.value.items| == |s.items| - 1
      && (forall j :: 0 <= j < i ==> r.value.items[j] == s.items[j])
      && (forall j :: i <= j < |r.value.items| ==> r.value.items[j] == s.items[j + 1])
  {
    var i := FindIndex(s.items, id);
    if i == -1 then None else Some(State(RemoveAt(s.items, i), s.nextId))
  }

  /** The object JSON.parse returns, which a handler changes in place before saving it. */
  class Data {
    var items: seq<Item>
    var nextId: int

    constructor (s: State)
      ensures items == s.items && nextId == s.nextId
    {
      items := s.items;
      nextId := s.nextId;
    }

    /** The value handed to the file writer. */
    function Snapshot(): State
      reads this
    {
      State(items, nextId)
    }

    /** `data.items.push(newItem); data.nextId += 1`, returning the new item. */
    method Create(body: Item, createdAt: string) returns (item: Item)
      modifies this
      ensures item == NewItem(old(nextId), body, createdAt)
      ensures Snapshot() == CreateState(old(Snapshot()), body, createdAt)
    {
      item := NewItem(nextId, body, createdAt);
      items := items + [item];
      nextId := nextId + 1;
    }

    /**
      Finds the first item with the id and, when there is one, overwrites it in
      place with the merged item, which it returns; otherwise changes nothing.
     */
    method Update(id: Option<int>, body: Item, updatedAt: string) returns (updated: Option<Item>)
      modifies this
      ensures updated.None? <==> UpdateState(old(Snapshot()), id, body, updatedAt).None?
      ensures updated.None? ==> items == old(items) && nextId == old(nextId)
      ensures updated.Some? ==>
        && Snapshot() == UpdateState(old(Snapshot()), id, body, updatedAt).value
        && updated.value == UpdatedItem(old(items)[FindIndex(old(items), id)], body, id.value, updatedAt)
    {
      var i := FindIndex(items, id);
      if i == -1 {
        return None;
      }
      var item := UpdatedItem(items[i], body, id.value, updatedAt);
      items := items[i := item];
      updated := Some(item);
    }

    /**
      Finds the first item with the id and, when there is one, splices it out;
      otherwise changes nothing. Reports whether an item was removed.
     */
    method Delete(id: Option<int>) returns (removed: bool)
      modifies this
      ensures removed <==> DeleteState(old(Snapshot()), id).Some?
      ensures !removed ==> items == old(items) && nextId == old(nextId)
      ensures removed ==> Snapshot() == DeleteState(old(Snapshot()), id).value
    {
      var i := FindIndex(items, id);
      if i == -1 {
        return false;
      }
      items := RemoveAt(items, i);
      removed := true;
    }
  }
}
