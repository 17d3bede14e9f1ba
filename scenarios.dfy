/**
  The worked request scenario played through the handlers themselves: each
  request reads exactly what the previous one saved.
 */
module Scenarios {
  import opened Wrappers
  import opened Json
  import opened Collection
  import opened Store
  import opened Router
  import Properties

  function ItemA(t1: string): Item
  {
    map["id" := Num(1), "name" := Str("a"), "createdAt" := Str(t1)]
  }

  function ItemB(t1: string, t2: string): Item
  {
    map["id" := Num(1), "name" := Str("b"), "createdAt" := Str(t1), "updatedAt" := Str(t2)]
  }

  /** POST {name: "a"} on a missing file. */
  method PostA(t1: string) returns (resp: Response, saved: Option<State>)
    ensures resp == Created(ItemA(t1)) && saved == Some(State([ItemA(t1)], 2))
  {
    Properties.WalkCreate(t1);
    resp, saved := PostItem(IoError(ENOENT), map["name" := Str("a")], t1, false);
  }

  /** PUT /1 {name: "b"} on what PostA saved. */
  method PutB(prev: Option<State>, t1: string, t2: string) returns (resp: Response, saved: Option<State>)
    requires prev == Some(State([ItemA(t1)], 2))
    ensures resp == Ok(ItemB(t1, t2)) && saved == Some(State([ItemB(t1, t2)], 2))
  {
    Properties.WalkUpdate(t1, t2);
    resp, saved := PutItem(Contents(Decoded(prev.value)), Some(1), map["name" := Str("b")], t2, false);
  }

  /** DELETE /1 on what PutB saved. */
  method DeleteB(prev: Option<State>, t1: string, t2: string) returns (resp: Response, saved: Option<State>)
    requires prev == Some(State([ItemB(t1, t2)], 2))
    ensures resp == NoContent && saved == Some(State([], 2))
  {
    Properties.WalkDelete(t1, t2);
    resp, saved := DeleteItem(Contents(Decoded(prev.value)), Some(1), false);
  }

  /**
    On a missing file: POST {name: "a"} answers 201 with id 1, PUT /1
    {name: "b"} answers 200 with the merged item, DELETE /1 answers 204, and
    GET /1 answers 404. Each request reads what the previous one saved.
   */
  method WalkthroughResponses(t1: string, t2: string)
    returns (created: Response, updated: Response, deleted: Response, fetched: Response)
    ensures created == Created(map["id" := Num(1), "name" := Str("a"), "createdAt" := Str(t1)])
    ensures updated == Ok(map["id" := Num(1), "name" := Str("b"), "createdAt" := Str(t1), "updatedAt" := Str(t2)])
    ensures deleted == NoContent && fetched == NotFound
    ensures [Status(created), Status(updated), Status(deleted), Status(fetched)] == [201, 200, 204, 404]
  {
    var s1, s2, s3;
    created, s1 := PostA(t1);
    updated, s2 := PutB(s1, t1, t2);
    deleted, s3 := DeleteB(s2, t1, t2);
    fetched := GetItem(Contents(Decoded(s3.value)), Some(1));
  }
}
