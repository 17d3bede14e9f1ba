/**
  The /api/items request handlers. Each loads the whole collection, changes the
  loaded object in place for a write, saves it and answers with a status code.
  Routing, the response objects and the timestamps' clock are not modelled: the
  path id arrives already parsed (None for NaN), the timestamp as a string, and
  whether the save fails as a flag. Each handler also returns the state it
  handed to the file writer, or None when it saved nothing.
 */
module Router {
  import opened Wrappers
  import opened Collection
  import opened Store

  /** The answers a handler gives. */
  datatype Response =
    | Listed(items: seq<Item>)        // 200 with the item array
    | Ok(item: Item)                  // 200 with one item
    | Created(item: Item)             // 201 with the new item
    | NoContent                       // 204 with an empty body
    | NotFound                        // 404 with { error: "Item not found" }
    | ServerError(message: string)    // 500 with { error: message }

  function Status(r: Response): int
  {
    match r
    case Listed(_) => 200
    case Ok(_) => 200
    case Created(_) => 201
    case NoContent => 204
    case NotFound => 404
    case ServerError(_) => 500
  }

  const ListFailed := "Failed to retrieve items"
  const GetFailed := "Failed to retrieve item"
  const CreateFailed := "Failed to create item"
  const UpdateFailed := "Failed to update item"
  const DeleteFailed := "Failed to delete item"

  /** GET /api/items: the stored items, in order; a corrupt or missing file lists none. */
  method ListItems(f: FileRead) returns (resp: Response)
    ensures ReadDataFile(f).Success? ==> resp == Listed(ReadDataFile(f).value.items)
    ensures ReadDataFile(f).Failure? ==> resp == ServerError(ListFailed)
    ensures f == Contents(SyntaxError) || f == IoError(ENOENT) ==> resp == Listed([])
  {
    var loaded := ReadDataFile(f);
    if loaded.Failure? {
      return ServerError(ListFailed);
    }
    resp := Listed(loaded.value.items);
  }

  /** GET /api/items/:id: the first item with the id, or 404. */
  method GetItem(f: FileRead, id: Option<int>) returns (resp: Response)
    ensures ReadDataFile(f).Failure? ==> resp == ServerError(GetFailed)
    ensures ReadDataFile(f).Success? ==>
      var items := ReadDataFile(f).value.items;
      && (resp == NotFound <==> forall j :: 0 <= j < |items| ==> !Matches(items[j], id))
      && (resp != NotFound ==> resp == Ok(items[FindIndex(items, id)]))
    ensures id.None? ==> Status(resp) != 200
  {
    var loaded := ReadDataFile(f);
    if loaded.Failure? {
      return ServerError(GetFailed);
    }
    var item := Find(loaded.value.items, id);
    if item.None? {
      return NotFound;
    }
    resp := Ok(item.value);
  }

  /** POST /api/items: appends the new item, advances the counter and saves. */
  method PostItem(f: FileRead, body: Item, now: string, writeFails: bool)
    returns (resp: Response, saved: Option<State>)
    ensures ReadDataFile(f).Failure? ==> resp == ServerError(CreateFailed) && saved == None
    ensures ReadDataFile(f).Success? ==>
      var s := ReadDataFile(f).value;
      && saved == Some(CreateState(s, body, now))
      && resp == if writeFails then ServerError(CreateFailed) else Created(NewItem(s.nextId, body, now))
  {
    var loaded := ReadDataFile(f);
    if loaded.Failure? {
      return ServerError(CreateFailed), None;
    }
    var data := new Data(loaded.value);
    var item := data.Create(body, now);
    saved := Some(data.Snapshot());
    resp := if writeFails then ServerError(CreateFailed) else Created(item);
  }

  /** PUT /api/items/:id: merges the body into the first item with the id and saves, or 404. */
  method PutItem(f: FileRead, id: Option<int>, body: Item, now: string, writeFails: bool)
    returns (resp: Response, saved: Option<State>)
    ensures ReadDataFile(f).Failure? ==> resp == ServerError(UpdateFailed) && saved == None
    ensures ReadDataFile(f).Success? ==>
      var s := ReadDataFile(f).value;
      var i := FindIndex(s.items, id);
      && (i == -1 ==> resp == NotFound && saved == None)
      && (i != -1 ==>
           && saved == UpdateState(s, id, body, now)
           && resp == if writeFails then ServerError(UpdateFailed)
                      else Ok(UpdatedItem(s.items[i], body, id.value, now)))
    ensures id.None? ==> saved == None
  {
    var loaded := ReadDataFile(f);
    if loaded.Failure? {
      return ServerError(UpdateFailed), None;
    }
    var data := new Data(loaded.value);
    var updated := data.Update(id, body, now);
    if updated.None? {
      return NotFound, None;
    }
    saved := Some(data.Snapshot());
    resp := if writeFails then ServerError(UpdateFailed) else Ok(updated.value);
  }

  /** DELETE /api/items/:id: splices out the first item with the id and saves, or 404. */
  method DeleteItem(f: FileRead, id: Option<int>, writeFails: bool)
    returns (resp: Response, saved: Option<State>)
    ensures ReadDataFile(f).Failure? ==> resp == ServerError(DeleteFailed) && saved == None
    ensures ReadDataFile(f).Success? ==>
      var s := ReadDataFile(f).value;
      && (FindIndex(s.items, id) == -1 ==> resp == NotFound && saved == None)
      && (FindIndex(s.items, id) != -1 ==>
           && saved == DeleteState(s, id)
           && resp == if writeFails then ServerError(DeleteFailed) else NoContent)
    ensures id.None? ==> saved == None
  {
    var loaded := ReadDataFile(f);
    if loaded.Failure? {
      return ServerError(DeleteFailed), None;
    }
    var data := new Data(loaded.value);
    var removed := data.Delete(id);
    if !removed {
      return NotFound, None;
    }
    saved := Some(data.Snapshot());
    resp := if writeFails then ServerError(DeleteFailed) else NoContent;
  }
}
