# Item store of a minimal CRUD service, in Dafny

The service keeps one collection of generic items in a JSON file. Every
request handler reads the whole collection `{ items, nextId }`, changes the
loaded object in place for a write, and writes the whole collection back. This
project models that collection and the handlers' work on it:

- `wrappers.dfy`: `Option` and `Result`.
- `json.dfy`: the JSON values an item field can hold.
- `collection.dfy` (module `Collection`): items as shallow maps, the `State`
  value `{ items, nextId }`, the id lookups (`find`, `findIndex`), the two
  object-spread merges, one specification function per state change, and the
  class `Data`. `Data` is the object the handlers change in place: `push` plus
  `nextId += 1`, element replacement and `splice`.
- `store.dfy` (module `Store`): `readDataFile` with its fallback to the empty
  collection, and the start-up `initDataFile` decision.
- `router.dfy` (module `Router`): the five `/api/items` handlers as methods.
  Each handler loads the collection and answers with a `Response` (200, 201,
  204, 404 or 500). Each write handler also builds a `Data`, changes it, hands
  it to the writer and returns the state it saved, or `None` when it saved
  nothing.
- `properties.dfy` (module `Properties`): lemmas about ids and lookups after
  each operation and over whole sequences of requests, plus two worked
  scenarios.
- `scenarios.dfy` (module `Scenarios`): the create, update, delete, get
  scenario played through the handlers, each request reading what the
  previous one saved.

Encoding choices:
- Map `+` keeps the right-hand value on a shared key, which is what a later
  object spread does.
- A path id is already parsed: `Some(n)`, or `None` for `NaN`. `Matches`
  demands `Some`, so `NaN` matches nothing, not even an item without an id.
- Timestamps are string parameters.
- What a read, an access check or a write came to is a parameter: a
  `FileRead`, an `Access` or a `writeFails` flag.

Where the code and the service's design description disagree, the model
follows the code:
- Create: the design says the generated id always wins. In the code the body
  is spread after `id`, so a body `id` replaces it (`src/server.js:96-100`).
  `Properties.CreateWithBodyId` shows the result: an item can duplicate a
  stored id or run ahead of the counter. `Properties.CreateNeverShadows` shows
  that such a duplicate stays hidden behind the earlier item with that id.
  `Properties.DuplicateSurfacesAfterDelete` shows that, in a store whose ids
  are distinct, it is hidden only until that item is deleted; a get of the id
  then returns the duplicate. In general it stays hidden until every earlier
  item with that id is deleted.
- Update: the design says `createdAt` is set once. In the code the body is
  spread over the stored item and only `id` and `updatedAt` are forced
  (`src/server.js:124-129`), so a body `createdAt` replaces the stored one
  (`Properties.UpdateOverwritesCreatedAt`).
- Start-up: the design says access errors other than "missing" propagate. The
  code catches them and drops them (`src/server.js:40-44`). Only a failing
  write of the default file escapes.
- Load: the design says content of the wrong structure also falls back to the
  empty collection. The code falls back only on a missing file or a JSON
  syntax error (`src/server.js:22`).

## Model

| member | source | states |
|---|---|---|
| `Collection.FindIndex` | src/server.js:118 | -1 exactly when no item's id equals the parsed id; otherwise the index of a matching item with no match before it |
| `Collection.Find` | src/server.js:79 | None exactly when no item matches; otherwise a stored matching item with no matching item before it |
| `Collection.NewItem` | src/server.js:96-100 | keys are the body's plus `id` and `createdAt`; `createdAt` is the server timestamp even if the body has one; `id` is the body's if present, else `nextId`; other body fields are copied |
| `Collection.UpdatedItem` | src/server.js:124-129 | keys are the union of stored, body, `id` and `updatedAt`; `id` is the path id and `updatedAt` the server time even if the body has them; body fields override stored ones; other stored fields (including `createdAt`) are kept |
| `Collection.CreateState` | src/server.js:96-103 | exactly one item is appended at the end; earlier items are unchanged; `nextId` becomes the old value + 1 |
| `Collection.UpdateState` | src/server.js:116-131 | None exactly when no item matches; otherwise the length and `nextId` are kept, only the first matching index changes, and it holds the merged item |
| `Collection.RemoveAt` | src/server.js:152 | `splice(i, 1)`: one element shorter; items before i keep their places, items after i move down by one |
| `Collection.DeleteState` | src/server.js:144-152 | None exactly when no item matches; otherwise `nextId` is kept and the first matching item is removed; items before it stay in place and items after it shift down by one, in order |
| `Collection.Data.constructor` | src/server.js:18-19 | the mutable object holds exactly the loaded items and counter |
| `Collection.Data.Create` | src/server.js:96-103 | the in-place push and increment leave the object equal to `CreateState` of its old value; it returns the new item |
| `Collection.Data.Update` | src/server.js:118-131 | when nothing matches, nothing changes and None is returned; otherwise the object becomes `UpdateState` of its old value and the merged item is returned |
| `Collection.Data.Delete` | src/server.js:146-152 | when nothing matches, nothing changes and false is returned; otherwise the object becomes `DeleteState` of its old value |
| `Store.ReadDataFile` | src/server.js:14-27 | a read fails exactly on an I/O error other than ENOENT, and carries that code; a missing file or a syntax error gives exactly `{items: [], nextId: 1}`; parsed content is returned unchanged |
| `Store.InitDataFile` | src/server.js:36-45 | the empty state is written exactly when access fails with ENOENT and the write succeeds; a failing write is the only way out as an error; other access errors leave the file untouched |
| `Router.ListItems` | src/server.js:63-71 | 200 with the stored items in order, or 500 when the load fails; a corrupt or missing file lists no items |
| `Router.GetItem` | src/server.js:74-89 | 500 on a failed load; 404 exactly when no item matches; otherwise 200 with the first matching item; a NaN id never gets 200 |
| `Router.PostItem` | src/server.js:92-110 | 500 and no save on a failed load; otherwise saves `CreateState` of the loaded state and answers 201 with the new item, or 500 when the write fails |
| `Router.PutItem` | src/server.js:113-138 | 500 and no save on a failed load; 404 and no save when nothing matches (always for NaN); otherwise saves `UpdateState` and answers 200 with the merged item, or 500 when the write fails |
| `Router.DeleteItem` | src/server.js:141-159 | 500 and no save on a failed load; 404 and no save when nothing matches (always for NaN); otherwise saves `DeleteState` and answers 204, or 500 when the write fails |
| `Properties.FindIndexAppend` | src/server.js:102 | after a push, `findIndex` gives its old answer if it had one; otherwise the new item's index if it matches, else -1 |
| `Properties.CreateThenGet` | src/server.js:79-103 | with an id-less body and all ids below the counter, the new item's id is the old counter and a get of that id returns exactly the new item |
| `Properties.CreateNeverShadows` | src/server.js:79-102 | a create never changes what get finds for an id that was already found |
| `Properties.DuplicateSurfacesAfterDelete` | src/server.js:79-152 | in a store with distinct ids, after a create whose body repeats a stored id, get still finds the earlier item; after deleting that id, get finds the new duplicate |
| `Properties.CreatePreservesNumbering` | src/server.js:96-103 | create with an id-less body keeps every id below `nextId` and all ids distinct |
| `Properties.CreateWithBodyId` | src/server.js:96-100 | a body `id` becomes the item's id; at or above the new counter it breaks "ids below nextId"; equal to a stored id it creates a duplicate |
| `Properties.UpdateThenGet` | src/server.js:116-131 | after an update, the item keeps the id it was found by, and a get of that id returns the merged item |
| `Properties.UpdateOverwritesCreatedAt` | src/server.js:124-129 | a body `createdAt` replaces the stored creation time on update |
| `Properties.UpdatePreservesNumbering` | src/server.js:124-131 | update keeps every id below `nextId` and all ids distinct, even when the body has an `id` |
| `Properties.DeleteRemovesOne` | src/server.js:146-152 | the items after delete plus the removed item are exactly the items before, as a multiset |
| `Properties.DeleteThenGet` | src/server.js:146-152 | with distinct ids, a deleted id is no longer found |
| `Properties.DeleteKeepsOthers` | src/server.js:146-152 | delete does not change what a get of any other id finds |
| `Properties.DeletePreservesNumbering` | src/server.js:146-152 | delete keeps every id below `nextId` and all ids distinct |
| `Properties.RunPreservesNumbering` | src/server.js:92-159 | any sequence of creates with id-less bodies, updates and deletes keeps ids below `nextId` and distinct |
| `Properties.RunAssignsIncreasingIds` | src/server.js:96-103 | over any such sequence, with deletes in between, the created ids strictly increase; they lie between the start and final counters, so no id is handed out twice |
| `Properties.Walkthrough` | src/server.js:92-152 | empty store, create `{name: "a"}`, update id 1 to `{name: "b"}`, delete id 1, each step on the previous result: the exact state after each step, then get id 1 finds nothing |
| `Scenarios.WalkthroughResponses` | src/server.js:74-159 | the same scenario through the handlers, starting from a missing file: 201 with `{id: 1, name: "a", createdAt}`, 200 with `{id: 1, name: "b", createdAt, updatedAt}`, 204, then 404 |
| `Properties.DeleteMiddle` | src/server.js:96-152 | three creates with id-less bodies into an empty store get ids 1, 2, 3; deleting id 2 then leaves items 1 and 3, in that order, with `nextId` 4 |

## Left out

- Express routing, the JSON body parser, `res.status/json/send`, `app.listen` and the port setting. The handlers' answers are the `Response` datatype.
- The health-check route (`GET /`). It only formats the clock in a locale.
- The logger (`src/utils/logger.js`). Its calls are taken to do nothing.
- File I/O, `JSON.stringify` and `JSON.parse` text. A read arrives as a `FileRead`; a write is the returned state plus a `writeFails` flag. What a failed write leaves on disk is not modelled. That a later read gets back exactly what was written is taken as given in `Properties.Run` and in `Scenarios`, not derived.
- File content that is valid JSON but not `{ items, nextId }`. In the code it reaches the handlers. What they do with it is not modelled: depending on the content a handler may fail, answer with `undefined`, or save a `NaN` counter.
- `parseInt` digit-prefix parsing of the path id. The id arrives as `Option<int>`.
- Request bodies that are not JSON objects (arrays, strings, numbers), and the key order of the stored objects.
- Non-integer and very large numbers. `Num` holds mathematical integers, so precision above 2^53 is not modelled, and neither is `nextId` holding a non-integer.
- Concurrency: overlapping requests that interleave load, change and save, and the lost updates they cause. `initDataFile` running unawaited beside the first requests is also left out. Request sequences in `Properties` run one after another.
