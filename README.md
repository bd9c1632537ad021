# Marina boats and loads: a verified model

Marina is a small REST service for boats and the loads they carry. A boat
belongs to the user whose bearer token created it. A load is created by
anyone, and an owner can put it on one of their boats. Two identifiers tie a
boat to its loads:

- The boat's `loads` property lists `{id}` stubs.
- The load's `carrier` property names the boat, or is null.

The route handlers keep both sides in step by hand. Attaching, detaching,
deleting a boat and deleting a load each write both sides.

This project models that core in Dafny: the datastore, every route of the
boat and load blueprints, and the pagination of the three listings. It proves:

- Each route checks its guards in its fixed order. Every failing check
  leaves the store unchanged.
- Each successful route leaves the datastore in exactly the stated new
  state.
- The routes that maintain the link by hand keep the link invariant
  (`Entities.Consistent`). PATCH does not, and `Service.PatchCanUnlinkLoad`
  shows a PATCH that breaks it.
- Attaching a free load and then detaching it gives back the state before.
- A listing's window, its count and its next link behave as stated.
  Following next links visits every result once, in order.

Layout, one module per file:

- `json.dfy` (`Json`): JSON values and `Option`.
- `paging.dfy` (`Paging`): covers these:
  - the offset/limit window;
  - the next link, with its decimal rendering and parsing;
  - the ascending order in which the store yields results.
- `stubs.dfy` (`Stubs`): a boat's list of load ids. It holds the scan and
  the removal loop of the detach and delete-load routes, as written.
- `entities.dfy` (`Entities`): covers these:
  - boats, loads and their JSON form;
  - the dictionary update a PATCH performs;
  - the link invariant.
- `associations.dfy` (`Associations`): what each mutating route does to the
  state, as functions, and the proofs that it keeps the invariant.
- `http.dfy` (`Http`): request facts, statuses, the error responses, and the
  guard checks.
- `queries.dfy` (`Queries`): the read-only routes, as functions of the state.
- `datastore.dfy` (`Service`): the class `Datastore`, which holds the two maps
  and has one method per mutating route. Each method is written step by step
  like its handler and proved against `Associations` and `Queries`.

The next link repeats the request's `limit` (boat.py:58), so five results at
`limit=2` give pages of 2, 2 and 1 (`Paging.FiveResultsTwoPerPage`). At
`limit=0` the link asks for the same window again
(`Paging.ZeroLimitRepeatsRequest`).

## Model

| member | source | states |
|---|---|---|
| `Paging.Window` | boat.py:51-54 | the page holds `min(limit, total - offset)` results (none past the end), the i-th being result `offset + i` |
| `Paging.WindowsTile` | boat.py:55-58 | two adjacent windows together are the window of their combined size: no gap, no repeat |
| `Paging.ParseNatToString` | boat.py:58 | a number written into a link with `str` reads back as the same number |
| `Paging.NextLinkRequestsNextWindow` | boat.py:55-59 | when results remain, the next link is the request's base URL followed by a query asking for the same limit at offset `offset + limit` |
| `Paging.FiveResultsTwoPerPage` | boat.py:51-59 | five results at limit 2 give pages of 2, 2 and 1; the first two link to offsets 2 and 4, the last has no link |
| `Paging.ZeroLimitRepeatsRequest` | boat.py:51-59 | with `limit=0` and results remaining, the page is empty and the next link asks for limit 0 at the same offset again |
| `Paging.WalkVisitsAll` | boat.py:55-59 | following next links from offset `o` with a positive limit yields exactly the results from `o` on, in order |
| `Paging.Ascending` | boat.py:49-54 | the order a query yields the matching ids: each id once, strictly ascending |
| `Stubs.HasStub` | boat.py:237-241 | the `load_present` scan finds a stub exactly when the boat lists the load |
| `Stubs.DropStubs` | boat.py:246-248 | the removal loop keeps every other stub in order, removes at least one stub for the load when there is one, and yields the list without the load when it was listed at most once |
| `Stubs.RemoveFirstDropsOne` | boat.py:248 | `list.remove` takes away one stub for the load and nothing else |
| `Entities.DecodeStubsJson` | boat.py:215-217 | the `{id}` stub list the routes write reads back as the same ids |
| `Entities.DecodeCarrierJson` | boat.py:219-220 | the `{id, name}` carrier (or null) the routes write reads back as itself |
| `Entities.DecodeStubListExact` | boat.py:215-217 | a `loads` value that reads as ids is exactly the `{id}` stub list the routes write for those ids |
| `Entities.DecodeCarrierExact` | boat.py:219-220 | a `carrier` value that reads as a carrier is exactly the null or `{id, name}` object the routes write for it |
| `Entities.MergeBoatIsDictUpdate` | boat.py:143 | PATCH on a boat goes through exactly when a `loads` in the body is in the stub form the routes write; then its properties become the old ones overwritten by every property of the body |
| `Entities.MergeLoadIsDictUpdate` | load.py:120 | PATCH on a load goes through exactly when a `carrier` in the body is null or in the form the routes write; then it is the same dictionary update |
| `Associations.AddBoatKeepsConsistent` | boat.py:32-34 | adding a boat with an empty load list under a fresh id keeps the link invariant |
| `Associations.AddLoadKeepsConsistent` | load.py:27-28 | adding a load with a null carrier under a fresh id keeps the link invariant |
| `Associations.UpdateBoatKeepsConsistent` | boat.py:111-113 | rewriting a boat's properties while keeping its load list keeps the link invariant |
| `Associations.UpdateLoadKeepsConsistent` | load.py:95-96 | rewriting a load's properties while keeping its carrier keeps the link invariant |
| `Associations.AttachKeepsConsistent` | boat.py:214-221 | appending a free load to a boat's list and making the boat its carrier keeps the link invariant |
| `Associations.DetachKeepsConsistent` | boat.py:245-251 | removing a listed load from a boat's list and nulling its carrier keeps the link invariant |
| `Associations.AttachDetachRoundTrip` | boat.py:214-251 | from a consistent state, attach then detach of a free load gives back exactly the state before |
| `Associations.DeleteBoatReleasesItsLoads` | boat.py:160-167 | deleting a boat nulls the carrier of exactly the loads it carried, leaves every other load as it was, and keeps the link invariant |
| `Associations.DeleteLoadKeepsConsistent` | load.py:131-142 | deleting a load takes its stub off every boat's list (only its carrier lists it), leaves the other loads as they were, and keeps the link invariant; a carried load's carrier exists |
| `Associations.CarriedLoadsAreListed` | boat.py:274-275 | in a consistent state, the loads whose carrier is a boat are exactly the loads on its list |
| `Queries.MakePage` | boat.py:51-69 | a page holds the selected window of the query's results with their entities, the result count when reported, and a next link exactly when results remain |
| `Queries.Listing` | boat.py:49-54 | a listing's items are matching entities in ascending id order, the right number of them, starting at the requested offset |
| `Queries.ListBoats` | boat.py:38-70 | GET /boats: 406, then the token; then the caller's boats only, `total_items` counting only theirs |
| `Queries.GetBoat` | boat.py:169-189 | GET /boats/{id}: 406, token, 404, 403; then the caller's own boat |
| `Queries.BoatLoads` | boat.py:256-295 | GET /boats/{id}/loads: 406, token, 404, 403; then the loads whose carrier is the boat, with no total; in a consistent state these are the loads on the boat's list |
| `Queries.ListLoads` | load.py:32-59 | GET /loads: 406; then every load, paged, with `total_items` the number of loads and no token check |
| `Queries.GetLoad` | load.py:143-159 | GET /loads/{id}: 406, then 404, then the load |
| `Queries.ListLoadsWalk` | load.py:40-48 | paging through GET /loads from the start with a positive limit shows every load once, in ascending id order |
| `Service.PresentPrefix` | boat.py:161-165 | the loads the release loop gets through before a missing load: the longest prefix of the list whose loads exist |
| `Service.PatchCanUnlinkLoad` | boat.py:143-144 | a PATCH writing an empty `loads` list to a consistent boat leaves its load's carrier pointing at a boat that no longer lists it |
| `Service.Datastore.BoatsCollection` | boat.py:12-79 | POST: 415, 406, token, 400 below three properties, a crash without `name`/`type`/`length`, else a new boat owned by the caller with no loads, nothing else changed; GET is `ListBoats`; PUT, PATCH, DELETE answer 405 and change nothing |
| `Service.Datastore.ReplaceBoat` | boat.py:85-116 | PUT /boats/{id}: 415, 406, token, 404, 403, 400 below three properties (any three), a crash without the three fields; else only `name`, `type`, `length` change; the invariant is kept |
| `Service.Datastore.PatchBoat` | boat.py:117-147 | PATCH /boats/{id}: 415, 406, token, 404, 403, 400 for an empty body, all without change; a crash without change when `loads` is not in the stub form; else the body is merged into the boat and nothing else changes |
| `Service.Datastore.RemoveBoat` | boat.py:148-168 | DELETE /boats/{id}: token, 404, 403 change nothing; else the boat's loads are released and the boat deleted; a dangling stub crashes after releasing the loads before it; from a consistent state it never crashes and keeps the invariant |
| `Service.Datastore.AttachLoad` | boat.py:197-222 | PUT /boats/{b}/loads/{l}: token, 404 for either missing, 403 when the load has any carrier (before the owner check), 403 for another owner, all without change; else the stub is appended and the carrier set; the invariant is kept |
| `Service.Datastore.DetachLoad` | boat.py:223-252 | DELETE /boats/{b}/loads/{l}: token, 404, 403, then 404 when the boat does not list the load, all without change; else the stub goes, the carrier is nulled, nothing else changes; the invariant is kept |
| `Service.Datastore.LoadsCollection` | load.py:10-70 | POST: 415, 406, 400 below three properties, a crash without the three fields, else a new load with a null carrier and no token check; GET is `ListLoads`; PUT, PATCH, DELETE answer 405 and change nothing |
| `Service.Datastore.ReplaceLoad` | load.py:75-99 | PUT /loads/{id}: 415, 406, 404, 400 below three properties, a crash without the three fields; else only `volume`, `item`, `creation_date` change and the carrier stays |
| `Service.Datastore.PatchLoad` | load.py:100-124 | PATCH /loads/{id}: 415, 406, 404, 400 for an empty body, all without change; a crash without change when `carrier` is not null or a carrier in the routes' form; else the body is merged into the load |
| `Service.Datastore.RemoveLoad` | load.py:125-142 | DELETE /loads/{id}: 404 without change; a crash without change when the carrier boat is missing; else the load's stub leaves its carrier's list, the load is deleted, nothing else changes; from a consistent state it never crashes and keeps the invariant |

## Left out

- main.py is not part of this model. It holds the login, callback and logout plumbing and the user listing.
- Token verification (`verify_jwt`, `AuthError`, auth.py) is not part of this model. The verified subject is an input, and a failed verification is the single outcome `AuthFailed`. Its status code and body are not modelled.
- Google Cloud Datastore internals: the queries set no sort order, and the store is modelled as yielding results in ascending id order. The next link's `next_page_token` is read as "results remain after the window". A new key is the fresh id `newId` the caller passes.
- Query parameters and path ids are given as integers (`nat` for `limit` and `offset`). `int()` of a non-numeric or negative value is not modelled.
- A request without a Content-Type header makes the `in` test raise. So do `get_json` failures and a JSON body that is not an object. None of these is modelled: the body is always a property map.
- JSON numbers are integers only. Floats are not modelled.
- The `id` and `self` annotations added to responses, and `json.dumps` serialisation, are left out.
- The routes' own serialisation to HTTP and Flask's automatic 405 for methods outside a route's list are left out. So are the unreachable "Method not recognized" branches.
- Concurrency is left out. That covers the race between two attaches of one load and the non-atomic `put_multi`. Each operation is atomic in the model.
- The per-removal `client.put` inside the delete-load loop is left out. Only the state after the loop is modelled, which is the same.
- The attach branch that creates a missing `loads` list is left out. Every boat in the model has a list: creation writes one, and PATCH only replaces it.
- `Stubs.DropStubs`: the exact result (the list without the load) is stated only when the load is listed at most once. For a repeated stub, the loop skips the element after each removal. The contract then states only that no other stub changes and that at least one stub goes. The link invariant rules out repeats.
- `Service.Datastore.DetachLoad`: the new state is `Associations.Detach` only when the boat lists the load at most once. That holds in every consistent state.
- `Service.Datastore.RemoveLoad`: the new state is `Associations.DeleteLoad` only when the carrier lists the load at most once. That holds in every consistent state.
- `Service.Datastore.PatchBoat`: a `loads` value other than a list of objects whose only property is a numeric `id` is modelled as a crash. That includes stubs carrying any further property. The service stores such a value verbatim, and a later route that reads it may fail. No claim is made that PATCH keeps the link invariant (see `Service.PatchCanUnlinkLoad`).
- `Service.Datastore.PatchLoad`: a `carrier` value other than null or an object whose properties are exactly a numeric `id` and a `name` is modelled as a crash. The service stores such a value verbatim. No claim is made that PATCH keeps the link invariant.
- `Entities.MergeBoatIsDictUpdate`: the dictionary update is stated only for bodies whose `loads` the model reads (the stub form the routes write). For any other `loads` value the model crashes where the service stores the value verbatim.
- `Entities.MergeLoadIsDictUpdate`: likewise, the dictionary update is stated only for bodies whose `carrier` is null or in the form the routes write.
- `Paging.Walk`: following next links is modelled for a positive limit only. At `limit=0` the link repeats the request (`Paging.ZeroLimitRepeatsRequest`), so the walk would not end.
