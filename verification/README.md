# In-memory resource store with a single-slot read cache

This project models the REST server's resource routes. The server keeps an
insertion-ordered array of resources, where each resource is a JSON object
with an `id` field. It also keeps one cache slot, `cache['allResources']`,
which a GET fills. The four handlers are modelled as pure transitions on
that state. Each returns the HTTP response it sends (status and body) and
the state it leaves:

- `POST /resources` (`Server.Create`) rejects a body whose `id` some stored
  record already has, with 400. Otherwise it pushes the body and answers 201.
- `GET /resources` (`Server.Get`) answers from the cache slot on a hit. On a
  miss it answers with the store and fills the slot.
- `PUT /resources/:id` (`Server.Update`) replaces the first record with that
  `id` by the spread `{...old, ...body}`. It answers with the merged record
  and empties the slot, or answers 404.
- `DELETE /resources/:id` (`Server.Delete`) drops every record with that
  `id`. It answers 404 exactly when nothing was dropped, and empties the slot
  on success.
- A cache timer firing (`Server.Expire`) empties the slot at any time. A
  timer set by an earlier GET may still be pending when a later GET fills
  the slot again.

The cache slot does not hold a copy. A GET that misses stores the very array
`resources` is bound to. A later POST (`push`) or PUT (index assignment)
changes that array in place, so the cache sees the change. To make this
sharing visible, the state (`Server.State`) is a small heap. It holds the
arrays the program has allocated, the reference `resources` is bound to, and
the reference in the cache slot, if any. `Store` and `Cached` read the
contents behind these references. `Aliased` says the slot, when filled,
holds the store's own array, and `Coherent` says the cached contents equal
the store. With the corrected DELETE, every route and the timer preserve
`Aliased`, so along any run from start-up a GET answers the current store
(`Events.GetAnswersStore`). The DELETE route as written breaks this (see
Findings), so the model uses the corrected route.

Modules:

- `Json` (json.dfy) holds values, records, `r.id` and object spread.
- `Arrays` (arrays.dfy) holds `findIndex`, `find` and `filter` on the
  resource list.
- `Server` (server.dfy) holds the heap state, the responses and the four
  routes plus the timer.
- `Events` (events.dfy) covers arbitrary runs of requests and timer events,
  and the invariants along them.
- `Laws` (laws.dfy) relates several calls to each other.
- `StaleCache` (stale_cache.dfy) holds the DELETE route as written, with
  its counterexample.
- `Scenario` (scenario.dfy) follows the unit tests' request sequence.

Two details of the code are easy to misread:

- POST does not empty the cache slot. The slot shares the store's array,
  so a POST is still visible through it, except on the path described
  under Findings.
- `filter` removes every record with that `id`, not just one.
  `Laws.DeleteRemovesOne` shows this is exactly one record while ids are
  distinct.

## Model

| member | source | states |
|---|---|---|
| `Json.Spread` | server.js:73 | The merged record has exactly the fields of the old record and the body. Body fields overwrite. Fields the body lacks keep their old value. Its `id` is the body's when the body has one, else the old one. |
| `Json.SpreadIdempotent` | server.js:73 | Spreading the same body twice gives the same record as spreading it once. |
| `Arrays.FindIndex` | server.js:67-68 | `findIndex` gives -1 exactly when no record has the `id`. Otherwise it gives the first position whose record has it. |
| `Arrays.Find` | server.js:33-34 | `find` gives no record exactly when none has the `id`. Otherwise it gives the record at the first matching position. |
| `Arrays.Without` | server.js:85-87 | A record is in the result exactly when it is in the store and its `id` differs from the key; `Arrays.WithoutCounts` fixes how often. The length is unchanged exactly when no record matched, and then the list itself is unchanged. |
| `Arrays.WithoutCounts` | server.js:85 | `filter` keeps each record whose `id` differs from the key exactly as many times as it occurs in the store. It keeps no copy of a record that matches. |
| `Arrays.WithoutAppend` | server.js:85 | Filtering a concatenation gives the filtered first part followed by the filtered second part. |
| `Arrays.WithoutKeepsOrder` | server.js:85 | Two kept records appear in the result in the order they had in the store. |
| `Arrays.WithoutRemovesOne` | server.js:85-91 | While ids are distinct and the key is present, the filter removes exactly one record. |
| `Arrays.WithoutKeepsDistinct` | server.js:85 | Filtering keeps distinct ids distinct. |
| `Server.AliasedIsCoherent` | server.js:47-55 | When the slot holds the store's own array, the cached contents are the store. |
| `Server.MutateStore` | server.js:38 | The in-place write behind `push` (server.js:38) and `resources[resourceIndex] = …` (server.js:73). The store gets the new contents. `resources` and the cache slot keep their references, and every other array is unchanged. |
| `Server.Create` | server.js:29-40 | A duplicate `id` gives 400 with the error message, and the state is unchanged. A fresh `id` gives 201 with the body, and the store becomes the old store with the body appended. Distinct ids stay distinct either way. With the slot aliased, the cache still shows the store after the push. |
| `Server.Get` | server.js:43-59 | Always 200. A hit answers the cached list and changes nothing. A miss answers the store and leaves the slot holding the store's own array. With the slot aliased, the answer is the current store. |
| `Server.Update` | server.js:62-78 | An absent `id` gives 404 and the state is unchanged. Otherwise only the first matching position changes, to the spread of the old record and the body, and the length is unchanged. The answer is 200 with that merged record, and the slot is emptied. Distinct ids stay distinct when the body has no `id` or the same one. |
| `Server.Delete` | server.js:81-95 | This is the corrected route (see Findings). The answer is 404 exactly when no record has the `id`, and then the state is unchanged. Otherwise it is 200 with the confirmation text. The store becomes the filtered list, which is shorter and holds no record with that `id`. The slot is emptied. Distinct ids stay distinct. |
| `Server.Expire` | server.js:56-58 | With no precondition, a timer leaves the store as it is and the cache empty. |
| `Events.Handle` | server.js:29-95 | With the corrected DELETE, each route and the timer keep the slot aliased to the store's array. |
| `Events.RunKeepsAliased` | server.js:29-95 | With the corrected DELETE, any sequence of requests and timer events keeps the slot aliased to the store's array. |
| `Events.GetAnswersStore` | server.js:43-55 | With the corrected DELETE, after any run from start-up, GET answers 200 with the current store, whether from the cache or not. |
| `Events.RunKeepsDistinct` | server.js:33-38 | Distinct ids stay distinct along any run whose PUT bodies carry no foreign `id`. The run uses the corrected DELETE. The property holds for the route as written too, because it leaves the same store contents (`StaleCache.DeleteAsWrittenKeepsDistinct`). |
| `Laws.GetTwice` | server.js:47-55 | Two GETs in a row answer the same list, and the second changes nothing. |
| `Laws.DeleteTwice` | server.js:83-88 | A second DELETE of the same `id`, straight after the first, answers 404. |
| `Laws.DeleteRemovesOne` | server.js:85-91 | While ids are distinct, a successful DELETE shortens the store by exactly one. |
| `Laws.UpdateIdempotent` | server.js:67-74 | Repeating a PUT whose body keeps the `id` gives the same response and state as doing it once. |
| `Laws.UpdateCanDuplicateId` | server.js:73 | A PUT body carrying another record's `id` wins the spread. It leaves two records with the same `id`. |
| `StaleCache.DeleteAsWritten` | server.js:81-95 | As written, DELETE sends the same response and leaves the same store contents as the corrected route. It always rebinds `resources` to a new array. |
| `StaleCache.DeleteAsWrittenKeepsDistinct` | server.js:85 | DELETE as written keeps distinct ids distinct, as the corrected route does. |
| `StaleCache.MissedDeleteThenCreateIsStale` | server.js:85-88 | Take any state whose slot holds the store's array. A DELETE as written that finds nothing leaves the slot on the old array. A successful POST after it makes GET answer a list without the new record. |
| `StaleCache.StaleGetAfterMissedDelete` | server.js:85-88 | Run GET, then DELETE /resources/x, then POST {"id": "1"}, then GET, with DELETE as written. The last GET answers `[]` while the store holds the record. |
| `StaleCache.FreshGetAfterMissedDelete` | server.js:81-95 | The same sequence with the corrected DELETE makes the last GET answer the stored record. |
| `Scenario.UnitTestSequence` | test.js:5-45 | The unit tests send POST, GET, PUT and DELETE. In the model, POST gives 201 with the record, GET gives a list holding it, PUT gives the renamed record, and DELETE gives "Resource with id 1 deleted". The lemma adds one step the tests lack: a final GET, which gives `[]`. |

## Left out

- Request logging to `server.log` (server.js:13-21, 99-104) is left out. It is synchronous file I/O with no effect on the state.
- The Express wiring is left out (server.js:1-7, 23-26, 98-113). This covers JSON body parsing, static files, `app.listen`, and the 500 handler for uncaught errors. Bodies are taken to be already-parsed JSON objects. Other body shapes (arrays, primitives) are not modelled.
- Field values of every kind, not only `id`, are modelled as scalars (string, integer, boolean, null). Nested objects, arrays and floating-point numbers cannot appear in a body. The handlers never look inside non-`id` fields, and the spread at server.js:73 is shallow, so no handler behaviour depends on this.
- `id` values are modelled as JSON scalars, with numbers as integers. Floating-point numbers (and `NaN !== NaN`) are not modelled. Objects or arrays used as an `id`, where `===` compares references, are not modelled either.
- Real time and the 10-minute duration are not modelled. A timer firing is an event that may happen at any time. The model does not track which timers are pending, so it allows more expiries than the program can produce.
- The `console.log` on a cache hit (server.js:48) and the serialisation of response bodies are not modelled.
- websocket.js is not modelled. It is a broadcast loop over a WebSocket library, with random client identifiers from `Math.random`. All of it is network I/O.
- There is no lemma over sequences of POSTs. `Server.Create` states the length change per request: the store grows by one exactly on 201 and is unchanged on 400.
- `Server.Delete` is the corrected route. On a 404 it keeps `resources` bound to the same array, while server.js:85 rebinds it to a fresh filtered copy before the length check. `StaleCache.DeleteAsWritten` is the route as written.
- `Events.Handle` keeps the cache slot aliased only with the corrected DELETE. With the route as written, a 404 DELETE after a GET breaks aliasing (`StaleCache.MissedDeleteThenCreateIsStale`).
- `Events.RunKeepsAliased` holds for runs of the corrected program. It does not hold for the program as written, for the reason under Findings.
- `Events.GetAnswersStore` holds with the corrected DELETE. The program as written can answer stale data after GET, then a 404 DELETE, then POST (`StaleCache.StaleGetAfterMissedDelete`).

## Findings

| source | as written | input that shows it | evidently intended | confidence | as-written member | corrected member |
|---|---|---|---|---|---|---|
| server.js:85-88 | `resources` is rebound to the filtered copy before the length check, and the 404 path returns without emptying the cache slot. The slot keeps the old array, and later POSTs push onto the new one. | GET; DELETE /resources/x (no such id, 404); POST {"id": "1"} (201); GET answers `[]` until a timer fires or a PUT/DELETE succeeds | A DELETE that removes nothing leaves the state alone, as the 404 of PUT does, so GET keeps answering the current store | medium; not executed | `StaleCache.StaleGetAfterMissedDelete` | `Server.Delete` |

`StaleCache.DeleteAsWritten` models the route as written. `StaleCache.MissedDeleteThenCreateIsStale` shows the stale answer from every state whose cache slot holds the store's own array. The corrected `Server.Delete` is the route `Events.Handle` uses. With it, `Events.GetAnswersStore` proves that GET answers the current store after every run from start-up.
