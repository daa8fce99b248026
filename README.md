# Hit-counting router registry

This project models the hit-counter registry of `httprouter-unhit`. That package is a
drop-in wrapper around `httprouter`. It records, for every registered route, how many
times its handler was dispatched. Two introspection routes, `GET /endpoints` and
`GET /endpoints/unhit`, list those records so that untested endpoints can be spotted.

The model lives in two modules.

- `Infrastructure` (`router.dfy`) holds the following:
  - the `Endpoint` record (method, path, hits);
  - the lookup table, a `map` from a registration handle (`Token`) to a record;
  - pure functions stating what each table operation does: `Register`, `Hit`,
    `Replay` (a sequence of dispatches), `Selected` (what a listing holds) and
    `Entries`;
  - the `Router` class. Its `hitCounter` field is the table. Its methods are the
    source's `New`, `registerPaths`, `Handle` and the seven method shortcuts,
    `registerRoute`, `registerHit`, the defer-wrapped handler (`Dispatch`) and
    `filterEndpoints`.
- `RouterProperties` (`router_properties.dfy`) holds lemmas that relate several
  operations. They cover hit counting over any sequence of dispatches, the
  independence of two registrations of the same route, and what each listing
  contains. A client method also walks through the first use of the introspection routes.

In Go, the handle key is `&handle`, the address of `Handle`'s own parameter. It is
therefore fresh for every registration. The model hands out handles from a counter,
`nextToken`, and `Router.Valid()` states that every key in the table is below it.
`Handle` consequently always inserts under a key the table did not hold. Two
registrations of the same method and path therefore give two records in the table.

Go's `range` over a map visits the keys in an unspecified order. `FilterEndpoints`
models this by picking any remaining key at each step. Its contract states the result
through a ghost sequence `order` of the handles visited: `order` enumerates
`Selected(hitCounter, unhit)` exactly once each, and the result is the records
stored under `order`. `ListingsAgree` shows that any two such results are equal as
multisets.

The lock taken by `registerRoute` and `registerHit` makes each of those calls atomic.
The model is sequential, and concurrent dispatches are a `Replay` of some
serialisation of them. `ReplayIsOrderIndependent` shows that every serialisation ends
in the same table.

## Model

| member | source | states |
|---|---|---|
| `Infrastructure.Register` | router.go:160-167 | the key set grows by the handle; the new record has the given method and path and 0 hits; every other record is unchanged |
| `Infrastructure.Hit` | router.go:169-173 | same key set; the record under the handle gains exactly one hit and keeps its method and path; every other record is unchanged |
| `Infrastructure.Replay` | router.go:78-81 | a sequence of dispatches to registered handles never adds or removes a record |
| `Infrastructure.EnumerationMultiset` | router.go:123-133 | a listing that visits each selected handle once holds each of them exactly once, so its length is the number of selected records |
| `Infrastructure.Router.constructor` | router.go:30-37 | a new router holds exactly two records: GET `/endpoints` and GET `/endpoints/unhit`, both with 0 hits |
| `Infrastructure.Router.RegisterPaths` | router.go:115-119 | adds the two introspection routes under two distinct fresh handles, with 0 hits, and leaves the rest of the table unchanged |
| `Infrastructure.Router.Handle` | router.go:75-84 | registers under a handle not already in the table (a fresh key per call) a record with the given method and path and 0 hits; nothing else changes |
| `Infrastructure.Router.Get` | router.go:40-42 | `Handle` with method GET |
| `Infrastructure.Router.Head` | router.go:45-47 | `Handle` with method HEAD |
| `Infrastructure.Router.Options` | router.go:50-52 | `Handle` with method OPTIONS |
| `Infrastructure.Router.Post` | router.go:55-57 | `Handle` with method POST |
| `Infrastructure.Router.Put` | router.go:60-62 | `Handle` with method PUT |
| `Infrastructure.Router.Patch` | router.go:65-67 | `Handle` with method PATCH |
| `Infrastructure.Router.Delete` | router.go:70-72 | `Handle` with method DELETE |
| `Infrastructure.Router.RegisterRoute` | router.go:160-167 | the table becomes `Register(old table, handle, method, path)`: insert or overwrite with 0 hits |
| `Infrastructure.Router.RegisterHit` | router.go:169-173 | requires the handle to be registered; the table becomes `Hit(old table, handle)`: exactly one more hit for that record, nothing else changes |
| `Infrastructure.Router.Dispatch` | router.go:78-81 | whether the user handler returns or fails, exactly one hit is recorded for the handle; the outcome reports the failure |
| `Infrastructure.Router.FilterEndpoints` | router.go:121-136 | read-only; lists every record whose path is not an introspection path (and, when `unhit`, whose hits are 0) exactly once, in some order; the length equals the number of such records |
| `RouterProperties.ReplayCounts` | router.go:169-173 | after any sequence of dispatches each record's hits have grown by exactly its number of dispatches; method and path are unchanged; counts never decrease |
| `RouterProperties.ReplayIsOrderIndependent` | router.go:169-173 | two dispatch sequences with the same multiset of handles yield the same table, so no serialisation of concurrent hits loses an update |
| `RouterProperties.FreshRegistrationCounts` | router.go:160-173 | a freshly registered record has exactly N hits after N dispatches to its handle |
| `RouterProperties.SameRouteTwice` | router.go:75-81 | registering one method and path twice under two fresh handles adds two records to the table, each counting only dispatches to its own handle (in the source only the first is ever dispatched; see Left out) |
| `RouterProperties.FullListing` | router.go:128-130 | a handle is in the full listing if and only if it is registered and its path is neither `/endpoints` nor `/endpoints/unhit`, whatever its method |
| `RouterProperties.UnhitListing` | router.go:124-130 | the unhit listing is exactly the part of the full listing with 0 hits |
| `RouterProperties.IntrospectionNeverListed` | router.go:110-130 | a record at an introspection path is in neither listing |
| `RouterProperties.NewRouterListsNothing` | router.go:115-130 | a table holding only the two seeded introspection records lists nothing |
| `RouterProperties.RegisterListing` | router.go:160-167 | registering a fresh route adds exactly it to both listings, unless its path is an introspection path |
| `RouterProperties.ReplayListings` | router.go:121-136 | dispatches never change the full listing's membership; the unhit listing loses exactly the dispatched handles |
| `RouterProperties.IntrospectionHitUnlisted` | router.go:115-119 | dispatching an introspection route changes neither listing |
| `RouterProperties.EntriesPermutation` | router.go:121-136 | listings that visit the same handles in different orders hold the same multiset of records |
| `RouterProperties.ListingsAgree` | router.go:121-136 | two listings of an unchanged table are equal as multisets, whatever order the map iteration takes |
| `RouterProperties.UnhitScenario` | router.go:121-136 | after GET `/a` is registered on a new router, the unhit listing is `[GET /a, 0 hits]`; after one dispatch, the full listing is `[GET /a, 1 hit]` and the unhit listing is empty |

## Left out

- Route matching, path parameters, the NotFound and MethodNotAllowed outcomes, and the
  panic recovery of `PanicHandler` all live in the external `httprouter` package, which
  is not part of this model. `Dispatch` takes the handle of the matched route directly.
  A handler failure is a boolean input.
- `httprouter` panics when a conflicting route is registered. `Handle` calls it only
  after `registerRoute` has already stored the record (router.go:76 before
  router.go:83), so such a record stays in the table. The model treats the
  `httprouter` registration as always succeeding. A repeated method and path is such
  a conflict: in the source the second wrapper is never routed, so its record is
  never dispatched, stays at 0 hits and stays in the unhit listing. The program gets
  past that `Handle` only if the panic is recovered. `SameRouteTwice` and `Dispatch`
  do not capture this, so in the model the second handle can be dispatched.
- `ServeHTTP` and `ServeFiles` are pass-throughs to `httprouter` and are not modelled.
- `writeEndpoints` is not modelled. It covers the JSON encoding, the headers, the
  status codes and the logging of write errors, all of which are library and I/O
  calls. `handleGetEndpoints` and `handleGetEndpointsUnhit` are `FilterEndpoints(false)`
  and `FilterEndpoints(true)` followed by `writeEndpoints`.
- The `sync.Mutex` is not modelled. Each locked call is one atomic method. The missing
  lock in `filterEndpoints` is a concurrency matter and is not modelled.
- Infrastructure.Router.RegisterHit: hits are an unbounded `nat`. The model does not
  wrap `int64` at 2^63 - 1 hits.
- Infrastructure.Router.RegisterHit: an unregistered handle is excluded by the
  precondition. The source dereferences a nil record there (router.go:172) and
  panics.
- Infrastructure.Router.FilterEndpoints: the source returns pointers to the live
  records in the table, so a later hit shows through a slice that is still held. The
  model returns the record values at the time of the call. The ghost `order` gives the
  handles behind them.
