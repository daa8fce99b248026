/**
  The hit-counter registry of the router package: every route registered through
  `Handle` gets an endpoint record (method, path, hits) keyed by a per-registration
  handle; every dispatch of the wrapped handler adds one hit; two introspection
  routes list the records, optionally only the never-hit ones.
 */
module Infrastructure {

  /** The two introspection routes registered by `New`. */
  const EndpointsPath: string := "/endpoints"
  const EndpointsUnhitPath: string := "/endpoints/unhit"

  /** Stands for the address `&handle` taken of `Handle`'s own parameter:
      a fresh one is handed out by every registration. */
  type Token = nat

  /** One registered route and the number of times its handler was dispatched. */
  datatype Endpoint = Endpoint(httpMethod: string, path: string, hits: nat)

  /** The lookup table from registration handle to endpoint record. */
  type Table = map<Token, Endpoint>

  /** How a dispatched handler ended: it returned, or it failed (panicked). */
  datatype Outcome = Returned | Failed

  predicate IsIntrospectionPath(path: string)
  {
    path == EndpointsPath || path == EndpointsUnhitPath
  }

  /** The two `continue` guards of the listing loop, negated: the record is listed. */
  predicate Listed(e: Endpoint, unhit: bool)
  {
    !(unhit && e.hits > 0) && !IsIntrospectionPath(e.path)
  }

  /** The table after `registerRoute(method, path, token)`. */
  function Register(table: Table, token: Token, httpMethod: string, path: string): (r: Table)
    ensures r.Keys == table.Keys + {token}
    ensures r[token].httpMethod == httpMethod && r[token].path == path && r[token].hits == 0
    ensures forall k :: k in table && k != token ==> r[k] == table[k]
  {
    table[token := Endpoint(httpMethod, path, 0)]
  }

  /** The table after `registerHit(token)`. */
  function Hit(table: Table, token: Token): (r: Table)
    requires token in table
    ensures r.Keys == table.Keys
    ensures r[token].hits == table[token].hits + 1
    ensures r[token].httpMethod == table[token].httpMethod && r[token].path == table[token].path
    ensures forall k :: k in table && k != token ==> r[k] == table[k]
  {
    table[token := table[token].(hits := table[token].hits + 1)]
  }

  /** Every handle of `trace` is registered in `table`. */
  ghost predicate AllIn(table: Table, trace: seq<Token>)
  {
    forall i :: 0 <= i < |trace| ==> trace[i] in table
  }

  /** The table after one dispatch to each handle of `trace`, in that order:
      dispatches never add or remove a record. */
  function Replay(table: Table, trace: seq<Token>): (r: Table)
    requires AllIn(table, trace)
    ensures r.Keys == table.Keys
  {
    if trace == [] then table
    else
      assert trace[0] in table;
      Replay(Hit(table, trace[0]), trace[1..])
  }

  /** The handles whose records `filterEndpoints(unhit)` lists. */
  ghost function Selected(table: Table, unhit: bool): set<Token>
  {
    set t | t in table && Listed(table[t], unhit)
  }

  /** `order` lists every element of `keys` exactly once, and nothing else. */
  ghost predicate Enumerates(order: seq<Token>, keys: set<Token>)
  {
    && (forall i, j :: 0 <= i < j < |order| ==> order[i] != order[j])
    && (forall t :: t in keys <==> t in order)
  }

  /** The records stored under the handles of `order`, in that order. */
  function Entries(table: Table, order: seq<Token>): (r: seq<Endpoint>)
    requires AllIn(table, order)
    ensures |r| == |order|
    ensures forall i {:trigger r[i]} :: 0 <= i < |order| ==> r[i] == table[order[i]]
  {
    seq(|order|, i requires 0 <= i < |order| => table[order[i]])
  }

  /** Dropping the last handle of an enumeration enumerates the rest of the set. */
  lemma EnumerationFront(order: seq<Token>, keys: set<Token>)
    requires Enumerates(order, keys) && order != []
    ensures order[|order| - 1] in keys
    ensures Enumerates(order[..|order| - 1], keys - {order[|order| - 1]})
  {
  }

  /** A duplicate-free enumeration of a set holds each element of it once. */
  lemma {:induction false} EnumerationMultiset(order: seq<Token>, keys: set<Token>)
    requires Enumerates(order, keys)
    ensures multiset(order) == multiset(keys)
    ensures |order| == |keys|
  {
    if order == [] {
      assert keys == {};
    } else {
      var n := |order| - 1;
      var last, front := order[n], order[..n];
      EnumerationFront(order, keys);
      EnumerationMultiset(front, keys - {last});
      assert multiset(order) == multiset(front) + multiset{last} by {
        assert order == front + [last];
      }
      assert multiset(keys) == multiset(keys - {last}) + multiset{last} by {
        assert keys == (keys - {last}) + {last};
      }
    }
  }

  /**
    The router. `hitCounter` is the endpoint lookup table; `nextToken` is where
    the next registration's handle is taken from, so that every handle is fresh.
   */
  class Router {
    var hitCounter: Table
    var nextToken: Token

    ghost predicate Valid()
      reads this
    {
      forall t :: t in hitCounter ==> t < nextToken
    }

    /** `New`: an empty table, seeded by `registerPaths` with the two
        introspection routes. */
    constructor ()
      ensures Valid()
      ensures |hitCounter| == 2
      ensures hitCounter.Values == {Endpoint("GET", EndpointsPath, 0), Endpoint("GET", EndpointsUnhitPath, 0)}
    {
      hitCounter := map[];
      nextToken := 0;
      new;
      var listAll, listUnhit := RegisterPaths();
      assert hitCounter.Keys == {listAll, listUnhit};
    }

    /** `registerPaths`: GET of the two introspection routes. */
    method RegisterPaths() returns (listAll: Token, listUnhit: Token)
      requires Valid()
      modifies this
      ensures Valid()
      ensures listAll != listUnhit
      ensures listAll !in old(hitCounter) && listUnhit !in old(hitCounter)
      ensures hitCounter == old(hitCounter)[listAll := Endpoint("GET", EndpointsPath, 0)]
                                           [listUnhit := Endpoint("GET", EndpointsUnhitPath, 0)]
    {
      listAll := Get(EndpointsPath);
      listUnhit := Get(EndpointsUnhitPath);
    }

    /** `Handle`: registers the route under a fresh handle, which the wrapped
        handler later passes to `Dispatch`. */
    method Handle(httpMethod: string, path: string) returns (token: Token)
      requires Valid()
      modifies this
      ensures Valid()
      ensures token !in old(hitCounter)
      ensures hitCounter == Register(old(hitCounter), token, httpMethod, path)
    {
      token := nextToken;
      nextToken := nextToken + 1;
      RegisterRoute(httpMethod, path, token);
    }

    method Get(path: string) returns (token: Token)
      requires Valid()
      modifies this
      ensures Valid()
      ensures token !in old(hitCounter)
      ensures hitCounter == Register(old(hitCounter), token, "GET", path)
    {
      token := Handle("GET", path);
    }

    method Head(path: string) returns (token: Token)
      requires Valid()
      modifies this
      ensures Valid()
      ensures token !in old(hitCounter)
      ensures hitCounter == Register(old(hitCounter), token, "HEAD", path)
    {
      token := Handle("HEAD", path);
    }

    method Options(path: string) returns (token: Token)
      requires Valid()
      modifies this
      ensures Valid()
      ensures token !in old(hitCounter)
      ensures hitCounter == Register(old(hitCounter), token, "OPTIONS", path)
    {
      token := Handle("OPTIONS", path);
    }

    method Post(path: string) returns (token: Token)
      requires Valid()
      modifies this
      ensures Valid()
      ensures token !in old(hitCounter)
      ensures hitCounter == Register(old(hitCounter), token, "POST", path)
    {
      token := Handle("POST", path);
    }

    method Put(path: string) returns (token: Token)
      requires Valid()
      modifies this
      ensures Valid()
      ensures token !in old(hitCounter)
      ensures hitCounter == Register(old(hitCounter), token, "PUT", path)
    {
      token := Handle("PUT", path);
    }

    method Patch(path: string) returns (token: Token)
      requires Valid()
      modifies this
      ensures Valid()
      ensures token !in old(hitCounter)
      ensures hitCounter == Register(old(hitCounter), token, "PATCH", path)
    {
      token := Handle("PATCH", path);
    }

    method Delete(path: string) returns (token: Token)
      requires Valid()
      modifies this
      ensures Valid()
      ensures token !in old(hitCounter)
      ensures hitCounter == Register(old(hitCounter), token, "DELETE", path)
    {
      token := Handle("DELETE", path);
    }

    /** `registerRoute`: stores a record with no hits under `token`. */
    method RegisterRoute(httpMethod: string, path: string, token: Token)
      requires Valid() && token < nextToken
      modifies this`hitCounter
      ensures Valid()
      ensures hitCounter == Register(old(hitCounter), token, httpMethod, path)
    {
      hitCounter := hitCounter[token := Endpoint(httpMethod, path, 0)];
    }

    /** `registerHit`: one more hit for the record under `token`, which must have
        been registered (the source dereferences the stored record). */
    method RegisterHit(token: Token)
      requires Valid() && token in hitCounter
      modifies this`hitCounter
      ensures Valid()
      ensures hitCounter == Hit(old(hitCounter), token)
    {
      var e := hitCounter[token];
      hitCounter := hitCounter[token := e.(hits := e.hits + 1)];
    }

    /** The wrapped handler built by `Handle`: runs the user handler, which may
        fail, and records the hit on the way out in every case. */
    method Dispatch(token: Token, handlerFails: bool) returns (outcome: Outcome)
      requires Valid() && token in hitCounter
      modifies this`hitCounter
      ensures Valid()
      ensures hitCounter == Hit(old(hitCounter), token)
      ensures outcome == Failed <==> handlerFails
    {
      outcome := if handlerFails then Failed else Returned;
      RegisterHit(token);
    }

    /** `filterEndpoints`: every listed record once, in the table's (unspecified)
        iteration order; `order` is the handles in the order they were listed. */
    method FilterEndpoints(unhit: bool) returns (endpoints: seq<Endpoint>, ghost order: seq<Token>)
      ensures Enumerates(order, Selected(hitCounter, unhit))
      ensures AllIn(hitCounter, order)
      ensures endpoints == Entries(hitCounter, order)
      ensures |endpoints| == |Selected(hitCounter, unhit)|
    {
      endpoints, order := [], [];
      var remaining := hitCounter.Keys;
      while remaining != {}
        invariant remaining <= hitCounter.Keys
        invariant forall i :: 0 <= i < |order| ==> order[i] in hitCounter && order[i] !in remaining
        invariant Enumerates(order, Selected(hitCounter, unhit) - remaining)
        invariant endpoints == Entries(hitCounter, order)
        decreases remaining
      {
        var t :| t in remaining;
        remaining := remaining - {t};
        var e := hitCounter[t];
        if unhit && e.hits > 0 {
          continue;
        }
        if e.path == EndpointsPath || e.path == EndpointsUnhitPath {
          continue;
        }
        endpoints := endpoints + [e];
        order := order + [t];
      }
      EnumerationMultiset(order, Selected(hitCounter, unhit));
    }
  }
}
