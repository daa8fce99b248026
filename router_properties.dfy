/**
  What the registry promises across several operations: hit counting over any
  sequence of dispatches, independence of registrations, and what the two
  introspection listings contain.
 */
module RouterProperties {
  import opened Infrastructure

  /** After a sequence of dispatches every record has gained exactly as many hits
      as the sequence holds dispatches to it; no record appears, disappears or
      changes method or path, and no count goes down. */
  lemma {:induction false} ReplayCounts(table: Table, trace: seq<Token>)
    requires AllIn(table, trace)
    ensures forall t :: t in table ==>
      Replay(table, trace)[t] == table[t].(hits := table[t].hits + multiset(trace)[t])
    ensures forall t :: t in table ==> Replay(table, trace)[t].hits >= table[t].hits
  {
    if trace != [] {
      var first, rest := trace[0], trace[1..];
      var next := Hit(table, first);
      ReplayCounts(next, rest);
      assert Replay(table, trace) == Replay(next, rest);
      assert trace == [first] + rest;
      assert multiset(trace) == multiset{first} + multiset(rest);
      forall t | t in table
        ensures Replay(table, trace)[t] == table[t].(hits := table[t].hits + multiset(trace)[t])
      {
        if t == first {
          assert next[t] == table[t].(hits := table[t].hits + 1);
        } else {
          assert next[t] == table[t];
        }
      }
    }
  }

  /** The final table depends only on how many dispatches each record received,
      not on the order in which the (serialised) dispatches ran. */
  lemma ReplayIsOrderIndependent(table: Table, trace1: seq<Token>, trace2: seq<Token>)
    requires AllIn(table, trace1) && AllIn(table, trace2)
    requires multiset(trace1) == multiset(trace2)
    ensures Replay(table, trace1) == Replay(table, trace2)
  {
    ReplayCounts(table, trace1);
    ReplayCounts(table, trace2);
    var after1, after2 := Replay(table, trace1), Replay(table, trace2);
    forall t | t in after1 ensures after1[t] == after2[t] {
      assert t in table;
    }
  }

  /** A record registered with no hits has, after any sequence of dispatches,
      exactly as many hits as dispatches to its handle. */
  lemma FreshRegistrationCounts(table: Table, token: Token, httpMethod: string, path: string, trace: seq<Token>)
    requires token !in table
    requires AllIn(Register(table, token, httpMethod, path), trace)
    ensures Replay(Register(table, token, httpMethod, path), trace)[token]
         == Endpoint(httpMethod, path, multiset(trace)[token])
  {
    ReplayCounts(Register(table, token, httpMethod, path), trace);
  }

  /** Registering the same method and path twice, under two fresh handles, gives two
      records in the table whose counters move independently. (In the source the
      second registration conflicts in the route table, so only the first is ever
      dispatched.) */
  lemma SameRouteTwice(table: Table, first: Token, second: Token, httpMethod: string, path: string, trace: seq<Token>)
    requires first != second && first !in table && second !in table
    requires AllIn(Register(Register(table, first, httpMethod, path), second, httpMethod, path), trace)
    ensures var twice := Register(Register(table, first, httpMethod, path), second, httpMethod, path);
      && |twice| == |table| + 2
      && Replay(twice, trace)[first] == Endpoint(httpMethod, path, multiset(trace)[first])
      && Replay(twice, trace)[second] == Endpoint(httpMethod, path, multiset(trace)[second])
  {
    var once := Register(table, first, httpMethod, path);
    var twice := Register(once, second, httpMethod, path);
    assert |once| == |table| + 1 by { assert once.Keys == table.Keys + {first}; }
    assert |twice| == |once| + 1 by { assert twice.Keys == once.Keys + {second}; }
    ReplayCounts(twice, trace);
  }

  /** The full listing holds exactly the records whose path is not an
      introspection path, whatever their method. */
  lemma FullListing(table: Table, t: Token)
    ensures t in Selected(table, false) <==> t in table && !IsIntrospectionPath(table[t].path)
  {
  }

  /** The unhit listing is exactly the part of the full listing with no hits. */
  lemma UnhitListing(table: Table)
    ensures Selected(table, true) == set t | t in Selected(table, false) && table[t].hits == 0
  {
  }

  /** Neither listing ever includes the introspection routes themselves. */
  lemma IntrospectionNeverListed(table: Table, unhit: bool, t: Token)
    requires t in table && IsIntrospectionPath(table[t].path)
    ensures t !in Selected(table, unhit)
  {
  }

  /** A router fresh from `New` lists nothing. */
  lemma NewRouterListsNothing(table: Table, unhit: bool)
    requires table.Values <= {Endpoint("GET", EndpointsPath, 0), Endpoint("GET", EndpointsUnhitPath, 0)}
    ensures Selected(table, unhit) == {}
  {
    forall t | t in table ensures !Listed(table[t], unhit) {
      assert table[t] in table.Values;
    }
  }

  /** Registering a route adds it to both listings unless its path is an
      introspection path; nothing else enters or leaves them. */
  lemma RegisterListing(table: Table, token: Token, httpMethod: string, path: string, unhit: bool)
    requires token !in table
    ensures Selected(Register(table, token, httpMethod, path), unhit)
         == Selected(table, unhit) + (if IsIntrospectionPath(path) then {} else {token})
  {
  }

  /** Dispatches never change which records the full listing holds; the unhit
      listing loses exactly the records that were dispatched to. */
  lemma {:induction false} ReplayListings(table: Table, trace: seq<Token>)
    requires AllIn(table, trace)
    ensures Selected(Replay(table, trace), false) == Selected(table, false)
    ensures Selected(Replay(table, trace), true) == set t | t in Selected(table, true) && t !in trace
  {
    if trace != [] {
      var first, rest := trace[0], trace[1..];
      var next := Hit(table, first);
      assert AllIn(next, rest);
      ReplayListings(next, rest);
      assert Replay(table, trace) == Replay(next, rest);
      assert Selected(next, false) == Selected(table, false);
      assert Selected(next, true) == Selected(table, true) - {first};
      forall t ensures t in trace <==> t == first || t in rest {
        assert trace == [first] + rest;
      }
    }
  }

  /** Dispatching an introspection route counts its hit but changes neither listing. */
  lemma IntrospectionHitUnlisted(table: Table, token: Token, unhit: bool)
    requires token in table && IsIntrospectionPath(table[token].path)
    ensures Selected(Hit(table, token), unhit) == Selected(table, unhit)
  {
  }

  /** Taking the handle at position `i` out of a sequence takes one copy of it out
      of its multiset. */
  lemma RemoveAt(order: seq<Token>, i: nat)
    requires i < |order|
    ensures multiset(order[..i] + order[i + 1..]) == multiset(order) - multiset{order[i]}
  {
    assert order == order[..i] + [order[i]] + order[i + 1..];
  }

  /** Taking the handle at position `i` out of a listing order takes its record out
      of the multiset of listed records. */
  lemma EntriesRemoveAt(table: Table, order: seq<Token>, i: nat)
    requires AllIn(table, order) && i < |order|
    ensures AllIn(table, order[..i] + order[i + 1..])
    ensures multiset(Entries(table, order))
         == multiset(Entries(table, order[..i] + order[i + 1..])) + multiset{table[order[i]]}
  {
    var all, fewer := Entries(table, order), Entries(table, order[..i] + order[i + 1..]);
    assert all == fewer[..i] + [table[order[i]]] + fewer[i..];
    assert fewer == fewer[..i] + fewer[i..];
  }

  /** The records under two handle sequences with equal multisets form equal multisets. */
  lemma {:induction false} EntriesPermutation(table: Table, order1: seq<Token>, order2: seq<Token>)
    requires AllIn(table, order1) && AllIn(table, order2)
    requires multiset(order1) == multiset(order2)
    ensures multiset(Entries(table, order1)) == multiset(Entries(table, order2))
    decreases |order1|
  {
    if order1 == [] {
      assert |order2| == |multiset(order2)| == 0;
    } else {
      var x := order1[0];
      assert x in order2 by { assert x in multiset(order1); }
      var i :| 0 <= i < |order2| && order2[i] == x;
      var rest1, rest2 := order1[..0] + order1[1..], order2[..i] + order2[i + 1..];
      assert multiset(rest1) == multiset(rest2) by {
        RemoveAt(order1, 0);
        RemoveAt(order2, i);
      }
      var entry := multiset{table[x]};
      assert && AllIn(table, rest1) && AllIn(table, rest2)
             && multiset(Entries(table, order1)) == multiset(Entries(table, rest1)) + entry
             && multiset(Entries(table, order2)) == multiset(Entries(table, rest2)) + entry
      by {
        EntriesRemoveAt(table, order1, 0);
        EntriesRemoveAt(table, order2, i);
      }
      EntriesPermutation(table, rest1, rest2);
    }
  }

  /** Two listings of the same table (two calls of `FilterEndpoints` with no
      registration or dispatch between them) hold the same records, as a multiset. */
  lemma ListingsAgree(table: Table, unhit: bool, order1: seq<Token>, order2: seq<Token>)
    requires Enumerates(order1, Selected(table, unhit)) && Enumerates(order2, Selected(table, unhit))
    ensures AllIn(table, order1) && AllIn(table, order2)
    ensures multiset(Entries(table, order1)) == multiset(Entries(table, order2))
  {
    var keys := Selected(table, unhit);
    forall i | 0 <= i < |order1| ensures order1[i] in table {
      assert order1[i] in keys;
    }
    forall i | 0 <= i < |order2| ensures order2[i] in table {
      assert order2[i] in keys;
    }
    EnumerationMultiset(order1, keys);
    EnumerationMultiset(order2, keys);
    EntriesPermutation(table, order1, order2);
  }

  /** A listing of a single selected handle is that handle alone. */
  lemma SingleListing(order: seq<Token>, token: Token)
    requires Enumerates(order, {token})
    ensures order == [token]
  {
    EnumerationMultiset(order, {token});
  }

  /** The listings of a new router after GET `/a` is registered, and after one
      dispatch to it. */
  lemma FirstRouteListings(seeded: Table, token: Token)
    requires token !in seeded
    requires seeded.Values == {Endpoint("GET", EndpointsPath, 0), Endpoint("GET", EndpointsUnhitPath, 0)}
    ensures Selected(Register(seeded, token, "GET", "/a"), false) == {token}
    ensures Selected(Register(seeded, token, "GET", "/a"), true) == {token}
    ensures Selected(Hit(Register(seeded, token, "GET", "/a"), token), false) == {token}
    ensures Selected(Hit(Register(seeded, token, "GET", "/a"), token), true) == {}
  {
    var registered := Register(seeded, token, "GET", "/a");
    NewRouterListsNothing(seeded, false);
    NewRouterListsNothing(seeded, true);
    RegisterListing(seeded, token, "GET", "/a", false);
    RegisterListing(seeded, token, "GET", "/a", true);
    assert Hit(registered, token) == Replay(registered, [token]);
    ReplayListings(registered, [token]);
  }

  /** The first use of the introspection routes: a new GET route is listed as
      unhit, and after one dispatch it is listed with one hit and no longer unhit. */
  method UnhitScenario() returns (before: seq<Endpoint>, after: seq<Endpoint>, afterUnhit: seq<Endpoint>)
    ensures before == [Endpoint("GET", "/a", 0)]
    ensures after == [Endpoint("GET", "/a", 1)]
    ensures afterUnhit == []
  {
    var router := new Router();
    ghost var seeded := router.hitCounter;
    var token := router.Get("/a");
    FirstRouteListings(seeded, token);
    ghost var order;
    before, order := router.FilterEndpoints(true);
    SingleListing(order, token);
    assert before == [router.hitCounter[token]];

    var outcome := router.Dispatch(token, false);
    after, order := router.FilterEndpoints(false);
    SingleListing(order, token);
    assert after == [router.hitCounter[token]];
    afterUnhit, order := router.FilterEndpoints(true);
    EnumerationMultiset(order, {});
  }
}
