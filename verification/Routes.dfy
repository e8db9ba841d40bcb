/** The routes of a request: an upstream account for a model candidate, in the order they are tried. */
module Routes {
  import opened Sequences

  datatype RouteKind = Direct(passthrough: bool) | Codex | AntigravityOAuth

  /** A blocked route only reports why its candidate cannot serve. */
  datatype Route = Route(candidate: int, revision: int, protocol: string, key: int, kind: RouteKind, blocked: bool)

  /** The routes of one candidate stand together. */
  predicate Grouped(routes: seq<Route>) {
    forall i, j, k | 0 <= i < j < k < |routes| :: routes[i].candidate == routes[k].candidate ==> routes[j].candidate == routes[i].candidate
  }

  function When(p: Route -> bool): Route -> seq<Route> {
    (r: Route) => if p(r) then [r] else []
  }

  /** The routes that satisfy `p`, in order. */
  function Filter(p: Route -> bool, routes: seq<Route>): seq<Route> {
    FlatMap(When(p), routes)
  }

  lemma FilterMore(p: Route -> bool, routes: seq<Route>)
    requires routes != []
    ensures Filter(p, routes) == Filter(p, routes[..|routes| - 1]) + if p(routes[|routes| - 1]) then [routes[|routes| - 1]] else []
  {
  }

  lemma {:induction false} Filtered(p: Route -> bool, routes: seq<Route>)
    ensures forall r | r in Filter(p, routes) :: r in routes && p(r)
  {
    if routes != [] {
      var front, last := routes[..|routes| - 1], routes[|routes| - 1];
      Filtered(p, front);
      assert routes == front + [last];
    }
  }

  /** Two complementary conditions share the routes between them. */
  lemma {:induction false} Shared(p: Route -> bool, q: Route -> bool, routes: seq<Route>)
    requires forall r | r in routes :: q(r) <==> !p(r)
    ensures multiset(Filter(p, routes)) + multiset(Filter(q, routes)) == multiset(routes)
    ensures |Filter(p, routes)| + |Filter(q, routes)| == |routes|
  {
    if routes != [] {
      var front, last := routes[..|routes| - 1], routes[|routes| - 1];
      assert last in routes && routes == front + [last];
      FilterMore(p, routes);
      FilterMore(q, routes);
      hide Filter;
      Shared(p, q, front);
    }
  }

  /** Leaving routes out keeps the rest grouped. */
  lemma {:induction false} FilterGrouped(p: Route -> bool, routes: seq<Route>)
    requires Grouped(routes)
    ensures Grouped(Filter(p, routes))
  {
    if routes != [] {
      var front, last := routes[..|routes| - 1], routes[|routes| - 1];
      assert routes == front + [last];
      FilterGrouped(p, front);
      Filtered(p, front);
      if p(last) { AppendGrouped(p, front, last); }
    }
  }

  lemma {:induction false} AppendGrouped(p: Route -> bool, front: seq<Route>, last: Route)
    requires Grouped(front + [last])
    requires Grouped(Filter(p, front))
    ensures Grouped(Filter(p, front) + [last])
  {
    var kept := Filter(p, front);
    forall i, j | 0 <= i < j < |kept| && kept[i].candidate == last.candidate ensures kept[j].candidate == last.candidate {
      var a, b := Positions(p, front, i, j);
      var all := front + [last];
      assert all[a].candidate == all[|front|].candidate ==> all[b].candidate == all[a].candidate;
    }
    var s := kept + [last];
    forall i, j, k | 0 <= i < j < k < |s| && s[i].candidate == s[k].candidate ensures s[j].candidate == s[i].candidate { }
  }

  /** Kept routes stand in their old order. */
  lemma {:induction false} Positions(p: Route -> bool, routes: seq<Route>, i: nat, j: nat) returns (a: nat, b: nat)
    requires i < j < |Filter(p, routes)|
    ensures a < b < |routes| && routes[a] == Filter(p, routes)[i] && routes[b] == Filter(p, routes)[j]
  {
    var front, last := routes[..|routes| - 1], routes[|routes| - 1];
    if j < |Filter(p, front)| {
      a, b := Positions(p, front, i, j);
    } else {
      b := |routes| - 1;
      a := Position(p, front, i);
    }
  }

  lemma {:induction false} Position(p: Route -> bool, routes: seq<Route>, i: nat) returns (a: nat)
    requires i < |Filter(p, routes)|
    ensures a < |routes| && routes[a] == Filter(p, routes)[i]
  {
    if i < |Filter(p, routes[..|routes| - 1])| { a := Position(p, routes[..|routes| - 1], i); } else { a := |routes| - 1; }
  }
}
