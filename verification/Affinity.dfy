/** Session affinity: a session's requests prefer the account that served them before. */
module Affinity {
  import opened Wrappers
  import opened Sequences
  import opened Routes
  import opened RouteLoading

  const LIMIT := 10000
  const LIFETIME := 3600

  datatype SessionKey = SessionKey(access: int, candidate: int, revision: int, session: string, protocol: string)

  datatype Binding = Binding(keyID: int, expires: int)

  type Bindings = map<SessionKey, Binding>

  function KeyFor(r: Route, session: string, access: int): SessionKey {
    SessionKey(access, r.candidate, r.revision, session, r.protocol)
  }

  predicate LiveAt(b: Bindings, k: SessionKey, now: int) {
    k in b && now < b[k].expires
  }

  // ---- reordering ----

  predicate Prefix(routes: seq<Route>, n: nat) {
    n <= |routes| && forall i | 0 <= i < n :: routes[i].candidate == routes[0].candidate
  }

  /** The length of the leading group of one candidate. */
  function GroupEnd(routes: seq<Route>): (n: nat)
    requires routes != []
    ensures 0 < n && Prefix(routes, n) && (n < |routes| ==> routes[n].candidate != routes[0].candidate)
  {
    if |routes| == 1 || routes[1].candidate != routes[0].candidate then 1
    else GroupEnd(routes[1..]) + 1
  }

  function HasKey(id: int): Route -> bool {
    (r: Route) => r.key == id
  }

  function LacksKey(id: int): Route -> bool {
    (r: Route) => r.key != id
  }

  /** Routes of the bound key first, the rest after them, both in their old order. */
  function Preferred(group: seq<Route>, id: int): seq<Route> {
    Filter(HasKey(id), group) + Filter(LacksKey(id), group)
  }

  function ReorderedGroup(group: seq<Route>, b: Bindings, session: string, access: int, now: int): seq<Route>
    requires group != []
  {
    var k := KeyFor(group[0], session, access);
    if LiveAt(b, k, now) then Preferred(group, b[k].keyID) else group
  }

  /** Group by group, each at its old place. */
  function Reordered(routes: seq<Route>, b: Bindings, session: string, access: int, now: int): seq<Route> {
    if routes == [] then []
    else
      var n := GroupEnd(routes);
      ReorderedGroup(routes[..n], b, session, access, now) + Reordered(routes[n..], b, session, access, now)
  }

  lemma PreferredKeeps(group: seq<Route>, id: int)
    ensures |Preferred(group, id)| == |group| && multiset(Preferred(group, id)) == multiset(group)
    ensures forall r | r in Preferred(group, id) :: r in group
  {
    Filtered(HasKey(id), group);
    Filtered(LacksKey(id), group);
    Shared(HasKey(id), LacksKey(id), group);
  }

  lemma GroupKeeps(group: seq<Route>, b: Bindings, session: string, access: int, now: int)
    requires group != [] && Prefix(group, |group|)
    ensures Permutes(group, ReorderedGroup(group, b, session, access, now))
  {
    hide Preferred;
    var out := ReorderedGroup(group, b, session, access, now);
    if out != group { PreferredKeeps(group, b[KeyFor(group[0], session, access)].keyID); }
    forall i | 0 <= i < |out| ensures out[i].candidate == group[0].candidate {
      assert out[i] in group;
    }
  }

  /** Same length, same routes, same candidate at every place. */
  predicate Permutes(a: seq<Route>, out: seq<Route>) {
    |out| == |a| && multiset(out) == multiset(a) && forall i | 0 <= i < |a| :: out[i].candidate == a[i].candidate
  }

  lemma PermutesJoined(a: seq<Route>, x: seq<Route>, b: seq<Route>, y: seq<Route>)
    requires Permutes(a, x) && Permutes(b, y)
    ensures Permutes(a + b, x + y)
  {
  }

  lemma ReorderedSplit(routes: seq<Route>, b: Bindings, session: string, access: int, now: int) returns (group: seq<Route>, rest: seq<Route>)
    requires routes != []
    ensures group != [] && routes == group + rest && Prefix(group, |group|)
    ensures Reordered(routes, b, session, access, now)
         == ReorderedGroup(group, b, session, access, now) + Reordered(rest, b, session, access, now)
  {
    hide ReorderedGroup;
    var n := GroupEnd(routes);
    group, rest := routes[..n], routes[n..];
  }

  /** The order of candidates and the routes of each are unchanged; only the order inside a group may be. */
  lemma {:induction false} ReorderedPermutes(routes: seq<Route>, b: Bindings, session: string, access: int, now: int)
    ensures Permutes(routes, Reordered(routes, b, session, access, now))
    decreases |routes|
  {
    hide ReorderedGroup, Prefix;
    if routes != [] {
      var group, rest := ReorderedSplit(routes, b, session, access, now);
      GroupKeeps(group, b, session, access, now);
      ReorderedPermutes(rest, b, session, access, now);
      PermutesJoined(group, ReorderedGroup(group, b, session, access, now), rest, Reordered(rest, b, session, access, now));
    }
  }

  /** So the result is grouped when the input was. */
  lemma ReorderedGrouped(routes: seq<Route>, b: Bindings, session: string, access: int, now: int)
    requires Grouped(routes)
    ensures Grouped(Reordered(routes, b, session, access, now))
  {
    ReorderedPermutes(routes, b, session, access, now);
  }

  /** The group as affinity leaves it: as it was without a live binding, and otherwise the bound account's
      routes before the others, each part in its old order. */
  predicate Arranged(group: seq<Route>, out: seq<Route>, bound: Option<int>) {
    match bound
    case None => out == group
    case Some(id) =>
      && |out| == |group|
      && (forall i, j | 0 <= i < j < |out| :: out[j].key == id ==> out[i].key == id)
      && Filter(HasKey(id), out) == Filter(HasKey(id), group) && Filter(LacksKey(id), out) == Filter(LacksKey(id), group)
  }

  /** The account a session is bound to at a group, if the binding has not expired. */
  function BoundTo(b: Bindings, group: seq<Route>, session: string, access: int, now: int): Option<int>
    requires group != []
  {
    var k := KeyFor(group[0], session, access);
    if k in b && now < b[k].expires then Some(b[k].keyID) else None
  }

  /** Every group, where it was. */
  predicate AllArranged(routes: seq<Route>, out: seq<Route>, b: Bindings, session: string, access: int, now: int) {
    if routes == [] then out == []
    else
      var n := GroupEnd(routes);
      && |out| == |routes| && Arranged(routes[..n], out[..n], BoundTo(b, routes[..n], session, access, now))
      && AllArranged(routes[n..], out[n..], b, session, access, now)
  }

  lemma {:induction false} FilterTwice(p: Route -> bool, q: Route -> bool, routes: seq<Route>)
    requires forall r | r in routes :: q(r) <==> !p(r)
    ensures Filter(p, Filter(p, routes)) == Filter(p, routes) && Filter(q, Filter(p, routes)) == []
  {
    if routes != [] {
      var front, last := routes[..|routes| - 1], routes[|routes| - 1];
      var kept := Filter(p, front);
      assert last in routes;
      FilterTwice(p, q, front);
      FilterMore(p, routes);
      if p(last) {
        assert (kept + [last])[..|kept + [last]| - 1] == kept;
        FilterMore(p, kept + [last]);
        FilterMore(q, kept + [last]);
        assert kept + [last] == Filter(p, routes);
      } else {
        assert kept + [] == kept;
      }
    }
  }

  lemma GroupArranged(group: seq<Route>, b: Bindings, session: string, access: int, now: int)
    requires group != []
    ensures Arranged(group, ReorderedGroup(group, b, session, access, now), BoundTo(b, group, session, access, now))
  {
    var bound := BoundTo(b, group, session, access, now);
    if bound.Some? { PreferredArranged(group, bound.value); }
    hide Arranged, Preferred;
  }

  lemma PreferredArranged(group: seq<Route>, id: int)
    ensures Arranged(group, Preferred(group, id), Some(id))
  {
    var first, last := Filter(HasKey(id), group), Filter(LacksKey(id), group);
    PreferredFirst(group, id);
    FilterTwice(HasKey(id), LacksKey(id), group);
    FilterTwice(LacksKey(id), HasKey(id), group);
    FlatMapConcat(When(HasKey(id)), first, last);
    FlatMapConcat(When(LacksKey(id)), first, last);
    assert first + [] == first && [] + last == last;
    hide FlatMap;
  }

  lemma PreferredFirst(group: seq<Route>, id: int)
    ensures |Preferred(group, id)| == |group|
    ensures forall i, j | 0 <= i < j < |Preferred(group, id)| ::
      Preferred(group, id)[j].key == id ==> Preferred(group, id)[i].key == id
  {
    var first, last := Filter(HasKey(id), group), Filter(LacksKey(id), group);
    PreferredKeeps(group, id);
    Filtered(HasKey(id), group);
    Filtered(LacksKey(id), group);
    hide Filter;
    var out := first + last;
    assert forall k | 0 <= k < |first| :: out[k] in first;
    assert forall k | |first| <= k < |out| :: out[k] in last;
  }

  /** Main result: affinity does exactly this, group by group. */
  lemma {:induction false} ReorderedExactly(routes: seq<Route>, b: Bindings, session: string, access: int, now: int)
    ensures AllArranged(routes, Reordered(routes, b, session, access, now), b, session, access, now)
    decreases |routes|
  {
    hide Arranged, ReorderedGroup, BoundTo;
    if routes != [] {
      var n := GroupEnd(routes);
      var out := Reordered(routes, b, session, access, now);
      GroupArranged(routes[..n], b, session, access, now);
      ReorderedExactly(routes[n..], b, session, access, now);
      GroupKeeps(routes[..n], b, session, access, now);
      ReorderedPermutes(routes[n..], b, session, access, now);
      assert out[..n] == ReorderedGroup(routes[..n], b, session, access, now);
      assert out[n..] == Reordered(routes[n..], b, session, access, now);
    }
  }

  /** In the group of a live binding the bound account comes first; without one nothing moves. */
  lemma BoundFirst(group: seq<Route>, b: Bindings, session: string, access: int, now: int, i: nat, j: nat)
    requires group != [] && i < j < |ReorderedGroup(group, b, session, access, now)|
    requires LiveAt(b, KeyFor(group[0], session, access), now)
    ensures var id, out := b[KeyFor(group[0], session, access)].keyID, ReorderedGroup(group, b, session, access, now);
      out[j].key == id ==> out[i].key == id
  {
    var id := b[KeyFor(group[0], session, access)].keyID;
    var first, last := Filter(HasKey(id), group), Filter(LacksKey(id), group);
    Filtered(HasKey(id), group);
    Filtered(LacksKey(id), group);
    var out := first + last;
    assert i < |first| ==> out[i] in first;
    assert j >= |first| ==> out[j] in last;
  }

  // ---- the handler's bindings and routes ----

  class Handler {
    var affinities: Bindings

    constructor ()
      ensures affinities == map[]
    {
      affinities := map[];
    }

    /** Sorts each group of the array in place; expired bindings of the session are dropped. */
    method AffinityRoutes(routes: array<Route>, session: string, access: int, now: int)
      modifies this, routes
      ensures routes[..] == Reordered(old(routes[..]), old(affinities), session, access, now)
      ensures SameLive(old(affinities), affinities, now)
    {
      hide Reordered, ReorderedGroup, SameLive;
      ghost var was, bindings := routes[..], affinities;
      var start := 0;
      NothingToDo(bindings, session, access, now);
      while start < routes.Length
        invariant 0 <= start <= routes.Length && routes[start..] == was[start..]
        invariant routes[..start] + Reordered(was[start..], bindings, session, access, now) == Reordered(was, bindings, session, access, now)
        invariant SameLive(bindings, affinities, now)
        decreases routes.Length - start
      {
        var end := GroupOf(routes, start);
        ghost var group := was[start..end];
        GroupAt(was, start, end, bindings, session, access, now);
        assert routes[start..end] == routes[start..][..end - start] && group == was[start..][..end - start];
        SameGroup(bindings, affinities, now, group, session, access);
        ghost var done := routes[..start];
        PreferBound(routes, start, end, session, access, now);
        assert routes[..end] == done + ReorderedGroup(group, bindings, session, access, now);
        start := end;
      }
      assert routes[..start] == routes[..];
    }

    method GroupOf(routes: array<Route>, start: nat) returns (end: nat)
      requires start < routes.Length
      ensures start < end <= routes.Length
      ensures forall i | start <= i < end :: routes[i].candidate == routes[start].candidate
      ensures end < routes.Length ==> routes[end].candidate != routes[start].candidate
    {
      end := start + 1;
      while end < routes.Length && routes[end].candidate == routes[start].candidate
        invariant start < end <= routes.Length
        invariant forall i | start <= i < end :: routes[i].candidate == routes[start].candidate
      {
        end := end + 1;
      }
    }

    method PreferBound(routes: array<Route>, start: nat, end: nat, session: string, access: int, now: int)
      requires start < end <= routes.Length
      modifies this, routes
      ensures routes[start..end] == ReorderedGroup(old(routes[start..end]), old(affinities), session, access, now)
      ensures routes[..start] == old(routes[..start]) && routes[end..] == old(routes[end..])
      ensures forall other | SameLive(other, old(affinities), now) :: SameLive(other, affinities, now)
    {
      hide Preferred;
      var key := KeyFor(routes[start], session, access);
      assert routes[start..end][0] == routes[start];
      if key in affinities && now < affinities[key].expires {
        SortGroup(routes, start, end, affinities[key].keyID);
      } else {
        affinities := affinities - {key};
      }
    }

    /** Stable: the routes of the key first, then the others. */
    method SortGroup(routes: array<Route>, start: nat, end: nat, id: int)
      requires start <= end <= routes.Length
      modifies routes
      ensures routes[start..end] == Preferred(old(routes[start..end]), id)
      ensures routes[..start] == old(routes[..start]) && routes[end..] == old(routes[end..])
    {
      hide Preferred;
      var group := routes[start..end];
      PreferredKeeps(group, id);
      var sorted := Preferred(group, id);
      forall i | start <= i < end { routes[i] := sorted[i - start]; }
      assert routes[start..end] == sorted;
    }

    /** After a served request: the route of the candidate and account that served it is looked up, and
        the session is bound to the account. A request nobody served, or a route not offered, binds nothing. */
    method RememberAffinity(served: Option<Target>, session: string, access: int, routes: seq<Route>, now: int)
      requires |affinities| <= LIMIT
      modifies this
      ensures |affinities| <= LIMIT
      ensures served == None || !(exists r :: r in routes && Reached(r, served.value)) ==> affinities == old(affinities)
      ensures served.Some? ==> forall i: nat | FirstReached(routes, served.value, i) ::
        Rebound(old(affinities), affinities, KeyFor(routes[i], session, access), served.value.key, now)
    {
      if served == None { return; }
      for i := 0 to |routes|
        invariant affinities == old(affinities)
        invariant forall j | 0 <= j < i :: !Reached(routes[j], served.value)
      {
        if Reached(routes[i], served.value) {
          assert routes[i] in routes;
          Bind(KeyFor(routes[i], session, access), served.value.key, now);
          return;
        }
      }
    }

    /** Binds an account. A full table first loses its expired bindings, and only if there were none the
        one that would expire first. */
    method Bind(key: SessionKey, keyID: int, now: int)
      requires |affinities| <= LIMIT
      modifies this
      ensures |affinities| <= LIMIT && Rebound(old(affinities), affinities, key, keyID, now)
    {
      if key !in affinities && |affinities| >= LIMIT {
        Evict(now);
      }
      ghost var kept := affinities;
      affinities := affinities[key := Binding(keyID, now + LIFETIME)];
      assert affinities.Keys == kept.Keys + {key};
    }

    method Evict(now: int)
      requires |affinities| == LIMIT
      modifies this
      ensures |affinities| < LIMIT
      ensures forall k | k in affinities :: k in old(affinities) && affinities[k] == old(affinities)[k]
      ensures forall k | k in old(affinities) && k !in affinities && LiveAt(old(affinities), k, now) ::
        Earliest(old(affinities), k, now)
    {
      ghost var was := affinities;
      var rest := affinities.Keys;
      var oldest: Option<SessionKey> := None;
      while rest != {}
        invariant rest <= affinities.Keys <= was.Keys && forall k | k in affinities :: affinities[k] == was[k]
        invariant forall k | k in was && k !in affinities :: !LiveAt(was, k, now)
        invariant forall k | k in affinities && k !in rest :: LiveAt(was, k, now)
        invariant oldest == None ==> affinities.Keys <= rest
        invariant oldest.Some? ==> oldest.value in affinities && oldest.value !in rest
        invariant oldest.Some? ==> forall k | k in affinities && k !in rest :: was[oldest.value].expires <= was[k].expires
        decreases rest
      {
        var k := Any(rest);
        rest := rest - {k};
        if affinities[k].expires <= now {
          affinities := affinities - {k};
        } else if oldest == None || affinities[k].expires < affinities[oldest.value].expires {
          oldest := Some(k);
        }
      }
      Fewer(was, affinities);
      if |affinities| >= LIMIT {
        assert affinities.Keys == was.Keys;
        assert oldest.Some?;
        ghost var full := affinities;
        affinities := affinities - {oldest.value};
        assert full.Keys == affinities.Keys + {oldest.value};
      }
    }
  }

  /** The candidate and account that served a request. */
  datatype Target = Target(candidate: int, key: int)

  predicate Reached(r: Route, s: Target) {
    r.candidate == s.candidate && r.key == s.key
  }

  predicate FirstReached(routes: seq<Route>, s: Target, i: nat) {
    i < |routes| && Reached(routes[i], s) && forall j | 0 <= j < i :: !Reached(routes[j], s)
  }

  /** The table with a key bound for an hour. The other bindings are old ones; a live one is missing only
      if it was the first to expire and none had expired, and none at all if the key was bound before. */
  predicate Rebound(was: Bindings, b: Bindings, key: SessionKey, keyID: int, now: int) {
    && key in b && b[key] == Binding(keyID, now + LIFETIME)
    && (forall k | k in b && k != key :: k in was && b[k] == was[k])
    && (forall k | k in was && k !in b && LiveAt(was, k, now) :: Earliest(was, k, now))
    && (key in was ==> b.Keys == was.Keys)
  }

  /** The binding holds for an hour, and until then the account that served comes first in its group. */
  lemma ServedComesFirst(was: Bindings, b: Bindings, r: Route, session: string, access: int, now: int,
                         group: seq<Route>, later: int, i: nat, j: nat)
    requires Rebound(was, b, KeyFor(r, session, access), r.key, now) && now <= later < now + LIFETIME
    requires group != [] && KeyFor(group[0], session, access) == KeyFor(r, session, access)
    requires i < j < |ReorderedGroup(group, b, session, access, later)|
    ensures var out := ReorderedGroup(group, b, session, access, later); out[j].key == r.key ==> out[i].key == r.key
  {
    BoundFirst(group, b, session, access, later, i, j);
  }

  /** No binding has expired, and none expires before this one. */
  predicate Earliest(b: Bindings, k: SessionKey, now: int) {
    k in b && forall j | j in b :: now < b[j].expires && b[k].expires <= b[j].expires
  }

  lemma Fewer(a: Bindings, b: Bindings)
    requires b.Keys <= a.Keys
    ensures |b| <= |a| && (|b| == |a| ==> b.Keys == a.Keys)
  {
    assert a.Keys == b.Keys + (a.Keys - b.Keys);
  }

  method Any(s: set<SessionKey>) returns (x: SessionKey)
    requires s != {}
    ensures x in s
  {
    assert (forall y :: y !in s) ==> s == {};
    x :| x in s;
  }

  lemma NothingToDo(b: Bindings, session: string, access: int, now: int)
    ensures Reordered([], b, session, access, now) == [] && SameLive(b, b, now)
  {
  }

  /** The routes from `start` to `end` are the leading group of what is left. */
  lemma GroupAt(was: seq<Route>, start: nat, end: nat, b: Bindings, session: string, access: int, now: int)
    requires start < end <= |was| && forall i | start <= i < end :: was[i].candidate == was[start].candidate
    requires end < |was| ==> was[end].candidate != was[start].candidate
    ensures Reordered(was[start..], b, session, access, now)
         == ReorderedGroup(was[start..end], b, session, access, now) + Reordered(was[end..], b, session, access, now)
  {
    hide ReorderedGroup;
    var rest := was[start..];
    var n := GroupEnd(rest);
    assert n == end - start;
    assert rest[..n] == was[start..end] && rest[n..] == was[end..];
  }

  /** Only bindings that are not live may have gone. */
  ghost predicate SameLive(before: Bindings, after: Bindings, now: int) {
    && (forall k :: LiveAt(after, k, now) <==> LiveAt(before, k, now))
    && (forall k | k in after :: k in before && after[k] == before[k])
  }

  lemma SameGroup(before: Bindings, after: Bindings, now: int, group: seq<Route>, session: string, access: int)
    requires SameLive(before, after, now) && group != []
    ensures ReorderedGroup(group, after, session, access, now) == ReorderedGroup(group, before, session, access, now)
  {
    hide Preferred;
    assert LiveAt(after, KeyFor(group[0], session, access), now) <==> LiveAt(before, KeyFor(group[0], session, access), now);
  }

  // ---- from the database to the loop ----

  /** The routes that can serve now: not blocked, and their account and model are available. */
  function Resolved(templates: seq<Route>, available: Route -> bool): seq<Route> {
    Filter((r: Route) => !r.blocked && available(r), templates)
  }

  /** Whatever a load reads, what is available, which account is bound and which routes fit a restored
      history: the loop is given its routes grouped by candidate. */
  lemma {:induction false} ServedGrouped(
      r: Requirements, rows: seq<Rows>, available: Route -> bool,
      b: Bindings, session: string, access: int, now: int, compatible: Route -> bool)
    requires Program(RoutesFor(r), rows).Answered?
    requires |rows| >= 2 && rows[1].CandidateRows? ==> DistinctIDs(rows[1].candidates)
    ensures Grouped(Filter(compatible,
      Reordered(Resolved(Program(RoutesFor(r), rows).answer.routes, available), b, session, access, now)))
  {
    hide Program, Filter, Reordered, Grouped, DistinctIDs;
    LoadedGrouped(r, rows);
    var templates := Program(RoutesFor(r), rows).answer.routes;
    FilterGrouped((r: Route) => !r.blocked && available(r), templates);
    ReorderedGrouped(Resolved(templates, available), b, session, access, now);
    FilterGrouped(compatible, Reordered(Resolved(templates, available), b, session, access, now));
  }
}
