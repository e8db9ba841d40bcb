/** Loading the routes of a request, the enabled model names or an access key from the database. A load
    is a program: from the rows read so far it either asks the next query or gives its answer, so other
    statements can run between its queries. */
module RouteLoading {
  import opened Wrappers
  import opened Routes

  // ---- rows ----

  datatype ProtocolEntry = ProtocolEntry(protocol: string, stream: bool, tools: bool, parallelTools: bool, efforts: set<string>)

  datatype Candidate = Candidate(id: int, revision: int, enabled: bool, available: bool, provider: int, protocols: seq<ProtocolEntry>)

  datatype ProviderKind = Plain | CodexOAuth | Google

  datatype Provider = Provider(id: int, enabled: bool, kind: ProviderKind)

  datatype Key = Key(id: int, lastUsed: Option<int>)

  datatype AccessKey = AccessKey(id: int, secret: string, enabled: bool, expiresAt: Option<int>, lastUsed: Option<int>)

  datatype Query =
    | ModelByName(name: string) | CandidatesOf(model: int) | ProtocolsOf(candidates: seq<int>)
    | ProviderByID(provider: int) | EndpointsOf(provider: int) | KeysOf(provider: int)
    | ModelNames
    | AccessKeyBySecret(secret: string)

  datatype Rows =
    | ModelRow(model: Option<(int, bool)>)
    | CandidateRows(candidates: seq<Candidate>) // their protocols are read separately
    | ProtocolRows(protocols: seq<(int, ProtocolEntry)>)
    | ProviderRow(provider: Option<Provider>)
    | EndpointRows(endpoints: map<string, string>)
    | KeyRows(keys: seq<Key>)
    | NameRows(names: seq<string>)
    | AccessRow(key: Option<AccessKey>)

  // ---- what is loaded ----

  datatype Requirements = Requirements(
    model: string, protocol: string, stream: bool, tools: bool, parallelTools: bool, effort: string,
    candidate: int, upstream: string)

  datatype Wanted = RoutesFor(requirements: Requirements) | Names | Access(secret: string)

  datatype Answer = RouteList(routes: seq<Route>) | NameList(names: seq<string>) | OneKey(key: AccessKey)

  datatype Step = Ask(query: Query) | Answered(answer: Answer) | Failed

  // ---- choosing ----

  /** The entry can serve the request: it is the asked upstream protocol and misses no feature. */
  predicate Eligible(p: ProtocolEntry, r: Requirements) {
    && (r.upstream != "" ==> p.protocol == r.upstream)
    && (r.stream ==> p.stream) && (r.tools ==> p.tools) && (r.parallelTools ==> p.parallelTools)
    && (r.effort != "" ==> r.effort in p.efforts)
  }

  function Eligibles(ps: seq<ProtocolEntry>, r: Requirements): (out: seq<ProtocolEntry>)
    ensures forall p :: p in out <==> p in ps && Eligible(p, r)
  {
    if ps == [] then [] else (if Eligible(ps[0], r) then [ps[0]] else []) + Eligibles(ps[1..], r)
  }

  lemma EligiblesFrom(ps: seq<ProtocolEntry>, r: Requirements, i: nat)
    requires i < |ps|
    ensures Eligibles(ps[i..], r) == (if Eligible(ps[i], r) then [ps[i]] else []) + Eligibles(ps[i + 1..], r)
  {
    assert ps[i..][1..] == ps[i + 1..];
  }

  method FilterEligible(ps: seq<ProtocolEntry>, r: Requirements) returns (eligible: seq<ProtocolEntry>)
    ensures eligible == Eligibles(ps, r)
  {
    hide Eligible, Eligibles;
    eligible := [];
    assert ps[0..] == ps;
    for i := 0 to |ps|
      invariant eligible + Eligibles(ps[i..], r) == Eligibles(ps, r)
    {
      EligiblesFrom(ps, r, i);
      ghost var rest := Eligibles(ps[i + 1..], r);
      if Eligible(ps[i], r) {
        assert (eligible + [ps[i]]) + rest == eligible + ([ps[i]] + rest);
        eligible := eligible + [ps[i]];
      } else {
        assert [] + rest == rest;
      }
    }
    NoneEligible(ps[|ps|..], r);
  }

  lemma NoneEligible(ps: seq<ProtocolEntry>, r: Requirements)
    requires ps == []
    ensures Eligibles(ps, r) == []
  {
  }

  /** The request's own protocol when it is eligible, the first eligible one otherwise. */
  method ChooseProtocol(ps: seq<ProtocolEntry>, r: Requirements) returns (chosen: Option<ProtocolEntry>)
    ensures chosen == Chosen(Eligibles(ps, r), r)
  {
    hide Eligible, Eligibles, Own;
    var eligible := FilterEligible(ps, r);
    for i := 0 to |eligible|
      invariant forall j | 0 <= j < i :: eligible[j].protocol != r.protocol
    {
      if eligible[i].protocol == r.protocol {
        FirstOwn(eligible, r, i);
        return Some(eligible[i]);
      }
    }
    NoOwn(eligible, r, |eligible|);
    chosen := if |eligible| > 0 then Some(eligible[0]) else None;
  }

  function Own(es: seq<ProtocolEntry>, r: Requirements): Option<ProtocolEntry> {
    if es == [] then None else if es[0].protocol == r.protocol then Some(es[0]) else Own(es[1..], r)
  }

  function Chosen(es: seq<ProtocolEntry>, r: Requirements): Option<ProtocolEntry> {
    if Own(es, r).Some? then Own(es, r) else if es == [] then None else Some(es[0])
  }

  lemma {:induction false} FirstOwn(es: seq<ProtocolEntry>, r: Requirements, i: nat)
    requires i < |es| && es[i].protocol == r.protocol && forall j | 0 <= j < i :: es[j].protocol != r.protocol
    ensures Own(es, r) == Some(es[i])
  {
    if i > 0 { FirstOwn(es[1..], r, i - 1); }
  }

  lemma {:induction false} NoOwn(es: seq<ProtocolEntry>, r: Requirements, n: nat)
    requires n == |es| && forall j | 0 <= j < n :: es[j].protocol != r.protocol
    ensures Own(es, r) == None
  {
    if n > 0 { NoOwn(es[1..], r, n - 1); }
  }

  /** What is chosen is offered and eligible; the request's own protocol wins when it is; and nothing is
      chosen only when nothing is eligible. */
  lemma {:induction false} ChosenBest(ps: seq<ProtocolEntry>, r: Requirements)
    ensures var c := Chosen(Eligibles(ps, r), r);
      && (c == None <==> forall p | p in ps :: !Eligible(p, r))
      && (c.Some? ==> c.value in ps && Eligible(c.value, r))
      && (c.Some? && (exists p :: p in ps && Eligible(p, r) && p.protocol == r.protocol) ==> c.value.protocol == r.protocol)
  {
    var es := Eligibles(ps, r);
    OwnFound(es, r);
    SomeIn(es);
    if exists p :: p in ps && Eligible(p, r) {
      var p :| p in ps && Eligible(p, r);
      assert p in es;
    }
  }

  lemma SomeIn(es: seq<ProtocolEntry>)
    ensures es == [] || exists p :: p in es
  {
    if es != [] { assert es[0] in es; }
  }

  lemma {:induction false} OwnFound(es: seq<ProtocolEntry>, r: Requirements)
    ensures Own(es, r).Some? <==> exists p :: p in es && p.protocol == r.protocol
    ensures Own(es, r).Some? ==> Own(es, r).value in es && Own(es, r).value.protocol == r.protocol
  {
    if es != [] && es[0].protocol != r.protocol { OwnFound(es[1..], r); }
  }

  // ---- keys by usage ----

  /** Never used before used, then the longest unused first. */
  predicate UsedBefore(a: Key, b: Key) {
    b.lastUsed.Some? && (a.lastUsed == None || a.lastUsed.value < b.lastUsed.value)
  }

  function Insert(k: Key, sorted: seq<Key>): seq<Key> {
    if sorted == [] || !UsedBefore(sorted[0], k) then [k] + sorted else [sorted[0]] + Insert(k, sorted[1..])
  }

  /** Stable order by last use; keys used at the same time keep their position. */
  function ByUsage(keys: seq<Key>): seq<Key> {
    if keys == [] then [] else Insert(keys[0], ByUsage(keys[1..]))
  }

  predicate UsageOrdered(keys: seq<Key>) {
    forall i, j | 0 <= i < j < |keys| :: !UsedBefore(keys[j], keys[i])
  }

  lemma {:induction false} InsertOrdered(k: Key, sorted: seq<Key>)
    requires UsageOrdered(sorted)
    ensures UsageOrdered(Insert(k, sorted)) && multiset(Insert(k, sorted)) == multiset(sorted) + multiset{k}
  {
    if sorted == [] || !UsedBefore(sorted[0], k) {
      assert forall j | 0 <= j < |sorted| :: !UsedBefore(sorted[j], k);
    } else {
      InsertOrdered(k, sorted[1..]);
      InsertKeeps(k, sorted[1..], sorted[0]);
      assert sorted == [sorted[0]] + sorted[1..];
    }
  }

  lemma {:induction false} InsertKeeps(k: Key, sorted: seq<Key>, first: Key)
    requires !UsedBefore(k, first) && forall j | 0 <= j < |sorted| :: !UsedBefore(sorted[j], first)
    ensures forall j | 0 <= j < |Insert(k, sorted)| :: !UsedBefore(Insert(k, sorted)[j], first)
  {
    if sorted != [] && UsedBefore(sorted[0], k) { InsertKeeps(k, sorted[1..], first); }
  }

  lemma {:induction false} ByUsageOrdered(keys: seq<Key>)
    ensures UsageOrdered(ByUsage(keys)) && multiset(ByUsage(keys)) == multiset(keys)
  {
    if keys != [] {
      ByUsageOrdered(keys[1..]);
      InsertOrdered(keys[0], ByUsage(keys[1..]));
      assert keys == [keys[0]] + keys[1..];
    }
  }

  function UsedAt(keys: seq<Key>, when: Option<int>): seq<Key> {
    if keys == [] then [] else (if keys[0].lastUsed == when then [keys[0]] else []) + UsedAt(keys[1..], when)
  }

  lemma {:induction false} InsertStable(k: Key, sorted: seq<Key>, when: Option<int>)
    ensures UsedAt(Insert(k, sorted), when) == (if k.lastUsed == when then [k] else []) + UsedAt(sorted, when)
  {
    if sorted != [] && UsedBefore(sorted[0], k) {
      InsertStable(k, sorted[1..], when);
      var rest := Insert(k, sorted[1..]);
      assert ([sorted[0]] + rest)[1..] == rest;
    } else {
      assert ([k] + sorted)[1..] == sorted;
    }
  }

  /** Keys last used at the same time keep their order. */
  lemma {:induction false} ByUsageStable(keys: seq<Key>, when: Option<int>)
    ensures UsedAt(ByUsage(keys), when) == UsedAt(keys, when)
  {
    if keys != [] {
      ByUsageStable(keys[1..], when);
      InsertStable(keys[0], ByUsage(keys[1..]), when);
    }
  }

  // ---- the programs ----

  function Blocked(c: Candidate): Route {
    Route(c.id, c.revision, "", 0, Direct(false), true)
  }

  function KindOf(kind: ProviderKind, p: ProtocolEntry, r: Requirements): RouteKind {
    match kind
    case Plain => Direct(p.protocol == r.protocol)
    case CodexOAuth => Codex
    case Google => AntigravityOAuth
  }

  function KeyRoutes(c: Candidate, p: ProtocolEntry, kind: RouteKind, keys: seq<Key>): (out: seq<Route>)
    ensures forall t | t in out :: t.candidate == c.id
  {
    if keys == [] then []
    else [Route(c.id, c.revision, p.protocol, keys[0].id, kind, false)] + KeyRoutes(c, p, kind, keys[1..])
  }

  /** The routes of one candidate once its provider is known. */
  function CandidateRoutes(c: Candidate, p: ProtocolEntry, r: Requirements, provider: Provider, endpoints: map<string, string>, keys: seq<Key>): (out: seq<Route>)
    ensures forall t | t in out :: t.candidate == c.id
  {
    if !provider.enabled || p.protocol !in endpoints || endpoints[p.protocol] == "" || keys == [] then [Blocked(c)]
    else KeyRoutes(c, p, KindOf(provider.kind, p, r), ByUsage(keys))
  }

  /** Walks the candidates with the rows that were read after the candidate list. */
  function Walk(cs: seq<Candidate>, r: Requirements, rows: seq<Rows>, done: seq<Route>): (s: Step)
    ensures s.Answered? ==> s.answer.RouteList?
    decreases |cs|
  {
    if cs == [] then Answered(RouteList(done))
    else
      var c := cs[0];
      var p := Chosen(Eligibles(c.protocols, r), r);
      if r.candidate != 0 && c.id != r.candidate then Walk(cs[1..], r, rows, done)
      else if !c.enabled || !c.available || p == None then Walk(cs[1..], r, rows, done + [Blocked(c)])
      else if rows == [] then Ask(ProviderByID(c.provider))
      else if !rows[0].ProviderRow? || rows[0].provider == None then Failed
      else if |rows| == 1 then Ask(EndpointsOf(c.provider))
      else if !rows[1].EndpointRows? then Failed
      else if |rows| == 2 then Ask(KeysOf(c.provider))
      else if !rows[2].KeyRows? then Failed
      else Walk(cs[1..], r, rows[3..], done + CandidateRoutes(c, p.value, r, rows[0].provider.value, rows[1].endpoints, rows[2].keys))
  }

  function EntriesOf(id: int, entries: seq<(int, ProtocolEntry)>): seq<ProtocolEntry> {
    if entries == [] then []
    else (if entries[0].0 == id then [entries[0].1] else []) + EntriesOf(id, entries[1..])
  }

  /** The candidates with the protocols that were read for them. */
  function Hydrated(cs: seq<Candidate>, entries: seq<(int, ProtocolEntry)>): (out: seq<Candidate>)
    ensures |out| == |cs| && forall i | 0 <= i < |cs| :: out[i] == cs[i].(protocols := EntriesOf(cs[i].id, entries))
  {
    seq(|cs|, i requires 0 <= i < |cs| => cs[i].(protocols := EntriesOf(cs[i].id, entries)))
  }

  function IDs(cs: seq<Candidate>): seq<int> {
    seq(|cs|, i requires 0 <= i < |cs| => cs[i].id)
  }

  function Program(w: Wanted, rows: seq<Rows>): (s: Step)
    ensures s.Answered? ==> s.answer.RouteList? == w.RoutesFor? && s.answer.NameList? == w.Names?
  {
    match w
    case RoutesFor(r) =>
      if rows == [] then Ask(ModelByName(r.model))
      else if !rows[0].ModelRow? || rows[0].model == None then Failed
      else if !rows[0].model.value.1 then Answered(RouteList([Route(0, 0, "", 0, Direct(false), true)]))
      else if |rows| == 1 then Ask(CandidatesOf(rows[0].model.value.0))
      else if !rows[1].CandidateRows? then Failed
      else if rows[1].candidates == [] then Answered(RouteList([]))
      else if |rows| == 2 then Ask(ProtocolsOf(IDs(rows[1].candidates)))
      else if !rows[2].ProtocolRows? then Failed
      else Walk(Hydrated(rows[1].candidates, rows[2].protocols), r, rows[3..], [])
    case Names =>
      if rows == [] then Ask(ModelNames)
      else if rows[0].NameRows? then Answered(NameList(rows[0].names)) else Failed
    case Access(secret) =>
      if rows == [] then Ask(AccessKeyBySecret(secret))
      else if rows[0].AccessRow? && rows[0].key.Some? then Answered(OneKey(rows[0].key.value)) else Failed
  }

  // ---- the routes of one candidate stand together ----

  predicate DistinctIDs(cs: seq<Candidate>) {
    forall i, j | 0 <= i < j < |cs| :: cs[i].id != cs[j].id
  }

  lemma GroupedMore(a: seq<Route>, b: seq<Route>, id: int)
    requires Grouped(a) && (forall t | t in b :: t.candidate == id) && (forall t | t in a :: t.candidate != id)
    ensures Grouped(a + b)
  {
    var s := a + b;
    forall i, j, k | 0 <= i < j < k < |s| && s[i].candidate == s[k].candidate ensures s[j].candidate == s[i].candidate {
      assert k < |a| ==> s[k] in a;
      assert i < |a| ==> s[i] in a;
      assert k >= |a| ==> s[k] in b;
      assert j >= |a| ==> s[j] in b;
    }
  }

  lemma {:induction false} WalkGrouped(cs: seq<Candidate>, r: Requirements, rows: seq<Rows>, done: seq<Route>)
    requires DistinctIDs(cs) && Grouped(done)
    requires forall t, i | t in done && 0 <= i < |cs| :: t.candidate != cs[i].id
    ensures Walk(cs, r, rows, done).Answered? ==> Grouped(Walk(cs, r, rows, done).answer.routes)
    decreases |cs|
  {
    hide Eligibles, Chosen, CandidateRoutes, Grouped;
    if cs != [] {
      var c := cs[0];
      var p := Chosen(Eligibles(c.protocols, r), r);
      if r.candidate != 0 && c.id != r.candidate {
        WalkGrouped(cs[1..], r, rows, done);
      } else if !c.enabled || !c.available || p == None {
        GroupedMore(done, [Blocked(c)], c.id);
        WalkGrouped(cs[1..], r, rows, done + [Blocked(c)]);
      } else if |rows| >= 3 && rows[0].ProviderRow? && rows[0].provider.Some? && rows[1].EndpointRows? && rows[2].KeyRows? {
        var more := CandidateRoutes(c, p.value, r, rows[0].provider.value, rows[1].endpoints, rows[2].keys);
        GroupedMore(done, more, c.id);
        WalkGrouped(cs[1..], r, rows[3..], done + more);
      }
    }
  }

  /** Whatever rows a route load reads, as long as candidate IDs are distinct its answer is grouped. */
  lemma LoadedGrouped(r: Requirements, rows: seq<Rows>)
    requires Program(RoutesFor(r), rows).Answered?
    requires |rows| >= 2 && rows[1].CandidateRows? ==> DistinctIDs(rows[1].candidates)
    ensures Grouped(Program(RoutesFor(r), rows).answer.routes)
  {
    if |rows| >= 3 && rows[0].ModelRow? && rows[0].model.Some? && rows[0].model.value.1 && rows[1].CandidateRows? && rows[2].ProtocolRows? {
      WalkGrouped(Hydrated(rows[1].candidates, rows[2].protocols), r, rows[3..], []);
    }
  }

  /** An open route belongs to an enabled, available candidate and uses the protocol chosen for it. */
  ghost predicate Serves(t: Route, cs: seq<Candidate>, r: Requirements) {
    t.blocked || exists c :: c in cs && ServedBy(t, c, r)
  }

  predicate ServedBy(t: Route, c: Candidate, r: Requirements) {
    && t.candidate == c.id && c.enabled && c.available && (r.candidate == 0 || r.candidate == c.id)
    && Chosen(Eligibles(c.protocols, r), r).Some? && Chosen(Eligibles(c.protocols, r), r).value.protocol == t.protocol
  }

  lemma {:induction false} KeyRoutesServe(c: Candidate, p: ProtocolEntry, kind: RouteKind, keys: seq<Key>)
    ensures forall t | t in KeyRoutes(c, p, kind, keys) :: t.protocol == p.protocol && t.candidate == c.id
  {
    if keys != [] { KeyRoutesServe(c, p, kind, keys[1..]); }
  }

  lemma CandidateServes(cs: seq<Candidate>, c: Candidate, p: ProtocolEntry, r: Requirements, provider: Provider, endpoints: map<string, string>, keys: seq<Key>)
    requires c in cs && c.enabled && c.available && (r.candidate == 0 || r.candidate == c.id)
    requires Chosen(Eligibles(c.protocols, r), r) == Some(p)
    ensures forall t | t in CandidateRoutes(c, p, r, provider, endpoints, keys) :: Serves(t, cs, r)
  {
    hide Eligibles, Chosen;
    KeyRoutesServe(c, p, KindOf(provider.kind, p, r), ByUsage(keys));
  }

  lemma {:induction false} WalkServes(all: seq<Candidate>, cs: seq<Candidate>, r: Requirements, rows: seq<Rows>, done: seq<Route>)
    requires (forall c | c in cs :: c in all) && forall t | t in done :: Serves(t, all, r)
    ensures Walk(cs, r, rows, done).Answered? ==> forall t | t in Walk(cs, r, rows, done).answer.routes :: Serves(t, all, r)
    decreases |cs|
  {
    hide Eligibles, Chosen, CandidateRoutes;
    if cs != [] {
      var c := cs[0];
      var p := Chosen(Eligibles(c.protocols, r), r);
      if r.candidate != 0 && c.id != r.candidate {
        WalkServes(all, cs[1..], r, rows, done);
      } else if !c.enabled || !c.available || p == None {
        WalkServes(all, cs[1..], r, rows, done + [Blocked(c)]);
      } else if |rows| >= 3 && rows[0].ProviderRow? && rows[0].provider.Some? && rows[1].EndpointRows? && rows[2].KeyRows? {
        CandidateServes(all, c, p.value, r, rows[0].provider.value, rows[1].endpoints, rows[2].keys);
        WalkServes(all, cs[1..], r, rows[3..], done + CandidateRoutes(c, p.value, r, rows[0].provider.value, rows[1].endpoints, rows[2].keys));
      }
    }
  }

  /** The candidates a route load has read, none before both queries were answered. */
  function Listed(rows: seq<Rows>): seq<Candidate> {
    if |rows| >= 3 && rows[1].CandidateRows? && rows[2].ProtocolRows? then Hydrated(rows[1].candidates, rows[2].protocols) else []
  }

  /** Every open route a load answers with can serve the request. */
  lemma LoadedServes(r: Requirements, rows: seq<Rows>)
    requires Program(RoutesFor(r), rows).Answered?
    ensures forall t | t in Program(RoutesFor(r), rows).answer.routes :: Serves(t, Listed(rows), r)
  {
    if |rows| >= 3 && rows[0].ModelRow? && rows[0].model.Some? && rows[0].model.value.1 && rows[1].CandidateRows? && rows[2].ProtocolRows? {
      WalkServes(Listed(rows), Listed(rows), r, rows[3..], []);
    }
  }

  // ---- what a load answers, said about the rows alone ----

  predicate OwnEligible(p: ProtocolEntry, r: Requirements) {
    Eligible(p, r) && p.protocol == r.protocol
  }

  /** The entry a candidate is called with: the first eligible one of the request's own protocol, or
      without any the first eligible one. */
  predicate ChosenAt(ps: seq<ProtocolEntry>, r: Requirements, j: nat) {
    && j < |ps| && Eligible(ps[j], r) && (forall k | 0 <= k < j :: !OwnEligible(ps[k], r))
    && (ps[j].protocol == r.protocol
        || ((forall k | 0 <= k < |ps| :: !OwnEligible(ps[k], r)) && forall k | 0 <= k < j :: !Eligible(ps[k], r)))
  }

  predicate IsChosen(ps: seq<ProtocolEntry>, r: Requirements, p: ProtocolEntry) {
    exists j | 0 <= j < |ps| :: ChosenAt(ps, r, j) && ps[j] == p
  }

  /** The rows of a candidate's provider are read. */
  predicate Asked(c: Candidate, r: Requirements) {
    (r.candidate == 0 || c.id == r.candidate) && c.enabled && c.available && exists p :: p in c.protocols && Eligible(p, r)
  }

  predicate Closed(c: Candidate, seg: seq<Route>) {
    |seg| == 1 && seg[0].blocked && seg[0].candidate == c.id && seg[0].revision == c.revision
  }

  /** A stable order of the keys by last use. */
  ghost predicate InUsageOrder(sorted: seq<Key>, keys: seq<Key>) {
    && |sorted| == |keys| && multiset(sorted) == multiset(keys) && UsageOrdered(sorted)
    && forall when :: UsedAt(sorted, when) == UsedAt(keys, when)
  }

  /** One open route for each key, in usage order, with the kind of the provider. */
  ghost predicate Opened(c: Candidate, r: Requirements, p: ProtocolEntry, kind: ProviderKind, keys: seq<Key>, seg: seq<Route>) {
    exists sorted :: InUsageOrder(sorted, keys) && Lists(c, r, p, kind, sorted, seg)
  }

  predicate Lists(c: Candidate, r: Requirements, p: ProtocolEntry, kind: ProviderKind, sorted: seq<Key>, seg: seq<Route>) {
    |seg| == |sorted| && forall j | 0 <= j < |seg| ::
      RightKind(seg[j].kind, kind, p.protocol == r.protocol)
      && seg[j] == Route(c.id, c.revision, p.protocol, sorted[j].id, seg[j].kind, false)
  }

  /** Generic providers are called directly and OAuth ones by their own means. */
  predicate RightKind(k: RouteKind, kind: ProviderKind, own: bool) {
    && (kind.Plain? ==> k == Direct(own)) && (kind.CodexOAuth? ==> k == Codex) && (kind.Google? ==> k == AntigravityOAuth)
  }

  ghost predicate Served(c: Candidate, r: Requirements, p: ProtocolEntry, provider: Provider,
                         endpoints: map<string, string>, keys: seq<Key>, seg: seq<Route>) {
    if provider.enabled && p.protocol in endpoints && endpoints[p.protocol] != "" && keys != []
    then Opened(c, r, p, provider.kind, keys, seg)
    else Closed(c, seg)
  }

  /** The routes of one candidate: none if another one is wanted; open ones if it can be asked, its
      provider is enabled, has an endpoint for the chosen protocol and has keys; otherwise a blocked one. */
  ghost predicate Segment(c: Candidate, r: Requirements, provider: Rows, endpoints: Rows, keys: Rows, seg: seq<Route>) {
    if r.candidate != 0 && c.id != r.candidate then seg == []
    else if !Asked(c, r) then Closed(c, seg)
    else
      && provider.ProviderRow? && provider.provider.Some? && endpoints.EndpointRows? && keys.KeyRows?
      && exists p :: IsChosen(c.protocols, r, p) && Served(c, r, p, provider.provider.value, endpoints.endpoints, keys.keys, seg)
  }

  /** A segment for each candidate in order; each candidate that is asked about has its own three rows. */
  ghost predicate Segments(cs: seq<Candidate>, r: Requirements, rows: seq<Rows>, segs: seq<seq<Route>>)
    decreases |cs|
  {
    if cs == [] then segs == []
    else
      && segs != []
      && if Asked(cs[0], r) then
           |rows| >= 3 && Segment(cs[0], r, rows[0], rows[1], rows[2], segs[0]) && Segments(cs[1..], r, rows[3..], segs[1..])
         else
           Segment(cs[0], r, NameRows([]), NameRows([]), NameRows([]), segs[0]) && Segments(cs[1..], r, rows, segs[1..])
  }

  function Joined(segs: seq<seq<Route>>): seq<Route> {
    if segs == [] then [] else segs[0] + Joined(segs[1..])
  }

  lemma {:induction false} ChosenFirst(ps: seq<ProtocolEntry>, r: Requirements)
    ensures var c := Chosen(Eligibles(ps, r), r);
      if c == None then forall p | p in ps :: !Eligible(p, r) else IsChosen(ps, r, c.value)
  {
    ChosenBest(ps, r);
    var c := Chosen(Eligibles(ps, r), r);
    if c.Some? {
      var j := FirstEligible(ps, r);
      OwnFound(Eligibles(ps, r), r);
      if Own(Eligibles(ps, r), r) == None {
        forall k | 0 <= k < |ps| ensures !OwnEligible(ps[k], r) { assert ps[k] in ps; }
        assert ChosenAt(ps, r, j);
      } else {
        var i := FirstOwnEligible(ps, r);
        assert ChosenAt(ps, r, i);
      }
    }
  }

  lemma {:induction false} FirstEligible(ps: seq<ProtocolEntry>, r: Requirements) returns (j: nat)
    requires Eligibles(ps, r) != []
    ensures j < |ps| && Eligible(ps[j], r) && Eligibles(ps, r)[0] == ps[j] && forall k | 0 <= k < j :: !Eligible(ps[k], r)
  {
    if Eligible(ps[0], r) { j := 0; } else { j := FirstEligible(ps[1..], r); j := j + 1; }
  }

  lemma {:induction false} FirstOwnEligible(ps: seq<ProtocolEntry>, r: Requirements) returns (j: nat)
    requires Own(Eligibles(ps, r), r).Some?
    ensures j < |ps| && OwnEligible(ps[j], r) && Own(Eligibles(ps, r), r) == Some(ps[j]) && forall k | 0 <= k < j :: !OwnEligible(ps[k], r)
  {
    if OwnEligible(ps[0], r) {
      j := 0;
    } else {
      var es := Eligibles(ps, r);
      assert Eligible(ps[0], r) ==> es[1..] == Eligibles(ps[1..], r);
      assert !Eligible(ps[0], r) ==> es == Eligibles(ps[1..], r);
      j := FirstOwnEligible(ps[1..], r);
      j := j + 1;
    }
  }

  lemma {:induction false} KeyRoutesList(c: Candidate, r: Requirements, p: ProtocolEntry, kind: ProviderKind, keys: seq<Key>)
    ensures Lists(c, r, p, kind, keys, KeyRoutes(c, p, KindOf(kind, p, r), keys))
  {
    if keys != [] { KeyRoutesList(c, r, p, kind, keys[1..]); }
  }

  lemma CandidateSegment(c: Candidate, r: Requirements, p: ProtocolEntry, provider: Provider, endpoints: map<string, string>, keys: seq<Key>)
    ensures Served(c, r, p, provider, endpoints, keys, CandidateRoutes(c, p, r, provider, endpoints, keys))
  {
    ByUsageOrdered(keys);
    forall when ensures UsedAt(ByUsage(keys), when) == UsedAt(keys, when) { ByUsageStable(keys, when); }
    assert |multiset(keys)| == |keys| && |multiset(ByUsage(keys))| == |ByUsage(keys)|;
    KeyRoutesList(c, r, p, provider.kind, ByUsage(keys));
    hide ByUsage, UsedAt, UsageOrdered, KeyRoutes;
    assert InUsageOrder(ByUsage(keys), keys);
  }

  /** The routes of the first candidate, once its rows are read. */
  function FirstRoutes(c: Candidate, r: Requirements, rows: seq<Rows>): seq<Route> {
    if r.candidate != 0 && c.id != r.candidate then []
    else if !Asked(c, r) then [Blocked(c)]
    else if |rows| >= 3 && rows[0].ProviderRow? && rows[0].provider.Some? && rows[1].EndpointRows? && rows[2].KeyRows?
            && Chosen(Eligibles(c.protocols, r), r).Some? then
      CandidateRoutes(c, Chosen(Eligibles(c.protocols, r), r).value, r, rows[0].provider.value, rows[1].endpoints, rows[2].keys)
    else []
  }

  lemma WalkOn(cs: seq<Candidate>, r: Requirements, rows: seq<Rows>, done: seq<Route>)
    requires cs != [] && (Asked(cs[0], r) ==> |rows| >= 3) && !Walk(cs, r, rows, done).Failed?
    ensures Walk(cs, r, rows, done)
         == Walk(cs[1..], r, if Asked(cs[0], r) then rows[3..] else rows, done + FirstRoutes(cs[0], r, rows))
  {
    AskedIff(cs[0], r);
    hide Chosen, Eligibles, CandidateRoutes, Asked;
    assert done + [] == done;
  }

  /** One step of the walk: the routes of the first candidate, and its rows if it is asked about. */
  lemma WalkStep(cs: seq<Candidate>, r: Requirements, rows: seq<Rows>, done: seq<Route>)
    requires cs != [] && Walk(cs, r, rows, done).Answered?
    ensures var seg := FirstRoutes(cs[0], r, rows);
      if Asked(cs[0], r) then
        |rows| >= 3 && Segment(cs[0], r, rows[0], rows[1], rows[2], seg) && Walk(cs, r, rows, done) == Walk(cs[1..], r, rows[3..], done + seg)
      else
        Segment(cs[0], r, NameRows([]), NameRows([]), NameRows([]), seg) && Walk(cs, r, rows, done) == Walk(cs[1..], r, rows, done + seg)
  {
    var c := cs[0];
    ChosenFirst(c.protocols, r);
    AskedIff(c, r);
    hide Chosen, Eligibles, CandidateRoutes, Served, IsChosen, Asked;
    assert done + [] == done;
    if Asked(c, r) {
      var p := Chosen(Eligibles(c.protocols, r), r).value;
      CandidateSegment(c, r, p, rows[0].provider.value, rows[1].endpoints, rows[2].keys);
    }
  }

  lemma {:induction false} WalkSegments(cs: seq<Candidate>, r: Requirements, rows: seq<Rows>, done: seq<Route>) returns (segs: seq<seq<Route>>)
    requires Walk(cs, r, rows, done).Answered?
    ensures Segments(cs, r, rows, segs) && Walk(cs, r, rows, done).answer.routes == done + Joined(segs)
    decreases |cs|
  {
    hide Walk, Segment, Asked, Segments, Joined, FirstRoutes;
    if cs == [] {
      WalkEnd(r, rows, done);
      return [];
    }
    WalkStep(cs, r, rows, done);
    var seg := FirstRoutes(cs[0], r, rows);
    var tail := if Asked(cs[0], r) then rows[3..] else rows;
    var rest := WalkSegments(cs[1..], r, tail, done + seg);
    SegmentsMore(cs, r, rows, seg, rest);
    segs := [seg] + rest;
    Appended(done, seg, Joined(rest));
  }

  lemma WalkEnd(r: Requirements, rows: seq<Rows>, done: seq<Route>)
    ensures Segments([], r, rows, []) && Walk([], r, rows, done) == Answered(RouteList(done + Joined([])))
  {
    assert done + [] == done;
  }

  lemma JoinedMore(seg: seq<Route>, rest: seq<seq<Route>>)
    ensures Joined([seg] + rest) == seg + Joined(rest)
  {
    assert ([seg] + rest)[1..] == rest;
  }

  lemma Appended(a: seq<Route>, b: seq<Route>, c: seq<Route>)
    ensures a + b + c == a + (b + c)
  {
  }

  lemma SegmentsMore(cs: seq<Candidate>, r: Requirements, rows: seq<Rows>, seg: seq<Route>, rest: seq<seq<Route>>)
    requires cs != [] && (Asked(cs[0], r) ==> |rows| >= 3)
    requires if Asked(cs[0], r) then Segment(cs[0], r, rows[0], rows[1], rows[2], seg)
             else Segment(cs[0], r, NameRows([]), NameRows([]), NameRows([]), seg)
    requires Segments(cs[1..], r, if Asked(cs[0], r) then rows[3..] else rows, rest)
    ensures Segments(cs, r, rows, [seg] + rest) && Joined([seg] + rest) == seg + Joined(rest)
  {
    hide Segment, Asked;
    assert ([seg] + rest)[1..] == rest;
  }

  lemma AskedIff(c: Candidate, r: Requirements)
    ensures Asked(c, r) <==>
      (r.candidate == 0 || c.id == r.candidate) && c.enabled && c.available && Chosen(Eligibles(c.protocols, r), r).Some?
  {
    ChosenBest(c.protocols, r);
  }

  /** What the rows of a load say its answer is. */
  ghost predicate AnswerOf(r: Requirements, rows: seq<Rows>, routes: seq<Route>) {
    && rows != [] && rows[0].ModelRow? && rows[0].model.Some?
    && if !rows[0].model.value.1 then |routes| == 1 && routes[0].blocked
       else
         && |rows| >= 2 && rows[1].CandidateRows?
         && (rows[1].candidates == [] ==> routes == [])
         && (rows[1].candidates != [] ==>
               |rows| >= 3 && rows[2].ProtocolRows?
               && exists segs :: Segments(Listed(rows), r, rows[3..], segs) && routes == Joined(segs))
  }

  /** Main result: the answer of a route load is, candidate by candidate in row order, exactly the open
      routes its rows allow, in usage order, and a blocked one for each candidate that has none. */
  lemma LoadedExactly(r: Requirements, rows: seq<Rows>)
    requires Program(RoutesFor(r), rows).Answered?
    ensures AnswerOf(r, rows, Program(RoutesFor(r), rows).answer.routes)
  {
    hide Walk;
    if rows[0].model.value.1 && rows[1].candidates != [] {
      var segs := WalkSegments(Listed(rows), r, rows[3..], []);
      assert [] + Joined(segs) == Joined(segs);
    }
  }
}
