/** The versioned configuration cache under concurrency. Loaders read the database query by query;
    writers first commit and then, in a second step, invalidate. Each step is one statement or one lock
    region, and the steps of different goroutines interleave freely. */
module ConfigCache {
  import opened Wrappers
  import opened Routes
  import opened RouteLoading

  type Database = Query -> Rows

  /** What an invalidation clears: everything, or only the route lists. */
  datatype Scope = Config | RoutesOnly

  datatype Loader = Loader(wanted: Wanted, version: nat, rows: seq<Rows>)

  datatype State = State(
    db: Database, version: nat, cache: map<Wanted, Answer>,
    loaders: map<int, Loader>, // running loads by goroutine
    pending: map<int, Scope>)  // writers that have committed and not yet invalidated

  datatype Action =
    | Begin(id: int, wanted: Wanted)
    | Read(id: int)
    | Store(id: int)
    | Commit(id: int, db: Database, scope: Scope)
    | Invalidate(id: int)
    | Touch(secret: string, when: int)

  // ---- which writers matter to which answers ----

  /** An access key's last use may lag behind; it is not part of what has to be current. */
  function Essential(rows: Rows): Rows {
    if rows.AccessRow? && rows.key.Some? then AccessRow(Some(rows.key.value.(lastUsed := None))) else rows
  }

  function EssentialAnswer(a: Answer): Answer {
    if a.OneKey? then OneKey(a.key.(lastUsed := None)) else a
  }

  predicate RouteQuery(q: Query) {
    !q.ModelNames? && !q.AccessKeyBySecret?
  }

  /** Writers that only clear route lists leave names and access keys alone. */
  ghost predicate Allowed(s: State, db: Database, scope: Scope) {
    scope == RoutesOnly ==> forall q: Query | !RouteQuery(q) :: Essential(db(q)) == Essential(s.db(q))
  }

  predicate Matters(scope: Scope, w: Wanted) {
    scope == Config || w.RoutesFor?
  }

  /** Some writer that matters to `w` has committed and still has to invalidate. */
  ghost predicate Awaited(s: State, w: Wanted) {
    exists id :: id in s.pending && Matters(s.pending[id], w)
  }

  function Touched(db: Database, secret: string, when: int): Database {
    (q: Query) =>
      var rows := db(q);
      if q == AccessKeyBySecret(secret) && rows.AccessRow? && rows.key.Some? then
        AccessRow(Some(rows.key.value.(lastUsed := Some(when))))
      else rows
  }

  // ---- the steps ----

  ghost predicate Enabled(s: State, a: Action) {
    match a
    case Begin(id, _) => id !in s.loaders
    case Read(id) => id in s.loaders && Program(s.loaders[id].wanted, s.loaders[id].rows).Ask?
    case Store(id) => id in s.loaders && !Program(s.loaders[id].wanted, s.loaders[id].rows).Ask?
    case Commit(id, db, scope) => id !in s.pending && Allowed(s, db, scope)
    case Invalidate(id) => id in s.pending
    case Touch(_, _) => true
  }

  function Cleared(cache: map<Wanted, Answer>, scope: Scope): map<Wanted, Answer> {
    map w | w in cache && !Matters(scope, w) :: cache[w]
  }

  function Next(s: State, a: Action): State
    requires Enabled(s, a)
  {
    match a
    case Begin(id, w) =>
      if w in s.cache then s else s.(loaders := s.loaders[id := Loader(w, s.version, [])])
    case Read(id) =>
      var l := s.loaders[id];
      s.(loaders := s.loaders[id := l.(rows := l.rows + [s.db(Program(l.wanted, l.rows).query)])])
    case Store(id) =>
      var l := s.loaders[id];
      var p := Program(l.wanted, l.rows);
      s.(cache := if p.Answered? && l.version == s.version then s.cache[l.wanted := p.answer] else s.cache,
         loaders := s.loaders - {id})
    case Commit(id, db, scope) => s.(db := db, pending := s.pending[id := scope])
    case Invalidate(id) =>
      s.(version := s.version + 1, cache := Cleared(s.cache, s.pending[id]), pending := s.pending - {id})
    case Touch(secret, when) => s.(db := Touched(s.db, secret, when))
  }

  // ---- answers of an undisturbed load ----

  /** The rows are what the program would read from this database now. */
  ghost predicate Current(db: Database, w: Wanted, rows: seq<Rows>) {
    forall i | 0 <= i < |rows| ::
      Program(w, rows[..i]).Ask? && Essential(rows[i]) == Essential(db(Program(w, rows[..i]).query))
  }

  /** The answer a load gives when nothing else runs. */
  ghost predicate Fresh(db: Database, w: Wanted, a: Answer) {
    exists rows :: Current(db, w, rows) && Program(w, rows) == Answered(a)
  }

  ghost predicate CacheOk(s: State) {
    forall w | w in s.cache :: Fresh(s.db, w, s.cache[w]) || Awaited(s, w)
  }

  ghost predicate LoaderOk(s: State, l: Loader) {
    l.version <= s.version && (l.version == s.version ==> Current(s.db, l.wanted, l.rows) || Awaited(s, l.wanted))
  }

  ghost predicate Coherent(s: State) {
    CacheOk(s) && forall id | id in s.loaders :: LoaderOk(s, s.loaders[id])
  }

  // ---- every step keeps the cache coherent ----

  lemma CurrentMore(db: Database, w: Wanted, rows: seq<Rows>)
    requires Current(db, w, rows) && Program(w, rows).Ask?
    ensures Current(db, w, rows + [db(Program(w, rows).query)])
  {
    hide Program, Essential;
    var more := rows + [db(Program(w, rows).query)];
    forall i | 0 <= i < |more|
      ensures Program(w, more[..i]).Ask? && Essential(more[i]) == Essential(db(Program(w, more[..i]).query))
    {
      if i < |rows| { assert more[..i] == rows[..i]; } else { assert more[..i] == rows; }
    }
  }

  /** A change of the database that leaves the essential rows a load depends on alone. */
  ghost predicate Unaffected(a: Database, b: Database, w: Wanted) {
    forall q: Query | w.RoutesFor? == RouteQuery(q) || w.RoutesFor? :: Essential(a(q)) == Essential(b(q))
  }

  lemma {:induction false} AsksOwn(w: Wanted, rows: seq<Rows>)
    requires Program(w, rows).Ask? && !w.RoutesFor?
    ensures !RouteQuery(Program(w, rows).query)
  {
  }

  lemma CurrentKept(a: Database, b: Database, w: Wanted, rows: seq<Rows>)
    requires Current(a, w, rows) && Unaffected(a, b, w)
    ensures Current(b, w, rows)
  {
    hide Program, Essential;
    forall i | 0 <= i < |rows| ensures Essential(rows[i]) == Essential(b(Program(w, rows[..i]).query)) {
      if !w.RoutesFor? { AsksOwn(w, rows[..i]); }
    }
  }

  lemma FreshKept(a: Database, b: Database, w: Wanted, answer: Answer)
    requires Fresh(a, w, answer) && Unaffected(a, b, w)
    ensures Fresh(b, w, answer)
  {
    hide Program, Unaffected, Current;
    var rows :| Current(a, w, rows) && Program(w, rows) == Answered(answer);
    CurrentKept(a, b, w, rows);
  }

  lemma CommitUnaffected(s: State, id: int, db: Database, scope: Scope, w: Wanted)
    requires Enabled(s, Commit(id, db, scope))
    ensures Unaffected(s.db, db, w) || Awaited(Next(s, Commit(id, db, scope)), w)
    ensures Awaited(s, w) ==> Awaited(Next(s, Commit(id, db, scope)), w)
  {
    var t := Next(s, Commit(id, db, scope));
    if Matters(scope, w) { assert id in t.pending && Matters(t.pending[id], w); }
    if Awaited(s, w) {
      var x :| x in s.pending && Matters(s.pending[x], w);
      assert x in t.pending && Matters(t.pending[x], w);
    }
  }

  lemma TouchUnaffected(db: Database, secret: string, when: int, w: Wanted)
    ensures Unaffected(db, Touched(db, secret, when), w)
  {
  }

  /** A committed change or a touch: databases differ, caches and loaders stay. */
  lemma ChangeCoherent(s: State, t: State)
    requires Coherent(s) && t.cache == s.cache && t.loaders == s.loaders && t.version == s.version
    requires forall w: Wanted :: Unaffected(s.db, t.db, w) || Awaited(t, w)
    requires forall w: Wanted :: Awaited(s, w) ==> Awaited(t, w)
    ensures Coherent(t)
  {
    hide Program, Unaffected, Awaited, Fresh, Current;
    forall w | w in t.cache ensures Fresh(t.db, w, t.cache[w]) || Awaited(t, w) {
      if Fresh(s.db, w, s.cache[w]) && Unaffected(s.db, t.db, w) { FreshKept(s.db, t.db, w, s.cache[w]); }
    }
    forall id | id in t.loaders ensures LoaderOk(t, t.loaders[id]) {
      var l := s.loaders[id];
      assert LoaderOk(s, l);
      if Current(s.db, l.wanted, l.rows) && Unaffected(s.db, t.db, l.wanted) { CurrentKept(s.db, t.db, l.wanted, l.rows); }
    }
  }

  lemma BeginCoherent(s: State, id: int, w: Wanted)
    requires Coherent(s) && Enabled(s, Begin(id, w))
    ensures Coherent(Next(s, Begin(id, w)))
  {
    hide Program;
    var t := Next(s, Begin(id, w));
    assert Current(s.db, w, []);
    KeptElsewhere(s, t, id);
  }

  lemma ReadCoherent(s: State, id: int)
    requires Coherent(s) && Enabled(s, Read(id))
    ensures Coherent(Next(s, Read(id)))
  {
    hide Program, Current;
    var t, l := Next(s, Read(id)), s.loaders[id];
    assert LoaderOk(s, l);
    if Current(s.db, l.wanted, l.rows) { CurrentMore(s.db, l.wanted, l.rows); }
    assert Awaited(s, l.wanted) ==> Awaited(t, l.wanted);
    KeptElsewhere(s, t, id);
  }

  /** Everything but loader `id` is as before. */
  lemma KeptElsewhere(s: State, t: State, id: int)
    requires Coherent(s) && t == s.(loaders := t.loaders)
    requires forall x | x in t.loaders :: x == id || (x in s.loaders && t.loaders[x] == s.loaders[x])
    requires id in t.loaders ==> LoaderOk(t, t.loaders[id])
    ensures Coherent(t)
  {
    hide Program, Current, Fresh;
    forall w ensures Awaited(t, w) <==> Awaited(s, w) { }
    forall x | x in t.loaders ensures LoaderOk(t, t.loaders[x]) {
      if x != id { assert LoaderOk(s, s.loaders[x]); }
    }
  }

  lemma StoreCoherent(s: State, id: int)
    requires Coherent(s) && Enabled(s, Store(id))
    ensures Coherent(Next(s, Store(id)))
  {
    hide Program, Current;
    var t, l := Next(s, Store(id)), s.loaders[id];
    assert LoaderOk(s, l);
    forall w ensures Awaited(t, w) <==> Awaited(s, w) { }
    forall w | w in t.cache ensures Fresh(t.db, w, t.cache[w]) || Awaited(t, w) {
      if w in s.cache { assert Fresh(s.db, w, s.cache[w]) || Awaited(s, w); }
    }
    forall x | x in t.loaders ensures LoaderOk(t, t.loaders[x]) {
      assert LoaderOk(s, s.loaders[x]);
    }
  }

  lemma InvalidateCoherent(s: State, id: int)
    requires Coherent(s) && Enabled(s, Invalidate(id))
    ensures Coherent(Next(s, Invalidate(id)))
  {
    hide Program, Current, Fresh;
    var t := Next(s, Invalidate(id));
    forall w | w in t.cache ensures Fresh(t.db, w, t.cache[w]) || Awaited(t, w) {
      if Awaited(s, w) {
        var x :| x in s.pending && Matters(s.pending[x], w);
        assert x in t.pending && Matters(t.pending[x], w);
      }
    }
    forall x | x in t.loaders ensures LoaderOk(t, t.loaders[x]) {
      assert LoaderOk(s, s.loaders[x]);
    }
  }

  lemma StepCoherent(s: State, a: Action)
    requires Coherent(s) && Enabled(s, a)
    ensures Coherent(Next(s, a))
  {
    match a
    case Begin(id, w) => BeginCoherent(s, id, w);
    case Read(id) => ReadCoherent(s, id);
    case Store(id) => StoreCoherent(s, id);
    case Commit(id, db, scope) =>
      hide Coherent, Allowed, Awaited, Unaffected;
      forall w: Wanted { CommitUnaffected(s, id, db, scope, w); }
      ChangeCoherent(s, Next(s, a));
    case Invalidate(id) => InvalidateCoherent(s, id);
    case Touch(secret, when) =>
      hide Coherent, Unaffected;
      forall w: Wanted { TouchUnaffected(s.db, secret, when, w); }
      ChangeCoherent(s, Next(s, a));
  }

  // ---- whole runs ----

  ghost predicate Runs(s: State, actions: seq<Action>)
    decreases |actions|
  {
    actions == [] || (Enabled(s, actions[0]) && Runs(Next(s, actions[0]), actions[1..]))
  }

  ghost function Final(s: State, actions: seq<Action>): State
    requires Runs(s, actions)
    decreases |actions|
  {
    if actions == [] then s else Final(Next(s, actions[0]), actions[1..])
  }

  function Empty(db: Database): State {
    State(db, 0, map[], map[], map[])
  }

  lemma {:induction false} RunCoherent(s: State, actions: seq<Action>)
    requires Coherent(s) && Runs(s, actions)
    ensures Coherent(Final(s, actions))
    decreases |actions|
  {
    if actions != [] {
      StepCoherent(s, actions[0]);
      hide Coherent, Next, Enabled;
      RunCoherent(Next(s, actions[0]), actions[1..]);
    }
  }

  /** Main result: in every reachable state a cached answer is what a fresh load would give, up to the
      last use of an access key, or a writer that matters to it has committed and must still invalidate. */
  lemma CacheCoherent(db: Database, actions: seq<Action>, w: Wanted)
    requires Runs(Empty(db), actions) && w in Final(Empty(db), actions).cache
    ensures var s := Final(Empty(db), actions);
      Awaited(s, w) || exists a :: Loads(s.db, w, a) && EssentialAnswer(a) == EssentialAnswer(s.cache[w])
  {
    RunCoherent(Empty(db), actions);
    hide Runs, Final, Awaited, Fresh;
    var s := Final(Empty(db), actions);
    if Fresh(s.db, w, s.cache[w]) {
      var a := FreshLoads(s.db, w, s.cache[w]);
    }
  }

  /** A load that nothing disturbs. */
  ghost predicate Loads(db: Database, w: Wanted, a: Answer) {
    exists rows :: Exact(db, w, rows) && Program(w, rows) == Answered(a)
  }

  ghost predicate Exact(db: Database, w: Wanted, rows: seq<Rows>) {
    forall i | 0 <= i < |rows| :: Program(w, rows[..i]).Ask? && rows[i] == db(Program(w, rows[..i]).query)
  }

  ghost predicate Alike(a: seq<Rows>, b: seq<Rows>) {
    |a| == |b| && forall i | 0 <= i < |a| :: Essential(a[i]) == Essential(b[i])
  }

  lemma {:induction false} WalkAlike(cs: seq<Candidate>, r: Requirements, a: seq<Rows>, b: seq<Rows>, done: seq<Route>)
    requires Alike(a, b)
    ensures Walk(cs, r, a, done) == Walk(cs, r, b, done)
    decreases |cs|
  {
    hide Eligibles, Chosen, CandidateRoutes;
    if cs != [] {
      var c := cs[0];
      var p := Chosen(Eligibles(c.protocols, r), r);
      if r.candidate != 0 && c.id != r.candidate {
        WalkAlike(cs[1..], r, a, b, done);
      } else if !c.enabled || !c.available || p == None {
        WalkAlike(cs[1..], r, a, b, done + [Blocked(c)]);
      } else if |a| >= 3 && a[0].ProviderRow? && a[0].provider.Some? && a[1].EndpointRows? && a[2].KeyRows? {
        assert a[0] == b[0] && a[1] == b[1] && a[2] == b[2];
        WalkAlike(cs[1..], r, a[3..], b[3..], done + CandidateRoutes(c, p.value, r, a[0].provider.value, a[1].endpoints, a[2].keys));
      }
    }
  }

  /** A load does not depend on the last use of an access key, beyond repeating it. */
  lemma ProgramAlike(w: Wanted, a: seq<Rows>, b: seq<Rows>)
    requires Alike(a, b)
    ensures Program(w, a).Ask? ==> Program(w, b) == Program(w, a)
    ensures Program(w, a).Answered? ==>
      Program(w, b).Answered? && EssentialAnswer(Program(w, b).answer) == EssentialAnswer(Program(w, a).answer)
  {
    if w.RoutesFor? && |a| >= 3 && a[1].CandidateRows? && a[2].ProtocolRows? {
      WalkAlike(Hydrated(a[1].candidates, a[2].protocols), w.requirements, a[3..], b[3..], []);
    }
  }

  lemma FreshLoads(db: Database, w: Wanted, a: Answer) returns (b: Answer)
    requires Fresh(db, w, a)
    ensures Loads(db, w, b) && EssentialAnswer(b) == EssentialAnswer(a)
  {
    hide Program, EssentialAnswer, Essential;
    var rows :| Current(db, w, rows) && Program(w, rows) == Answered(a);
    var exact := seq(|rows|, i requires 0 <= i < |rows| =>
      (assert Program(w, rows[..i]).Ask?; db(Program(w, rows[..i]).query)));
    forall i | 0 <= i < |exact| ensures Program(w, exact[..i]) == Program(w, rows[..i]) {
      assert Alike(rows[..i], exact[..i]);
      ProgramAlike(w, rows[..i], exact[..i]);
    }
    ProgramAlike(w, rows, exact);
    assert Exact(db, w, exact);
    b := Program(w, exact).answer;
  }

  /** An undisturbed load has one answer. */
  lemma LoadsOnce(db: Database, w: Wanted, a: Answer, b: Answer)
    requires Loads(db, w, a) && Loads(db, w, b)
    ensures a == b
  {
    hide Program;
    var x :| Exact(db, w, x) && Program(w, x) == Answered(a);
    var y :| Exact(db, w, y) && Program(w, y) == Answered(b);
    if |x| <= |y| { SamePath(db, w, x, y, |x|); } else { SamePath(db, w, y, x, |y|); }
  }

  lemma {:induction false} SamePath(db: Database, w: Wanted, x: seq<Rows>, y: seq<Rows>, n: nat)
    requires Exact(db, w, x) && Exact(db, w, y) && n <= |x| <= |y|
    ensures x[..n] == y[..n]
    ensures n == |x| ==> if |x| == |y| then x == y else Program(w, x).Ask?
  {
    hide Program;
    assert x[..|x|] == x && y[..|y|] == y;
    if n > 0 {
      SamePath(db, w, x, y, n - 1);
      assert x[..n] == x[..n - 1] + [x[n - 1]] && y[..n] == y[..n - 1] + [y[n - 1]];
    }
    assert |x| < |y| ==> Program(w, y[..|x|]).Ask?;
  }

  // ---- what a load answers, said about the database alone ----

  ghost predicate WalkExact(db: Database, cs: seq<Candidate>, r: Requirements, rows: seq<Rows>, done: seq<Route>) {
    forall i | 0 <= i < |rows| ::
      Walk(cs, r, rows[..i], done).Ask? && rows[i] == db(Walk(cs, r, rows[..i], done).query)
  }

  /** The segment of a candidate, from its provider's rows in the database. */
  ghost predicate SegmentIn(db: Database, c: Candidate, r: Requirements, seg: seq<Route>) {
    Segment(c, r, db(ProviderByID(c.provider)), db(EndpointsOf(c.provider)), db(KeysOf(c.provider)), seg)
  }

  ghost predicate SegmentsIn(db: Database, cs: seq<Candidate>, r: Requirements, segs: seq<seq<Route>>) {
    |segs| == |cs| && forall i | 0 <= i < |cs| :: SegmentIn(db, cs[i], r, segs[i])
  }

  /** The routes of a request as the database has them: the candidates of the model in row order, each
      with the open routes of its provider's keys in usage order, or a blocked one. */
  ghost predicate RoutesIn(db: Database, r: Requirements, routes: seq<Route>) {
    var m := db(ModelByName(r.model));
    && m.ModelRow? && m.model.Some?
    && if !m.model.value.1 then |routes| == 1 && routes[0].blocked
       else
         var c := db(CandidatesOf(m.model.value.0));
         && c.CandidateRows?
         && (c.candidates == [] ==> routes == [])
         && (c.candidates != [] ==>
               var p := db(ProtocolsOf(IDs(c.candidates)));
               p.ProtocolRows?
               && exists segs :: SegmentsIn(db, Hydrated(c.candidates, p.protocols), r, segs) && routes == Joined(segs))
  }

  /** The answer as the database has it, up to the last use of an access key. */
  ghost predicate AnswerIn(db: Database, w: Wanted, a: Answer) {
    match w
    case RoutesFor(r) => a.RouteList? && RoutesIn(db, r, a.routes)
    case Names => db(ModelNames).NameRows? && a == NameList(db(ModelNames).names)
    case Access(secret) =>
      var row := db(AccessKeyBySecret(secret));
      row.AccessRow? && row.key.Some? && a.OneKey? && a.key.(lastUsed := None) == row.key.value.(lastUsed := None)
  }

  /** What the first candidate reads. */
  lemma FirstReads(db: Database, cs: seq<Candidate>, r: Requirements, rows: seq<Rows>, done: seq<Route>)
    requires cs != [] && Asked(cs[0], r) && |rows| >= 3 && WalkExact(db, cs, r, rows, done)
    ensures rows[0] == db(ProviderByID(cs[0].provider)) && rows[1] == db(EndpointsOf(cs[0].provider)) && rows[2] == db(KeysOf(cs[0].provider))
  {
    AskedIff(cs[0], r);
    hide Chosen, Eligibles, CandidateRoutes, Asked;
    assert rows[..0] == [] && rows[..1] == [rows[0]] && rows[..2] == [rows[0], rows[1]];
    assert Walk(cs, r, rows[..0], done).Ask? && Walk(cs, r, rows[..1], done).Ask? && Walk(cs, r, rows[..2], done).Ask?;
  }

  /** The rest of the rows are what the rest of the candidates read. */
  lemma RestReads(db: Database, cs: seq<Candidate>, r: Requirements, rows: seq<Rows>, done: seq<Route>)
    requires cs != [] && WalkExact(db, cs, r, rows, done) && Walk(cs, r, rows, done).Answered? && (Asked(cs[0], r) ==> |rows| >= 3)
    ensures WalkExact(db, cs[1..], r, if Asked(cs[0], r) then rows[3..] else rows, done + FirstRoutes(cs[0], r, rows))
  {
    hide Walk, Asked;
    var tail, seg := if Asked(cs[0], r) then rows[3..] else rows, FirstRoutes(cs[0], r, rows);
    forall i | 0 <= i < |tail|
      ensures Walk(cs[1..], r, tail[..i], done + seg).Ask? && tail[i] == db(Walk(cs[1..], r, tail[..i], done + seg).query) {
      var k := if Asked(cs[0], r) then i + 3 else i;
      assert Walk(cs, r, rows[..k], done).Ask? && rows[k] == db(Walk(cs, r, rows[..k], done).query);
      WalkOn(cs, r, rows[..k], done);
      assert FirstRoutes(cs[0], r, rows[..k]) == seg;
      assert Asked(cs[0], r) ==> rows[..k][3..] == tail[..i];
      assert !Asked(cs[0], r) ==> rows[..k] == tail[..i];
    }
  }

  lemma {:induction false} WalkDatabase(db: Database, cs: seq<Candidate>, r: Requirements, rows: seq<Rows>, done: seq<Route>)
      returns (segs: seq<seq<Route>>)
    requires WalkExact(db, cs, r, rows, done) && Walk(cs, r, rows, done).Answered?
    ensures SegmentsIn(db, cs, r, segs) && Walk(cs, r, rows, done).answer.routes == done + Joined(segs)
    decreases |cs|
  {
    hide Walk, Segment, Asked, Joined, WalkExact, FirstRoutes;
    if cs == [] {
      WalkEnd(r, rows, done);
      return [];
    }
    WalkStep(cs, r, rows, done);
    if Asked(cs[0], r) { FirstReads(db, cs, r, rows, done); } else { AnyRows(db, cs[0], r, FirstRoutes(cs[0], r, rows)); }
    RestReads(db, cs, r, rows, done);
    var rest := WalkDatabase(db, cs[1..], r, if Asked(cs[0], r) then rows[3..] else rows, done + FirstRoutes(cs[0], r, rows));
    segs := [FirstRoutes(cs[0], r, rows)] + rest;
    JoinedMore(FirstRoutes(cs[0], r, rows), rest);
    Appended(done, FirstRoutes(cs[0], r, rows), Joined(rest));
  }

  /** The rows do not matter for a candidate that is not asked about. */
  lemma AnyRows(db: Database, c: Candidate, r: Requirements, seg: seq<Route>)
    requires !Asked(c, r) && Segment(c, r, NameRows([]), NameRows([]), NameRows([]), seg)
    ensures SegmentIn(db, c, r, seg)
  {
    hide Asked;
  }

  /** Main result: the answer of an undisturbed load is the one the database has. */
  lemma LoadsDatabase(db: Database, w: Wanted, a: Answer)
    requires Loads(db, w, a)
    ensures AnswerIn(db, w, a)
  {
    hide Walk;
    var rows :| Exact(db, w, rows) && Program(w, rows) == Answered(a);
    assert rows[..0] == [];
    assert Program(w, rows[..0]).Ask? && rows[0] == db(Program(w, rows[..0]).query);
    assert |rows| == 1 ==> rows[..1] == rows;
    if w.RoutesFor? { RoutesDatabase(db, w.requirements, rows); }
  }

  lemma RoutesDatabase(db: Database, r: Requirements, rows: seq<Rows>)
    requires Exact(db, RoutesFor(r), rows) && Program(RoutesFor(r), rows).Answered?
    ensures RoutesIn(db, r, Program(RoutesFor(r), rows).answer.routes)
  {
    hide Walk;
    assert rows[..0] == [] && (|rows| >= 1 ==> rows[..1] == [rows[0]]) && (|rows| >= 2 ==> rows[..2] == [rows[0], rows[1]]);
    assert forall i | 0 <= i < |rows| :: Program(RoutesFor(r), rows[..i]).Ask? && rows[i] == db(Program(RoutesFor(r), rows[..i]).query);
    if rows[0].model.value.1 && rows[1].candidates != [] {
      var cs := Hydrated(rows[1].candidates, rows[2].protocols);
      forall i | 0 <= i < |rows[3..]|
        ensures Walk(cs, r, rows[3..][..i], []).Ask? && rows[3..][i] == db(Walk(cs, r, rows[3..][..i], []).query) {
        assert rows[..i + 3][3..] == rows[3..][..i] && Program(RoutesFor(r), rows[..i + 3]).Ask?;
      }
      var segs := WalkDatabase(db, cs, r, rows[3..], []);
      assert [] + Joined(segs) == Joined(segs);
    }
  }

  /** Main result: over every interleaving, what is cached is what the database has, up to the last use of
      an access key, or a writer that matters to it has committed and must still invalidate. */
  lemma CacheHasDatabase(db: Database, actions: seq<Action>, w: Wanted)
    requires Runs(Empty(db), actions) && w in Final(Empty(db), actions).cache
    ensures var s := Final(Empty(db), actions); Awaited(s, w) || AnswerIn(s.db, w, s.cache[w])
  {
    CacheCoherent(db, actions, w);
    var s := Final(Empty(db), actions);
    hide RoutesIn, Loads, Final, Runs;
    if !Awaited(s, w) {
      var a :| Loads(s.db, w, a) && EssentialAnswer(a) == EssentialAnswer(s.cache[w]);
      LoadsDatabase(s.db, w, a);
      LoadKind(s.db, w, a);
    }
  }

  lemma LoadKind(db: Database, w: Wanted, a: Answer)
    requires Loads(db, w, a)
    ensures w.RoutesFor? == a.RouteList? && w.Names? == a.NameList?
  {
    hide Walk;
  }

}
