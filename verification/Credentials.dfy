/** Stored OAuth accounts and their providers. Each action is one guarded statement or transaction;
    refreshes, marks and administrators' edits interleave freely, and the credential revision decides
    who is up to date. */
module Credentials {
  import opened Wrappers

  datatype Kind = Codex | Antigravity | Generic

  datatype Provider = Provider(kind: Kind, enabled: bool, archived: bool)

  /** What a login or a refresh brings. A Codex credential names no project. */
  datatype Credential = Credential(identity: string, project: string, secret: string)

  /** A model cooldown, valid for the credential revision it was stored under. */
  datatype Cooldown = Cooldown(revision: nat, recoverAt: int)

  datatype Row = Row(
    provider: nat, credential: Credential, revision: nat, enabled: bool, archived: bool,
    status: string, recoverAt: Option<int>, cooldowns: map<string, Cooldown>)

  /** The database gives each new account the next number and never one it gave before. */
  datatype State = State(providers: map<nat, Provider>, rows: map<nat, Row>, nextProvider: nat, nextRow: nat)

  datatype Action =
    | Create(kind: Kind)
    | Import(provider: nat, credential: Credential)
    | Save(id: nat, revision: nat, credential: Credential)                     // a finished token refresh
    | Replace(provider: nat, id: nat, revision: nat, credential: Credential)   // a new login for the account
    | MarkKey(id: nat, revision: nat, status: string, recoverAt: Option<int>)
    | MarkModel(id: nat, revision: nat, model: string, coolUntil: int)
    | SetEnabled(id: nat, enabled: bool)
    | Reset(id: nat)
    | Delete(provider: nat, id: nat)
    | SwitchProvider(provider: nat, enabled: bool)
    | EditProvider(provider: nat)
    | DropProvider(provider: nat, inUse: bool, referenced: bool) // whether models use it, whether logs or old models name it

  predicate Standing(s: State, provider: nat) {
    provider in s.providers && !s.providers[provider].archived
  }

  predicate Account(s: State, id: nat) {
    id in s.rows && !s.rows[id].archived && Standing(s, s.rows[id].provider)
  }

  /** The account may serve requests. */
  predicate InUse(s: State, id: nat) {
    Account(s, id) && s.rows[id].enabled && s.providers[s.rows[id].provider].enabled
  }

  /** The guard of a refresh and of a mark: still the same revision, and still in use. */
  predicate Live(s: State, id: nat, revision: nat) {
    InUse(s, id) && s.rows[id].revision == revision
  }

  /** A refresh moves the live cooldowns along to the new revision. */
  function Carried(cooldowns: map<string, Cooldown>, revision: nat): map<string, Cooldown> {
    map m | m in cooldowns ::
      if cooldowns[m].revision == revision then cooldowns[m].(revision := revision + 1) else cooldowns[m]
  }

  predicate SaveSucceeds(s: State, id: nat, revision: nat, identity: string) {
    Live(s, id, revision) && s.rows[id].credential.identity == identity
  }

  function Saved(r: Row, kind: Kind, c: Credential): Row {
    var next := r.(revision := r.revision + 1, credential := c);
    if kind == Codex then next.(status := "available", recoverAt := None)
    else next.(cooldowns := Carried(r.cooldowns, r.revision))
  }

  /** A new login serves disabled accounts too, but Antigravity insists on the project. */
  predicate ReplaceSucceeds(s: State, provider: nat, id: nat, revision: nat, c: Credential) {
    && Account(s, id) && s.rows[id].provider == provider && s.rows[id].revision == revision
    && s.rows[id].credential.identity == c.identity
    && (s.providers[provider].kind == Antigravity ==> s.rows[id].credential.project == c.project)
  }

  function Replaced(r: Row, kind: Kind, c: Credential): Row {
    r.(revision := r.revision + 1, credential := c, status := "available", recoverAt := None,
       cooldowns := if kind == Antigravity then map[] else r.cooldowns)
  }

  /** No standing account of this kind has the identity yet. */
  predicate Unknown(s: State, kind: Kind, identity: string) {
    forall id | id in s.rows && Account(s, id) && s.providers[s.rows[id].provider].kind == kind :: s.rows[id].credential.identity != identity
  }

  predicate ImportSucceeds(s: State, provider: nat, c: Credential) {
    && Standing(s, provider) && s.providers[provider].kind != Generic
    && Unknown(s, s.providers[provider].kind, c.identity)
  }

  /** All standing accounts of a provider get a newer revision. */
  function Bumped(rows: map<nat, Row>, provider: nat): map<nat, Row> {
    map id | id in rows ::
      if rows[id].provider == provider && !rows[id].archived then rows[id].(revision := rows[id].revision + 1) else rows[id]
  }

  function Cleared(r: Row): Row {
    r.(enabled := false, credential := r.credential.(secret := ""), revision := r.revision + 1, archived := true)
  }

  function Archived(rows: map<nat, Row>, provider: nat): map<nat, Row> {
    map id | id in rows :: if rows[id].provider == provider && !rows[id].archived then Cleared(rows[id]) else rows[id]
  }

  function Without(rows: map<nat, Row>, provider: nat): map<nat, Row> {
    map id | id in rows && rows[id].provider != provider :: rows[id]
  }

  function Next(s: State, a: Action): State {
    match a
    case Create(kind) =>
      s.(providers := s.providers[s.nextProvider := Provider(kind, true, false)], nextProvider := s.nextProvider + 1)
    case Import(p, c) =>
      if ImportSucceeds(s, p, c) then
        s.(rows := s.rows[s.nextRow := Row(p, c, 1, true, false, "available", None, map[])], nextRow := s.nextRow + 1)
      else s
    case Save(id, revision, c) =>
      if SaveSucceeds(s, id, revision, c.identity) then
        s.(rows := s.rows[id := Saved(s.rows[id], s.providers[s.rows[id].provider].kind, c)])
      else s
    case Replace(p, id, revision, c) =>
      if ReplaceSucceeds(s, p, id, revision, c) then s.(rows := s.rows[id := Replaced(s.rows[id], s.providers[p].kind, c)]) else s
    case MarkKey(id, revision, status, recoverAt) =>
      if Live(s, id, revision) then s.(rows := s.rows[id := s.rows[id].(status := status, recoverAt := recoverAt)]) else s
    case MarkModel(id, revision, model, coolUntil) =>
      if Live(s, id, revision) then
        s.(rows := s.rows[id := s.rows[id].(cooldowns := s.rows[id].cooldowns[model := Cooldown(revision, coolUntil)])])
      else s
    case SetEnabled(id, enabled) =>
      if id in s.rows && !s.rows[id].archived then
        s.(rows := s.rows[id := s.rows[id].(enabled := enabled, revision := s.rows[id].revision + 1)])
      else s
    case Reset(id) =>
      if id in s.rows && !s.rows[id].archived && s.rows[id].status != "auth_invalid" then
        s.(rows := s.rows[id := s.rows[id].(status := "available", recoverAt := None, revision := s.rows[id].revision + 1)])
      else s
    case Delete(p, id) =>
      if Account(s, id) && s.rows[id].provider == p then s.(rows := s.rows[id := Cleared(s.rows[id]).(cooldowns := map[])]) else s
    case SwitchProvider(p, enabled) =>
      if Standing(s, p) then
        s.(providers := s.providers[p := s.providers[p].(enabled := enabled)], rows := Bumped(s.rows, p))
      else s
    case EditProvider(p) =>
      if Standing(s, p) && s.providers[p].kind != Generic then s.(rows := Bumped(s.rows, p)) else s
    case DropProvider(p, inUse, referenced) =>
      if !Standing(s, p) || inUse then s
      else if referenced then
        s.(providers := s.providers[p := s.providers[p].(enabled := false, archived := true)], rows := Archived(s.rows, p))
      else s.(providers := s.providers - {p}, rows := Without(s.rows, p))
  }

  /** Whether a model may be used with an account whose credential was read at `revision`. */
  predicate ModelAvailable(s: State, id: nat, revision: nat, model: string, now: int) {
    !(id in s.rows && model in s.rows[id].cooldowns && s.rows[id].cooldowns[model].revision == revision
      && s.rows[id].cooldowns[model].recoverAt > now)
  }

  // ---- invariants ----

  predicate RowOk(s: State, r: Row) {
    && r.revision >= 1 && (forall m | m in r.cooldowns :: r.cooldowns[m].revision <= r.revision)
    && r.provider in s.providers && s.providers[r.provider].kind != Generic
    && (s.providers[r.provider].archived ==> r.archived)
  }

  predicate Sound(s: State) {
    && (forall p | p in s.providers :: p < s.nextProvider)
    && (forall id | id in s.rows :: id < s.nextRow && RowOk(s, s.rows[id]))
  }

  /** The identity an account goes by among those of its kind. */
  function Known(s: State, id: nat): (Kind, string)
    requires Account(s, id)
  {
    (s.providers[s.rows[id].provider].kind, s.rows[id].credential.identity)
  }

  /** No two standing accounts of one kind share an identity. */
  predicate Exclusive(s: State) {
    forall i, j | i in s.rows && j in s.rows && Account(s, i) && Account(s, j) && i != j ::
      Known(s, i) != Known(s, j)
  }

  /** What becomes of an account number: a revision never goes back, any change of the secret or of the use
      of an account brings a newer one, what is archived stays so, and what is gone does not return. */
  predicate Grows(s: State, t: State, id: nat) {
    && s.nextRow <= t.nextRow
    && (id < s.nextRow && id !in s.rows ==> id !in t.rows)
    && (id in s.rows && id in t.rows ==>
          var r, u := s.rows[id], t.rows[id];
          && u.revision >= r.revision && u.provider == r.provider && u.credential.identity == r.credential.identity
          && (r.archived ==> u.archived)
          && (u.credential.secret != r.credential.secret || InUse(t, id) != InUse(s, id) || u.archived != r.archived ==>
                u.revision > r.revision))
  }

  predicate ForProvider(a: Action) {
    a.SwitchProvider? || a.EditProvider? || a.DropProvider?
  }

  lemma ProviderRowOk(s: State, a: Action, id: nat)
    requires Sound(s) && ForProvider(a) && id in Next(s, a).rows
    ensures id < Next(s, a).nextRow && RowOk(Next(s, a), Next(s, a).rows[id])
  {
  }

  lemma AccountRowOk(s: State, a: Action, id: nat)
    requires Sound(s) && !ForProvider(a) && id in Next(s, a).rows
    ensures id < Next(s, a).nextRow && RowOk(Next(s, a), Next(s, a).rows[id])
  {
  }

  lemma StepRowOk(s: State, a: Action, id: nat)
    requires Sound(s) && id in Next(s, a).rows
    ensures id < Next(s, a).nextRow && RowOk(Next(s, a), Next(s, a).rows[id])
  {
    hide Next, RowOk, Sound;
    if ForProvider(a) { ProviderRowOk(s, a, id); } else { AccountRowOk(s, a, id); }
  }

  lemma StepProviders(s: State, a: Action)
    requires Sound(s)
    ensures forall p | p in Next(s, a).providers :: p < Next(s, a).nextProvider
  {
  }

  lemma StepSound(s: State, a: Action)
    requires Sound(s)
    ensures Sound(Next(s, a))
  {
    StepProviders(s, a);
    hide Next, RowOk;
    forall id | id in Next(s, a).rows ensures id < Next(s, a).nextRow && RowOk(Next(s, a), Next(s, a).rows[id]) {
      StepRowOk(s, a, id);
    }
  }

  lemma ProviderGrows(s: State, a: Action, id: nat)
    requires Sound(s) && ForProvider(a)
    ensures Grows(s, Next(s, a), id)
  {
  }

  lemma AccountGrows(s: State, a: Action, id: nat)
    requires Sound(s) && !ForProvider(a)
    ensures Grows(s, Next(s, a), id)
  {
  }

  lemma StepGrows(s: State, a: Action, id: nat)
    requires Sound(s)
    ensures Grows(s, Next(s, a), id)
  {
    hide Next, Grows, Sound;
    if ForProvider(a) { ProviderGrows(s, a, id); } else { AccountGrows(s, a, id); }
  }

  /** A standing account was standing under the same identity before, or has just been imported. */
  lemma StepStands(s: State, a: Action, id: nat)
    requires Sound(s) && Account(Next(s, a), id)
    ensures if id < s.nextRow then Account(s, id) && Known(Next(s, a), id) == Known(s, id)
            else id == s.nextRow && a.Import? && ImportSucceeds(s, a.provider, a.credential)
                 && Known(Next(s, a), id) == (s.providers[a.provider].kind, a.credential.identity)
  {
  }

  lemma StepExclusive(s: State, a: Action)
    requires Sound(s) && Exclusive(s)
    ensures Exclusive(Next(s, a))
  {
    var t := Next(s, a);
    hide Next, RowOk;
    forall i, j | i in t.rows && j in t.rows && Account(t, i) && Account(t, j) && i != j ensures Known(t, i) != Known(t, j) {
      StepStands(s, a, i);
      StepStands(s, a, j);
    }
  }

  function Final(s: State, actions: seq<Action>): State
    decreases |actions|
  {
    if actions == [] then s else Final(Next(s, actions[0]), actions[1..])
  }

  lemma {:induction false} RunGrows(s: State, actions: seq<Action>, id: nat)
    requires Sound(s)
    ensures Sound(Final(s, actions)) && Grows(s, Final(s, actions), id)
    decreases |actions|
  {
    if actions != [] {
      StepSound(s, actions[0]);
      StepGrows(s, actions[0], id);
      hide Next, RowOk, InUse;
      RunGrows(Next(s, actions[0]), actions[1..], id);
    }
  }

  lemma {:induction false} RunExclusive(s: State, actions: seq<Action>)
    requires Sound(s) && Exclusive(s)
    ensures Exclusive(Final(s, actions))
    decreases |actions|
  {
    if actions != [] {
      StepSound(s, actions[0]);
      StepExclusive(s, actions[0]);
      hide Next, Exclusive, Sound;
      RunExclusive(Next(s, actions[0]), actions[1..]);
    }
  }

  // ---- main results ----

  /** The actions after which an account's credential or use is no longer what it was. */
  predicate Supersedes(s: State, a: Action, id: nat) {
    id in s.rows && match a
    case Save(x, revision, c) => x == id && SaveSucceeds(s, id, revision, c.identity)
    case Replace(p, x, revision, c) => x == id && ReplaceSucceeds(s, p, id, revision, c)
    case SetEnabled(x, _) => x == id && !s.rows[id].archived
    case Reset(x) => x == id && !s.rows[id].archived && s.rows[id].status != "auth_invalid"
    case Delete(p, x) => x == id && Account(s, id) && s.rows[id].provider == p
    case SwitchProvider(p, _) => s.rows[id].provider == p && !s.rows[id].archived
    case EditProvider(p) => s.rows[id].provider == p && !s.rows[id].archived
    case DropProvider(p, inUse, referenced) =>
      s.rows[id].provider == p && Standing(s, p) && !inUse && (referenced ==> !s.rows[id].archived)
    case _ => false
  }

  /** Exactly these bring the account a newer revision or remove it. */
  lemma SupersedesExactly(s: State, a: Action, id: nat)
    requires Sound(s) && id in s.rows
    ensures Supersedes(s, a, id) <==> id !in Next(s, a).rows || Next(s, a).rows[id].revision > s.rows[id].revision
  {
  }

  /** A refresh, or a mark of the account or of a model, that was computed for `id` at `revision`. */
  predicate Computed(a: Action, id: nat, revision: nat) {
    (a.Save? || a.MarkKey? || a.MarkModel?) && a.id == id && a.revision == revision
  }

  /** After any refresh, new login, enabling or disabling, reset or deletion of an account, and any switch,
      edit or deletion of its provider, nothing that was computed before takes effect any more. */
  lemma NothingOldReturns(s: State, a: Action, id: nat, between: seq<Action>, late: Action, revision: nat)
    requires Sound(s) && Supersedes(s, a, id)
    requires Computed(late, id, revision) && revision <= s.rows[id].revision
    ensures var t := Final(Next(s, a), between); Next(t, late) == t
  {
    SupersedesExactly(s, a, id);
    StepSound(s, a);
    StepGrows(s, a, id);
    RunGrows(Next(s, a), between, id);
    var t := Final(Next(s, a), between);
    assert !Live(t, id, revision);
  }

  /** From each revision at most one refresh is stored: once one was, no later one from that revision
      succeeds, whatever happens between. */
  lemma OneSavePerRevision(s: State, id: nat, revision: nat, c: Credential, between: seq<Action>, other: string)
    requires Sound(s) && SaveSucceeds(s, id, revision, c.identity)
    ensures !SaveSucceeds(Final(Next(s, Save(id, revision, c)), between), id, revision, other)
  {
    var t := Next(s, Save(id, revision, c));
    StepSound(s, Save(id, revision, c));
    RunGrows(t, between, id);
  }

  /** A mark computed at a revision changes nothing once the credential has moved on. */
  lemma StaleMark(s: State, between: seq<Action>, a: Action)
    requires Sound(s) && (a.MarkKey? || a.MarkModel?) && a.id in s.rows && a.revision < s.rows[a.id].revision
    ensures Next(Final(s, between), a) == Final(s, between)
  {
    RunGrows(s, between, a.id);
    assert !Live(Final(s, between), a.id, a.revision);
  }

  /** A stored refresh keeps exactly the model cooldowns that were in force, now under its own revision. */
  lemma RefreshKeepsCooldowns(s: State, id: nat, revision: nat, c: Credential, model: string, now: int)
    requires Sound(s) && SaveSucceeds(s, id, revision, c.identity)
    requires s.providers[s.rows[id].provider].kind == Antigravity
    ensures var t := Next(s, Save(id, revision, c));
      && t.rows[id].revision == revision + 1
      && (ModelAvailable(t, id, revision + 1, model, now) <==> ModelAvailable(s, id, revision, model, now))
  {
    assert RowOk(s, s.rows[id]);
  }

  /** Any other newer revision ends them: the account starts without cooldowns in force. */
  lemma EditEndsCooldowns(s: State, a: Action, id: nat, model: string, now: int)
    requires Sound(s) && Supersedes(s, a, id) && !a.Save? && id in Next(s, a).rows
    ensures ModelAvailable(Next(s, a), id, Next(s, a).rows[id].revision, model, now)
  {
    assert RowOk(s, s.rows[id]);
  }

  /** The account an action is about, or the accounts of the provider it is about. */
  predicate Concerns(s: State, a: Action, id: nat) {
    match a
    case Create(_) => false
    case Import(_, _) => false
    case Save(x, _, _) => x == id
    case Replace(_, x, _, _) => x == id
    case MarkKey(x, _, _, _) => x == id
    case MarkModel(x, _, _, _) => x == id
    case SetEnabled(x, _) => x == id
    case Reset(x) => x == id
    case Delete(_, x) => x == id
    case SwitchProvider(p, _) => id in s.rows && s.rows[id].provider == p
    case EditProvider(p) => id in s.rows && s.rows[id].provider == p
    case DropProvider(p, _, _) => id in s.rows && s.rows[id].provider == p
  }

  /** An action on an account touches only that account, an action on a provider only its accounts. */
  lemma OthersUntouched(s: State, a: Action, id: nat)
    requires Sound(s) && id < s.nextRow && !Concerns(s, a, id)
    ensures var t := Next(s, a); (id in t.rows <==> id in s.rows) && (id in s.rows ==> t.rows[id] == s.rows[id])
    ensures InUse(Next(s, a), id) <==> InUse(s, id)
  {
  }

  // ---- what takes effect stays in effect ----

  /** The action is about another account, and not about this one's provider. */
  predicate Unrelated(a: Action, id: nat, provider: nat) {
    match a
    case Create(_) => true
    case Import(_, _) => true
    case Save(x, _, _) => x != id
    case Replace(_, x, _, _) => x != id
    case MarkKey(x, _, _, _) => x != id
    case MarkModel(x, _, _, _) => x != id
    case SetEnabled(x, _) => x != id
    case Reset(x) => x != id
    case Delete(_, x) => x != id
    case SwitchProvider(p, _) => p != provider
    case EditProvider(p) => p != provider
    case DropProvider(p, _, _) => p != provider
  }

  lemma UnrelatedKeeps(s: State, a: Action, id: nat)
    requires Sound(s) && id in s.rows && Unrelated(a, id, s.rows[id].provider)
    ensures id in Next(s, a).rows && Next(s, a).rows[id] == s.rows[id] && (InUse(Next(s, a), id) <==> InUse(s, id))
  {
    OthersUntouched(s, a, id);
  }

  lemma {:induction false} Undisturbed(s: State, actions: seq<Action>, id: nat)
    requires Sound(s) && id in s.rows && forall a | a in actions :: Unrelated(a, id, s.rows[id].provider)
    ensures id in Final(s, actions).rows && Final(s, actions).rows[id] == s.rows[id]
    ensures InUse(Final(s, actions), id) <==> InUse(s, id)
    decreases |actions|
  {
    if actions != [] {
      UnrelatedKeeps(s, actions[0], id);
      StepSound(s, actions[0]);
      hide Next, Sound, InUse, Unrelated;
      Undisturbed(Next(s, actions[0]), actions[1..], id);
    }
  }

  /** A stored refresh is what is used from then on, under the next revision, and it makes a Codex account
      available again. */
  lemma RefreshStands(s: State, id: nat, revision: nat, c: Credential, between: seq<Action>)
    requires Sound(s) && SaveSucceeds(s, id, revision, c.identity)
    requires forall a | a in between :: Unrelated(a, id, s.rows[id].provider)
    ensures var t := Final(Next(s, Save(id, revision, c)), between);
      && Live(t, id, revision + 1) && t.rows[id].credential == c
      && (s.providers[s.rows[id].provider].kind == Codex ==> t.rows[id].status == "available" && t.rows[id].recoverAt == None)
  {
    StepSound(s, Save(id, revision, c));
    Undisturbed(Next(s, Save(id, revision, c)), between, id);
  }

  /** A mark computed for the current revision of an account in use stands. */
  lemma MarkStands(s: State, id: nat, revision: nat, status: string, recoverAt: Option<int>, between: seq<Action>)
    requires Sound(s) && Live(s, id, revision)
    requires forall a | a in between :: Unrelated(a, id, s.rows[id].provider)
    ensures var t := Final(Next(s, MarkKey(id, revision, status, recoverAt)), between);
      Live(t, id, revision) && t.rows[id].status == status && t.rows[id].recoverAt == recoverAt
  {
    StepSound(s, MarkKey(id, revision, status, recoverAt));
    Undisturbed(Next(s, MarkKey(id, revision, status, recoverAt)), between, id);
  }

  /** A model that is marked is unavailable with this account until exactly the time of the mark. */
  lemma ModelCools(s: State, id: nat, revision: nat, model: string, coolUntil: int, between: seq<Action>, now: int)
    requires Sound(s) && Live(s, id, revision)
    requires forall a | a in between :: Unrelated(a, id, s.rows[id].provider)
    ensures var t := Final(Next(s, MarkModel(id, revision, model, coolUntil)), between);
      ModelAvailable(t, id, revision, model, now) <==> coolUntil <= now
  {
    StepSound(s, MarkModel(id, revision, model, coolUntil));
    Undisturbed(Next(s, MarkModel(id, revision, model, coolUntil)), between, id);
  }

  // ---- the store object ----

  class Store {
    var providers: map<nat, Provider>
    var rows: map<nat, Row>
    var nextProvider: nat
    var nextRow: nat

    function View(): State
      reads this
    {
      State(providers, rows, nextProvider, nextRow)
    }

    constructor ()
      ensures View() == State(map[], map[], 0, 0)
    {
      providers, rows, nextProvider, nextRow := map[], map[], 0, 0;
    }

    method ImportCredential(provider: nat, c: Credential) returns (ok: bool)
      modifies this
      ensures ok == ImportSucceeds(old(View()), provider, c)
      ensures View() == Next(old(View()), Import(provider, c))
    {
      if provider !in providers || providers[provider].archived || providers[provider].kind == Generic { return false; }
      var rest := rows.Keys;
      while rest != {}
        invariant rest <= rows.Keys
        invariant forall id | id in rows.Keys - rest && Account(View(), id) &&
          providers[rows[id].provider].kind == providers[provider].kind :: rows[id].credential.identity != c.identity
        decreases rest
      {
        assert exists id :: id in rest;
        var id :| id in rest;
        if Account(View(), id) && providers[rows[id].provider].kind == providers[provider].kind
           && rows[id].credential.identity == c.identity {
          return false;
        }
        rest := rest - {id};
      }
      rows := rows[nextRow := Row(provider, c, 1, true, false, "available", None, map[])];
      nextRow := nextRow + 1;
      ok := true;
    }

    method SaveCredential(id: nat, revision: nat, c: Credential) returns (ok: bool)
      modifies this
      ensures ok == SaveSucceeds(old(View()), id, revision, c.identity)
      ensures View() == Next(old(View()), Save(id, revision, c))
    {
      if id !in rows || rows[id].provider !in providers { return false; }
      var r, p := rows[id], providers[rows[id].provider];
      if r.revision != revision || !r.enabled || r.archived || !p.enabled || p.archived || r.credential.identity != c.identity {
        return false;
      }
      r := r.(revision := r.revision + 1, credential := c);
      if p.kind == Codex {
        r := r.(status := "available", recoverAt := None);
      } else {
        var moved := map m | m in r.cooldowns ::
          if r.cooldowns[m].revision == revision then r.cooldowns[m].(revision := revision + 1) else r.cooldowns[m];
        r := r.(cooldowns := moved);
      }
      rows := rows[id := r];
      ok := true;
    }

    method ReplaceCredential(provider: nat, id: nat, revision: nat, c: Credential) returns (ok: bool)
      modifies this
      ensures ok == ReplaceSucceeds(old(View()), provider, id, revision, c)
      ensures View() == Next(old(View()), Replace(provider, id, revision, c))
    {
      if id !in rows || provider !in providers || providers[provider].archived { return false; }
      var r, antigravity := rows[id], providers[provider].kind == Antigravity;
      if r.provider != provider || r.revision != revision || r.archived || r.credential.identity != c.identity {
        return false;
      }
      if antigravity && r.credential.project != c.project { return false; }
      r := r.(revision := r.revision + 1, credential := c, status := "available", recoverAt := None);
      if antigravity { r := r.(cooldowns := map[]); }
      rows := rows[id := r];
      ok := true;
    }

    method MarkUpstreamKeyRevision(id: nat, revision: nat, status: string, recoverAt: Option<int>)
      modifies this
      ensures View() == Next(old(View()), MarkKey(id, revision, status, recoverAt))
    {
      if Live(View(), id, revision) {
        rows := rows[id := rows[id].(status := status, recoverAt := recoverAt)];
      }
    }

    method MarkAntigravityModel(id: nat, revision: nat, model: string, recoverAt: int)
      modifies this
      ensures View() == Next(old(View()), MarkModel(id, revision, model, recoverAt))
    {
      if Live(View(), id, revision) {
        var r := rows[id];
        rows := rows[id := r.(cooldowns := r.cooldowns[model := Cooldown(revision, recoverAt)])];
      }
    }

    method SetUpstreamKeyEnabled(id: nat, enabled: bool) returns (found: bool)
      modifies this
      ensures found == (id in old(rows) && !old(rows)[id].archived)
      ensures View() == Next(old(View()), SetEnabled(id, enabled))
    {
      if id !in rows || rows[id].archived { return false; }
      rows := rows[id := rows[id].(enabled := enabled, revision := rows[id].revision + 1)];
      found := true;
    }

    method ResetUpstreamKeyRuntime(id: nat) returns (found: bool)
      modifies this
      ensures found == (id in old(rows) && !old(rows)[id].archived && old(rows)[id].status != "auth_invalid")
      ensures View() == Next(old(View()), Reset(id))
    {
      if id !in rows || rows[id].archived || rows[id].status == "auth_invalid" { return false; }
      rows := rows[id := rows[id].(status := "available", recoverAt := None, revision := rows[id].revision + 1)];
      found := true;
    }

    method DeleteCredential(provider: nat, id: nat) returns (found: bool)
      modifies this
      ensures found == (Account(old(View()), id) && old(rows)[id].provider == provider)
      ensures View() == Next(old(View()), Delete(provider, id))
    {
      if !Account(View(), id) || rows[id].provider != provider { return false; }
      var r := rows[id];
      r := r.(cooldowns := map[], enabled := false, credential := r.credential.(secret := ""));
      rows := rows[id := r.(revision := r.revision + 1, archived := true)];
      found := true;
    }

    method SetProviderEnabled(provider: nat, enabled: bool) returns (found: bool)
      modifies this
      ensures found == Standing(old(View()), provider)
      ensures View() == Next(old(View()), SwitchProvider(provider, enabled))
    {
      if provider !in providers || providers[provider].archived { return false; }
      providers := providers[provider := providers[provider].(enabled := enabled)];
      BumpRevisions(provider);
      found := true;
    }

    /** The accounts' side of a provider edit. */
    method UpdateProvider(provider: nat) returns (found: bool)
      modifies this
      ensures found == (Standing(old(View()), provider) && old(providers)[provider].kind != Generic)
      ensures View() == Next(old(View()), EditProvider(provider))
    {
      if provider !in providers || providers[provider].archived || providers[provider].kind == Generic { return false; }
      BumpRevisions(provider);
      found := true;
    }

    method BumpRevisions(provider: nat)
      modifies `rows
      ensures rows == Bumped(old(rows), provider)
    {
      rows := map id | id in rows ::
        if rows[id].provider == provider && !rows[id].archived then rows[id].(revision := rows[id].revision + 1) else rows[id];
    }

    method DeleteProvider(provider: nat, inUse: bool, referenced: bool) returns (found: bool)
      modifies this
      ensures found == (Standing(old(View()), provider) && !inUse)
      ensures View() == Next(old(View()), DropProvider(provider, inUse, referenced))
    {
      if provider !in providers || providers[provider].archived || inUse { return false; }
      if referenced {
        providers := providers[provider := providers[provider].(enabled := false, archived := true)];
        rows := map id | id in rows :: if rows[id].provider == provider && !rows[id].archived then Cleared(rows[id]) else rows[id];
      } else {
        rows := map id | id in rows && rows[id].provider != provider :: rows[id];
        providers := providers - {provider};
      }
      found := true;
    }
  }
}
