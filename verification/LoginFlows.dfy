/** OAuth login flows. Every step is one region under the manager's lock, and the steps of browser
    callbacks, manual submissions, cancellations, time-outs and finished exchanges interleave freely. */
module LoginFlows {
  const GRACE := 60

  datatype Phase = Pending | Exchanging | Succeeded | Failed | Expired | Cancelled

  /** One login. `exchanges` and `saves` count the token exchanges started and the accounts saved for it;
      `running` says that a started exchange has not reported back. */
  datatype Flow = Flow(
    owner: string, provider: int, expiresAt: int, phase: Phase,
    state: string, verifier: string, url: string, armed: bool, issuer: string,
    over: bool, // the context is done, by time or by cancellation
    running: bool, exchanges: nat, saves: nat)

  /** All flows ever started; dropping a flow from the registry does not stop it. */
  datatype State = State(flows: map<string, Flow>, registered: set<string>)

  datatype Query = Query(states: seq<string>, issuers: seq<string>, errors: seq<string>, codes: seq<string>)

  datatype Secrets = Secrets(state: string, verifier: string, url: string)

  datatype Action =
    | Start(id: string, owner: string, provider: int, now: int, lifetime: nat, secrets: Secrets, issuer: string)
    | Refused(owner: string, now: int, swept: set<string>)
    | Callback(id: string, query: Query)
    | Submit(id: string, owner: string, provider: int, now: int, query: Query)
    | Completed(id: string, exchanged: bool, savedOk: bool)
    | ContextDone(id: string)
    | Reap(id: string)
    | ServerStopped(id: string)
    | Cancel(id: string, owner: string, provider: int)
    | CancelOwner(owner: string)

  predicate Active(f: Flow) {
    f.phase == Pending || f.phase == Exchanging
  }

  predicate Stale(f: Flow, now: int) {
    now > f.expiresAt + GRACE
  }

  /** Ends a flow: secrets are wiped and the context is cancelled. */
  function Finish(f: Flow, phase: Phase): Flow {
    f.(phase := phase, state := "", verifier := "", url := "", armed := false, over := true)
  }

  function First(values: seq<string>): string {
    if values == [] then "" else values[0]
  }

  /** The result of an authorization, however it arrived. */
  function Accept(f: Flow, q: Query): Flow {
    if f.phase != Pending || f.over then f
    else if |q.states| != 1 || f.state == "" || q.states[0] != f.state then f
    else if |q.issuers| > 1 || |q.errors| > 1 || |q.codes| > 1 then f
    else if First(q.issuers) != "" && (f.issuer == "" || First(q.issuers) != f.issuer) then f
    else if First(q.errors) != "" then (if First(q.codes) != "" then f else Finish(f, Failed))
    else if First(q.codes) == "" then f
    else f.(phase := Exchanging, running := true, exchanges := f.exchanges + 1)
  }

  /** A started exchange reports back; an account is saved only for a flow that is still wanted. */
  function Complete(f: Flow, exchanged: bool, savedOk: bool): Flow {
    var g := f.(running := false);
    if !Active(f) then g
    else if f.over then Finish(g, Expired)
    else if !exchanged then Finish(g, Failed)
    else Finish(g.(saves := g.saves + 1), if savedOk then Succeeded else Failed)
  }

  function Stopped(f: Flow, phase: Phase): Flow {
    if Active(f) then Finish(f, phase) else f
  }

  // ---- the steps ----

  predicate Enabled(s: State, a: Action) {
    match a
    case Start(id, owner, _, now, _, secrets, _) =>
      && id !in s.flows && id !in s.registered && secrets.state != ""
      && forall k | k in s.registered && k in s.flows :: Stale(s.flows[k], now) || !(s.flows[k].owner == owner && Active(s.flows[k]))
    case Refused(owner, now, swept) =>
      swept <= s.registered && forall k | k in swept && k in s.flows :: Stale(s.flows[k], now)
    case Callback(id, _) => id in s.flows
    case Submit(id, owner, provider, now, _) =>
      id in s.registered && id in s.flows && s.flows[id].owner == owner && s.flows[id].provider == provider && !Stale(s.flows[id], now)
    case Completed(id, _, _) => id in s.flows && s.flows[id].running
    case ContextDone(id) => id in s.flows
    case Reap(id) => id in s.flows && s.flows[id].over
    case ServerStopped(id) => id in s.flows
    case Cancel(id, owner, provider) =>
      id in s.registered && id in s.flows && s.flows[id].owner == owner && s.flows[id].provider == provider
    case CancelOwner(_) => true
  }

  function NewFlow(owner: string, provider: int, expiresAt: int, secrets: Secrets, issuer: string): Flow {
    Flow(owner, provider, expiresAt, Pending, secrets.state, secrets.verifier, secrets.url, true, issuer, false, false, 0, 0)
  }

  function CancelledBy(f: Flow, owner: string): Flow {
    if owner == "" || f.owner == owner then Stopped(f, Cancelled) else f
  }

  function Next(s: State, a: Action): State
    requires Enabled(s, a)
  {
    match a
    case Start(id, owner, provider, now, lifetime, secrets, issuer) =>
      var kept := set k | k in s.registered && !(k in s.flows && Stale(s.flows[k], now));
      State(s.flows[id := NewFlow(owner, provider, now + lifetime, secrets, issuer)], kept + {id})
    case Refused(_, _, swept) => s.(registered := s.registered - swept)
    case Callback(id, q) => s.(flows := s.flows[id := Accept(s.flows[id], q)])
    case Submit(id, _, _, _, q) => s.(flows := s.flows[id := Accept(s.flows[id], q)])
    case Completed(id, exchanged, savedOk) => s.(flows := s.flows[id := Complete(s.flows[id], exchanged, savedOk)])
    case ContextDone(id) => s.(flows := s.flows[id := s.flows[id].(over := true)])
    case Reap(id) => s.(flows := s.flows[id := Stopped(s.flows[id], Expired)])
    case ServerStopped(id) => s.(flows := s.flows[id := Stopped(s.flows[id], Failed)])
    case Cancel(id, _, _) => s.(flows := s.flows[id := Stopped(s.flows[id], Cancelled)])
    case CancelOwner(owner) =>
      s.(flows := map k | k in s.flows :: if k in s.registered then CancelledBy(s.flows[k], owner) else s.flows[k])
  }

  // ---- safety ----

  /** What one flow never violates. */
  predicate FlowOk(f: Flow) {
    && f.exchanges <= 1 && f.saves <= f.exchanges
    && (f.phase == Pending ==> f.exchanges == 0 && f.state != "")
    && (f.phase == Exchanging ==> f.running && f.saves == 0)
    && (f.running ==> f.exchanges == 1 && f.saves == 0)
    && (f.phase == Succeeded ==> f.saves == 1)
    && (!Active(f) ==> f.state == "" && f.verifier == "" && f.url == "" && !f.armed && f.over)
  }

  predicate Exclusive(s: State) {
    forall k, l | k in s.registered && l in s.registered && k in s.flows && l in s.flows && k != l ::
      Active(s.flows[k]) && Active(s.flows[l]) ==> s.flows[k].owner != s.flows[l].owner
  }

  predicate Safe(s: State) {
    (forall k | k in s.flows :: FlowOk(s.flows[k])) && Exclusive(s)
  }

  /** How one step may change one flow. */
  predicate Lives(f: Flow, g: Flow) {
    && g.owner == f.owner && g.exchanges >= f.exchanges && g.saves >= f.saves
    && (!Active(f) ==> g.phase == f.phase && g.saves == f.saves && g.exchanges == f.exchanges)
    && (f.phase == Exchanging ==> g.phase != Pending)
    && (g.saves > f.saves ==> f.phase == Exchanging && !f.over && !Active(g))
  }

  lemma AcceptLives(f: Flow, q: Query)
    requires FlowOk(f)
    ensures FlowOk(Accept(f, q)) && Lives(f, Accept(f, q))
  {
  }

  lemma CompleteLives(f: Flow, exchanged: bool, savedOk: bool)
    requires FlowOk(f) && f.running
    ensures FlowOk(Complete(f, exchanged, savedOk)) && Lives(f, Complete(f, exchanged, savedOk))
  {
  }

  lemma StoppedLives(f: Flow, phase: Phase)
    requires FlowOk(f) && phase in {Failed, Expired, Cancelled}
    ensures FlowOk(Stopped(f, phase)) && Lives(f, Stopped(f, phase))
  {
  }

  /** Every step keeps every flow in order, wakes no ended flow and never has two active registered
      flows of one owner. */
  lemma StepSafe(s: State, a: Action)
    requires Safe(s) && Enabled(s, a)
    ensures Safe(Next(s, a))
    ensures forall k | k in s.flows :: k in Next(s, a).flows && Lives(s.flows[k], Next(s, a).flows[k])
  {
    var t := Next(s, a);
    hide Accept, Complete, Finish, Exclusive;
    forall k | k in s.flows ensures k in t.flows && Lives(s.flows[k], t.flows[k]) && FlowOk(t.flows[k]) {
      var f := s.flows[k];
      match a {
        case Callback(id, q) => AcceptLives(f, q);
        case Submit(id, _, _, _, q) => AcceptLives(f, q);
        case Completed(id, x, y) => if k == id { CompleteLives(f, x, y); }
        case Reap(id) => StoppedLives(f, Expired);
        case ServerStopped(id) => StoppedLives(f, Failed);
        case Cancel(id, _, _) => StoppedLives(f, Cancelled);
        case CancelOwner(_) => StoppedLives(f, Cancelled);
        case _ =>
      }
    }
    StaysExclusive(s, a);
  }

  lemma StaysExclusive(s: State, a: Action)
    requires Safe(s) && Enabled(s, a)
    requires forall k | k in s.flows :: k in Next(s, a).flows && Lives(s.flows[k], Next(s, a).flows[k])
    ensures Exclusive(Next(s, a))
  {
    var t := Next(s, a);
    hide Accept, Complete, Finish, FlowOk, Stopped;
    forall k, l | k in t.registered && l in t.registered && k in t.flows && l in t.flows && k != l
      ensures Active(t.flows[k]) && Active(t.flows[l]) ==> t.flows[k].owner != t.flows[l].owner
    {
      if k in s.flows && l in s.flows {
        assert Lives(s.flows[k], t.flows[k]) && Lives(s.flows[l], t.flows[l]);
        assert k in s.registered && l in s.registered;
      }
    }
  }

  // ---- whole runs ----

  ghost predicate Runs(s: State, actions: seq<Action>)
    decreases |actions|
  {
    actions == [] || (Enabled(s, actions[0]) && Runs(Next(s, actions[0]), actions[1..]))
  }

  ghost function Final(s: State, actions: seq<Action>): State
    requires Runs(s, actions)
    decreases |actions|
  {
    if actions == [] then s else Final(Next(s, actions[0]), actions[1..])
  }

  /** Main result: over every interleaving from an empty manager, each flow starts at most one exchange
      and saves at most one account, its secrets are gone once it ended, and an owner never has two
      active registered flows. */
  lemma {:induction false} RunSafe(s: State, actions: seq<Action>)
    requires Safe(s) && Runs(s, actions)
    ensures Safe(Final(s, actions))
    decreases |actions|
  {
    if actions != [] {
      StepSafe(s, actions[0]);
      hide Safe, Enabled, Next;
      RunSafe(Next(s, actions[0]), actions[1..]);
    }
  }

  lemma ManagerSafe(actions: seq<Action>)
    requires Runs(State(map[], {}), actions)
    ensures Safe(Final(State(map[], {}), actions))
  {
    RunSafe(State(map[], {}), actions);
  }

  /** An ended flow stays as it ended: nothing that happens later saves an account or starts an exchange
      for it. */
  lemma {:induction false} EndedForever(s: State, actions: seq<Action>, id: string)
    requires Safe(s) && Runs(s, actions) && id in s.flows && !Active(s.flows[id])
    ensures id in Final(s, actions).flows
    ensures var f, g := s.flows[id], Final(s, actions).flows[id];
      g.phase == f.phase && g.saves == f.saves && g.exchanges == f.exchanges
    decreases |actions|
  {
    if actions != [] {
      StepSafe(s, actions[0]);
      var t := Next(s, actions[0]);
      hide Safe, Enabled, Next, Stale;
      EndedForever(t, actions[1..], id);
    }
  }

  /** An exchange starts only for a pending, unexpired flow, on a result with exactly its own state, from
      its own issuer if the result names one, with a code and without an error. */
  lemma ExchangeNeedsOwnState(f: Flow, q: Query)
    ensures Accept(f, q).exchanges > f.exchanges <==>
      && f.phase == Pending && !f.over && f.state != "" && q.states == [f.state]
      && |q.issuers| <= 1 && (First(q.issuers) != "" ==> First(q.issuers) == f.issuer)
      && |q.errors| <= 1 && First(q.errors) == "" && |q.codes| == 1 && q.codes[0] != ""
  {
  }

  // ---- a login that nothing disturbs ----

  /** The step ends no flow `id` of this owner. */
  predicate Harmless(a: Action, id: string, owner: string) {
    match a
    case Completed(x, _, _) => x != id
    case ContextDone(x) => x != id
    case Reap(x) => x != id
    case ServerStopped(x) => x != id
    case Cancel(x, _, _) => x != id
    case CancelOwner(o) => o != "" && o != owner
    case _ => true
  }

  predicate Exchanges(f: Flow) {
    f.phase == Exchanging && !f.over && f.running
  }

  lemma HarmlessKeeps(s: State, a: Action, id: string)
    requires Enabled(s, a) && id in s.flows && Exchanges(s.flows[id]) && Harmless(a, id, s.flows[id].owner)
    ensures id in Next(s, a).flows && Next(s, a).flows[id] == s.flows[id]
  {
  }

  lemma {:induction false} StillExchanging(s: State, actions: seq<Action>, id: string)
    requires Runs(s, actions) && id in s.flows && Exchanges(s.flows[id])
    requires forall a | a in actions :: Harmless(a, id, s.flows[id].owner)
    ensures id in Final(s, actions).flows && Final(s, actions).flows[id] == s.flows[id]
    decreases |actions|
  {
    if actions != [] {
      HarmlessKeeps(s, actions[0], id);
      hide Enabled, Next, Harmless;
      StillExchanging(Next(s, actions[0]), actions[1..], id);
    }
  }

  /** Main result: a login that gets the result of its own authorization and that nobody ends meanwhile
      saves its account exactly once when the exchange works out, whatever happens to other logins, and
      ends by how the save ended; without the exchange nothing is saved. */
  lemma LoginCompletes(s: State, id: string, q: Query, between: seq<Action>, exchanged: bool, savedOk: bool)
    requires id in s.flows && Accept(s.flows[id], q).exchanges > s.flows[id].exchanges
    requires Runs(Next(s, Callback(id, q)), between)
    requires forall a | a in between :: Harmless(a, id, s.flows[id].owner)
    ensures var t := Final(Next(s, Callback(id, q)), between);
      && id in t.flows && Enabled(t, Completed(id, exchanged, savedOk))
      && var g := Next(t, Completed(id, exchanged, savedOk)).flows[id];
      && g.saves == s.flows[id].saves + (if exchanged then 1 else 0)
      && g.phase == (if exchanged && savedOk then Succeeded else Failed)
  {
    StillExchanging(Next(s, Callback(id, q)), between, id);
  }

  // ---- the manager object ----

  class Manager {
    var flows: map<string, Flow>
    var registered: set<string>

    ghost function View(): State
      reads this
    {
      State(flows, registered)
    }

    constructor ()
      ensures View() == State(map[], {})
    {
      flows, registered := map[], {};
    }

    /** Sweeps stale flows in any order, refuses an owner with an active one, and registers a new flow,
        unless the callback address or its listener cannot be `prepared`. */
    method Start(id: string, owner: string, provider: int, now: int, lifetime: nat, secrets: Secrets, issuer: string, prepared: bool)
        returns (ok: bool, ghost step: Action)
      requires id !in flows && id !in registered && secrets.state != "" && registered <= flows.Keys
      modifies this
      ensures Enabled(old(View()), step) && View() == Next(old(View()), step)
      ensures ok ==> prepared && step == Action.Start(id, owner, provider, now, lifetime, secrets, issuer)
      ensures !ok ==> step.Refused? && step.owner == owner
      ensures !ok && prepared ==> exists k :: k in registered && flows[k].owner == owner && Active(flows[k]) && !Stale(flows[k], now)
    {
      var rest := registered;
      while rest != {}
        invariant flows == old(flows) && rest <= old(registered) && registered <= old(registered)
        invariant rest <= registered
        invariant forall k | k in old(registered) && k !in registered :: Stale(flows[k], now)
        invariant forall k | k in registered && k !in rest ::
          !Stale(flows[k], now) && !(flows[k].owner == owner && Active(flows[k]))
        decreases rest
      {
        var k := Any(rest);
        rest := rest - {k};
        if now > flows[k].expiresAt + GRACE {
          registered := registered - {k};
          continue;
        }
        if flows[k].owner == owner && Active(flows[k]) {
          ghost var swept := old(registered) - registered;
          assert registered == old(registered) - swept;
          return false, Refused(owner, now, swept);
        }
      }
      if !prepared {
        ghost var swept := old(registered) - registered;
        assert registered == old(registered) - swept;
        return false, Refused(owner, now, swept);
      }
      step := Action.Start(id, owner, provider, now, lifetime, secrets, issuer);
      assert registered == set k | k in old(registered) && !(k in flows && Stale(flows[k], now));
      flows := flows[id := NewFlow(owner, provider, now + lifetime, secrets, issuer)];
      registered := registered + {id};
      ok := true;
    }

    /** Takes the result of an authorization; `start` tells the caller to run the exchange. */
    method AcceptLocked(id: string, q: Query) returns (start: bool)
      requires id in flows
      modifies `flows
      ensures View() == Next(old(View()), Callback(id, q))
      ensures start <==> flows[id].exchanges > old(flows[id].exchanges)
    {
      start := false;
      var f := flows[id];
      assert flows[id := f] == flows;
      if f.phase != Pending || f.over { return; }
      if |q.states| != 1 || f.state == "" || q.states[0] != f.state { return; }
      if |q.issuers| > 1 || |q.errors| > 1 || |q.codes| > 1 { return; }
      var issuer := First(q.issuers);
      if issuer != "" && (f.issuer == "" || issuer != f.issuer) { return; }
      if First(q.errors) != "" {
        if First(q.codes) == "" { flows := flows[id := Finish(f, Failed)]; }
        return;
      }
      if First(q.codes) == "" { return; }
      flows := flows[id := f.(phase := Exchanging, running := true, exchanges := f.exchanges + 1)];
      start := true;
    }

    method CompleteLocked(id: string, exchanged: bool, savedOk: bool)
      requires id in flows && flows[id].running
      modifies `flows
      ensures View() == Next(old(View()), Completed(id, exchanged, savedOk))
    {
      var f := flows[id].(running := false);
      if !Active(f) {
        flows := flows[id := f];
      } else if f.over {
        flows := flows[id := Finish(f, Expired)];
      } else if !exchanged {
        flows := flows[id := Finish(f, Failed)];
      } else {
        flows := flows[id := Finish(f.(saves := f.saves + 1), if savedOk then Succeeded else Failed)];
      }
    }

    method CancelAll(owner: string)
      requires registered <= flows.Keys
      modifies `flows
      ensures View() == Next(old(View()), CancelOwner(owner))
    {
      var rest := registered;
      while rest != {}
        invariant rest <= registered && flows.Keys == old(flows.Keys)
        invariant forall k | k in flows ::
          flows[k] == if k in registered && k !in rest then CancelledBy(old(flows)[k], owner) else old(flows)[k]
        decreases rest
      {
        var k := Any(rest);
        rest := rest - {k};
        var f := flows[k];
        if (owner == "" || f.owner == owner) && Active(f) {
          flows := flows[k := Finish(f, Cancelled)];
        }
      }
    }
  }

  method Any(s: set<string>) returns (x: string)
    requires s != {}
    ensures x in s
  {
    assert (forall y :: y !in s) ==> s == {};
    x :| x in s;
  }
}
