/** Cleaning up request logs in batches, one transaction each. */
module Cleanup {
  const BATCH := 200

  datatype Mode = Prune | Delete

  datatype Request = Request(created: int, inProgress: bool, attemptInProgress: bool, pruned: bool, payload: string)

  type Requests = map<int, Request>

  /** What a clean-up of this period and mode may touch. */
  predicate Eligible(r: Request, from: int, to: int, mode: Mode) {
    from <= r.created < to && !r.inProgress && !r.attemptInProgress && (mode == Prune ==> !r.pruned)
  }

  function EligibleIDs(rs: Requests, from: int, to: int, mode: Mode): set<int> {
    set id | id in rs && Eligible(rs[id], from, to, mode)
  }

  /** What retention may touch; it looks at the request alone, not at its attempts. */
  predicate Outdated(r: Request, cutoff: int) {
    r.created < cutoff && !r.inProgress && !r.pruned
  }

  function OutdatedIDs(rs: Requests, cutoff: int): set<int> {
    set id | id in rs && Outdated(rs[id], cutoff)
  }

  function Pruned(r: Request): Request {
    r.(pruned := true, payload := "")
  }

  function PruneAll(rs: Requests, ids: set<int>): Requests {
    map id | id in rs :: if id in ids then Pruned(rs[id]) else rs[id]
  }

  function Cleaned(rs: Requests, ids: set<int>, mode: Mode): Requests {
    if mode == Delete then rs - ids else PruneAll(rs, ids)
  }

  function Smaller(a: nat, b: nat): nat {
    if a < b then a else b
  }

  /** The oldest ones of a set, at most a batch of them. */
  ghost predicate Oldest(rs: Requests, ids: set<int>, batch: set<int>) {
    && batch <= ids && |batch| == Smaller(BATCH, |ids|)
    && forall a, b | a in batch && b in ids - batch && a in rs && b in rs :: rs[a].created <= rs[b].created
  }

  method TakeBatch(rs: Requests, ids: set<int>) returns (batch: set<int>)
    requires ids <= rs.Keys
    ensures Oldest(rs, ids, batch)
  {
    batch := {};
    var rest := ids;
    while rest != {} && |batch| < BATCH
      invariant batch !! rest && batch + rest == ids && |batch| <= BATCH && |batch| + |rest| == |ids|
      invariant forall a, b | a in batch && b in rest :: rs[a].created <= rs[b].created
      decreases rest
    {
      var first := Earliest(rs, rest);
      rest := rest - {first};
      batch := batch + {first};
    }
    assert ids - batch == rest;
  }

  method Earliest(rs: Requests, ids: set<int>) returns (m: int)
    requires ids != {} && ids <= rs.Keys
    ensures m in ids && forall x | x in ids :: rs[m].created <= rs[x].created
  {
    Inhabited(ids);
    m :| m in ids;
    var rest := ids;
    while rest != {}
      invariant m in ids && rest <= ids && forall x | x in ids && x !in rest :: rs[m].created <= rs[x].created
      decreases rest
    {
      Inhabited(rest);
      var x :| x in rest;
      if rs[x].created < rs[m].created { m := x; }
      rest := rest - {x};
    }
  }

  lemma Inhabited(s: set<int>)
    ensures s == {} || exists x :: x in s
  {
    assert (forall x :: x !in s) ==> s == {};
  }

  /** Cleaning any part of the eligible requests leaves exactly the others eligible. */
  lemma CleanedRest(rs: Requests, from: int, to: int, mode: Mode, batch: set<int>)
    requires batch <= EligibleIDs(rs, from, to, mode)
    ensures EligibleIDs(Cleaned(rs, batch, mode), from, to, mode) == EligibleIDs(rs, from, to, mode) - batch
    ensures |EligibleIDs(rs, from, to, mode) - batch| == |EligibleIDs(rs, from, to, mode)| - |batch|
  {
    var all, after := EligibleIDs(rs, from, to, mode), Cleaned(rs, batch, mode);
    assert all == (all - batch) + batch;
    forall id ensures id in EligibleIDs(after, from, to, mode) <==> id in all - batch {
      assert id in batch ==> id in all;
    }
  }

  lemma PrunedRest(rs: Requests, cutoff: int, batch: set<int>)
    requires batch <= OutdatedIDs(rs, cutoff)
    ensures OutdatedIDs(PruneAll(rs, batch), cutoff) == OutdatedIDs(rs, cutoff) - batch
    ensures |OutdatedIDs(rs, cutoff) - batch| == |OutdatedIDs(rs, cutoff)| - |batch|
  {
    var all := OutdatedIDs(rs, cutoff);
    assert all == (all - batch) + batch;
    forall id ensures id in OutdatedIDs(PruneAll(rs, batch), cutoff) <==> id in all - batch {
      assert id in batch ==> id in all;
    }
  }

  /** Cleaning in two steps is cleaning at once. */
  lemma CleanedTwice(rs: Requests, a: set<int>, b: set<int>, mode: Mode)
    ensures Cleaned(Cleaned(rs, a, mode), b, mode) == Cleaned(rs, a + b, mode)
  {
    if mode == Delete {
      assert (rs - a) - b == rs - (a + b);
    } else {
      PrunedTwice(rs, a, b);
    }
  }

  lemma PrunedTwice(rs: Requests, a: set<int>, b: set<int>)
    ensures PruneAll(PruneAll(rs, a), b) == PruneAll(rs, a + b)
  {
    var x, y := PruneAll(PruneAll(rs, a), b), PruneAll(rs, a + b);
    assert x.Keys == y.Keys;
    forall id | id in rs ensures x[id] == y[id] { }
  }

  class Store {
    var requests: Requests
    var securityEvents: map<int, int> // id to creation time

    constructor (requests: Requests, securityEvents: map<int, int>)
      ensures this.requests == requests && this.securityEvents == securityEvents
    {
      this.requests, this.securityEvents := requests, securityEvents;
    }

    /** Cleans batch by batch; `works` tells whether the n-th transaction goes through. The count is always
        the number of requests actually cleaned; without failure it is the number of eligible requests
        that a preview reports and none remains, and everything that was not eligible is untouched. */
    method CleanupLogs(from: int, to: int, mode: Mode, works: nat -> bool) returns (count: nat, ok: bool, ghost done: set<int>)
      modifies `requests
      ensures count + |EligibleIDs(requests, from, to, mode)| == |EligibleIDs(old(requests), from, to, mode)|
      ensures ok ==> EligibleIDs(requests, from, to, mode) == {} && count == |EligibleIDs(old(requests), from, to, mode)|
      ensures done <= EligibleIDs(old(requests), from, to, mode) && |done| == count
      ensures requests == Cleaned(old(requests), done, mode)
      ensures (forall n :: works(n)) ==> ok
    {
      hide Eligible, Cleaned;
      count := 0;
      var n := 0;
      done := {};
      ghost var was := requests;
      ghost var all := EligibleIDs(was, from, to, mode);
      NothingCleaned(was, mode);
      while true
        invariant done <= all && |done| == count && requests == Cleaned(was, done, mode)
        invariant EligibleIDs(requests, from, to, mode) == all - done
        invariant count + |EligibleIDs(requests, from, to, mode)| == |all|
        decreases |EligibleIDs(requests, from, to, mode)|
      {
        if !works(n) { return count, false, done; }
        n := n + 1;
        var ids := EligibleIDs(requests, from, to, mode);
        var batch := TakeBatch(requests, ids);
        if |batch| == 0 {
          EmptyBatch(ids, |batch|);
          return count, true, done;
        }
        CleanedRest(requests, from, to, mode, batch);
        CleanedTwice(was, done, batch, mode);
        requests := Cleaned(requests, batch, mode);
        Disjoint(done, batch);
        done := done + batch;
        count := count + |batch|;
      }
    }

    method PruneBatch(cutoff: int) returns (batch: set<int>)
      modifies `requests
      ensures batch <= OutdatedIDs(old(requests), cutoff) && requests == PruneAll(old(requests), batch)
      ensures OutdatedIDs(requests, cutoff) == OutdatedIDs(old(requests), cutoff) - batch
      ensures |OutdatedIDs(requests, cutoff)| == |OutdatedIDs(old(requests), cutoff)| - |batch|
      ensures |batch| == 0 ==> OutdatedIDs(old(requests), cutoff) == {}
    {
      hide Outdated, PruneAll;
      var ids := OutdatedIDs(requests, cutoff);
      batch := TakeBatch(requests, ids);
      PrunedRest(requests, cutoff, batch);
      requests := PruneAll(requests, batch);
      if |batch| == 0 { EmptyBatch(ids, |batch|); }
    }

    method DropEvents(cutoff: int) returns (dropped: set<int>)
      modifies `securityEvents
      ensures dropped <= OldEvents(old(securityEvents), cutoff) && securityEvents == old(securityEvents) - dropped
      ensures |OldEvents(securityEvents, cutoff)| == |OldEvents(old(securityEvents), cutoff)| - |dropped|
      ensures |dropped| == 0 ==> OldEvents(old(securityEvents), cutoff) == {}
    {
      var events := OldEvents(securityEvents, cutoff);
      dropped := SomeOf(events);
      EventsRest(securityEvents, cutoff, dropped);
      securityEvents := securityEvents - dropped;
      if |dropped| == 0 { EmptyBatch(events, |dropped|); }
    }

    /** Retention: prunes outdated requests and drops outdated security events until a batch finds none;
        `works` tells whether the n-th transaction goes through. */
    method PruneLogs(cutoff: int, works: nat -> bool) returns (count: nat, ok: bool, ghost done: set<int>, ghost gone: set<int>)
      modifies this
      ensures done <= OutdatedIDs(old(requests), cutoff) && |done| == count && requests == PruneAll(old(requests), done)
      ensures gone <= OldEvents(old(securityEvents), cutoff) && securityEvents == old(securityEvents) - gone
      ensures ok ==> done == OutdatedIDs(old(requests), cutoff) && gone == OldEvents(old(securityEvents), cutoff)
      ensures forall id | id in old(requests) && old(requests)[id].attemptInProgress ::
        (Spared(old(requests)[id], cutoff) ==> requests[id] == old(requests)[id])
        && (ok && requests[id] == old(requests)[id] ==> Spared(old(requests)[id], cutoff))
      ensures (forall n :: works(n)) ==> ok
    {
      hide OutdatedIDs, PruneAll, OldEvents, Spared;
      count, done, gone := 0, {}, {};
      var n := 0;
      ghost var was, events := requests, securityEvents;
      NothingPruned(was);
      while true
        invariant done <= OutdatedIDs(was, cutoff) && |done| == count && requests == PruneAll(was, done)
        invariant OutdatedIDs(requests, cutoff) == OutdatedIDs(was, cutoff) - done
        invariant gone <= OldEvents(events, cutoff) && securityEvents == events - gone
        decreases |OutdatedIDs(requests, cutoff)| + |OldEvents(securityEvents, cutoff)|
      {
        if !works(n) {
          BusySpared(was, cutoff, done);
          return count, false, done, gone;
        }
        n := n + 1;
        var batch := PruneBatch(cutoff);
        var dropped := DropEvents(cutoff);
        PrunedTwice(was, done, batch);
        Disjoint(done, batch);
        EventsGone(events, gone, cutoff);
        done, gone := done + batch, gone + dropped;
        count := count + |batch|;
        if |batch| == 0 && |dropped| == 0 {
          assert done == OutdatedIDs(was, cutoff) && gone == OldEvents(events, cutoff);
          BusySpared(was, cutoff, done);
          return count, true, done, gone;
        }
      }
    }
  }

  lemma NothingPruned(rs: Requests)
    ensures PruneAll(rs, {}) == rs
  {
  }

  lemma EventsGone(events: map<int, int>, gone: set<int>, cutoff: int)
    requires gone <= OldEvents(events, cutoff)
    ensures OldEvents(events - gone, cutoff) == OldEvents(events, cutoff) - gone
  {
    EventsRest(events, cutoff, gone);
  }

  function OldEvents(events: map<int, int>, cutoff: int): set<int> {
    set id | id in events && events[id] < cutoff
  }

  /** At most a batch of them. */
  method SomeOf(ids: set<int>) returns (some: set<int>)
    ensures some <= ids && |some| == Smaller(BATCH, |ids|)
  {
    some := {};
    var rest := ids;
    while rest != {} && |some| < BATCH
      invariant some !! rest && some + rest == ids && |some| <= BATCH && |some| + |rest| == |ids|
      decreases rest
    {
      Inhabited(rest);
      var x :| x in rest;
      rest := rest - {x};
      some := some + {x};
    }
  }

  lemma EventsRest(events: map<int, int>, cutoff: int, dropped: set<int>)
    requires dropped <= OldEvents(events, cutoff)
    ensures OldEvents(events - dropped, cutoff) == OldEvents(events, cutoff) - dropped
    ensures |OldEvents(events, cutoff) - dropped| == |OldEvents(events, cutoff)| - |dropped|
  {
    var all := OldEvents(events, cutoff);
    assert all == (all - dropped) + dropped;
  }

  lemma NothingCleaned(rs: Requests, mode: Mode)
    ensures Cleaned(rs, {}, mode) == rs
  {
  }

  lemma EmptyBatch(ids: set<int>, n: nat)
    requires n == 0 == Smaller(BATCH, |ids|)
    ensures ids == {}
  {
  }

  lemma Disjoint(a: set<int>, b: set<int>)
    requires a !! b
    ensures |a + b| == |a| + |b|
  {
  }

  /** A request in progress, or with an attempt in progress, survives any clean-up as it is. */
  lemma BusyUntouched(rs: Requests, from: int, to: int, mode: Mode, done: set<int>, id: int)
    requires done <= EligibleIDs(rs, from, to, mode) && id in rs && (rs[id].inProgress || rs[id].attemptInProgress)
    ensures id in Cleaned(rs, done, mode) && Cleaned(rs, done, mode)[id] == rs[id]
  {
  }

  /** What saves a request from retention: its age, its own state, or that it was pruned before. */
  predicate Spared(r: Request, cutoff: int) {
    r.created >= cutoff || r.inProgress || r.pruned
  }

  /** Retention spares a request with an attempt in progress exactly if the request itself is young, in
      progress or pruned; the attempt makes no difference. */
  lemma RetentionSparesIff(rs: Requests, cutoff: int, id: int)
    requires id in rs && rs[id].attemptInProgress
    ensures PruneAll(rs, OutdatedIDs(rs, cutoff))[id] == rs[id] <==> Spared(rs[id], cutoff)
  {
    assert id in OutdatedIDs(rs, cutoff) <==> Outdated(rs[id], cutoff);
  }

  /** The same at any point of a retention run. */
  lemma BusySpared(rs: Requests, cutoff: int, done: set<int>)
    requires done <= OutdatedIDs(rs, cutoff)
    ensures forall id | id in rs && rs[id].attemptInProgress ::
      (Spared(rs[id], cutoff) ==> PruneAll(rs, done)[id] == rs[id])
      && (done == OutdatedIDs(rs, cutoff) && PruneAll(rs, done)[id] == rs[id] ==> Spared(rs[id], cutoff))
  {
    forall id | id in rs && rs[id].attemptInProgress && done == OutdatedIDs(rs, cutoff)
      ensures PruneAll(rs, done)[id] == rs[id] <==> Spared(rs[id], cutoff) {
      RetentionSparesIff(rs, cutoff, id);
    }
  }

  /** A finished request with an attempt in progress that retention takes. */
  lemma RetentionTakesBusyAttempt()
    ensures var rs: Requests := map[1 := Request(0, false, true, false, "body")];
      rs[1].attemptInProgress && PruneAll(rs, OutdatedIDs(rs, 1))[1] != rs[1]
  {
    RetentionSparesIff(map[1 := Request(0, false, true, false, "body")], 1, 1);
  }
}
