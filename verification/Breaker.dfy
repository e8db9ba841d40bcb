/** The circuit breaker of each candidate: three failures cool a candidate down for thirty seconds, then
    one probe is let through. Revisions keep reports about an old configuration from touching a new one. */
module Breaker {
  import opened Wrappers

  const COOLDOWN := 30

  datatype Failing = Failing(revision: nat, count: nat, until: Option<int>, probing: bool)

  type Candidates = map<int, Failing>

  /** Reports and questions about candidates, with the answer a question got. */
  datatype Event =
    | Asked(candidate: int, revision: nat, now: int, admitted: bool)
    | Failed(candidate: int, revision: nat, now: int)
    | Succeeded(candidate: int, revision: nat)

  // ---- the object ----

  class Handler {
    var candidates: Candidates

    constructor ()
      ensures candidates == map[]
    {
      candidates := map[];
    }

    method CandidateReady(id: int, revision: nat, now: int) returns (ready: bool)
      modifies this
      ensures ready == Admits(old(candidates), id, revision, now)
      ensures candidates == Next(old(candidates), Asked(id, revision, now, ready))
    {
      if id !in candidates || candidates[id].revision < revision {
        candidates := candidates - {id};
        return true;
      }
      var state := candidates[id];
      if state.revision > revision || state.until == None {
        return true;
      }
      if now < state.until.value || state.probing {
        return false;
      }
      candidates := candidates[id := state.(probing := true)];
      ready := true;
    }

    method CandidateFailed(id: int, revision: nat, now: int)
      modifies this
      ensures candidates == Next(old(candidates), Failed(id, revision, now))
    {
      var state := if id in candidates then candidates[id] else Failing(0, 0, None, false);
      if state.revision > revision {
        return;
      }
      if state.revision < revision {
        state := Failing(revision, 0, None, false);
      }
      state := state.(count := state.count + 1);
      if state.count >= 3 {
        state := state.(until := Some(now + COOLDOWN), probing := false);
      }
      candidates := candidates[id := state];
    }

    method CandidateSucceeded(id: int, revision: nat)
      modifies this
      ensures candidates == Next(old(candidates), Succeeded(id, revision))
    {
      if id in candidates && candidates[id].revision == revision {
        candidates := candidates - {id};
      }
    }
  }

  // ---- the steps as functions ----

  predicate Admits(s: Candidates, id: int, revision: nat, now: int) {
    id in s && s[id].revision == revision && s[id].until.Some? ==> s[id].until.value <= now && !s[id].probing
  }

  function Counted(f: Failing, revision: nat, now: int): Failing
    requires f.revision <= revision
  {
    var n := if f.revision < revision then 1 else f.count + 1;
    if n >= 3 then Failing(revision, n, Some(now + COOLDOWN), false)
    else Failing(revision, n, if f.revision < revision then None else f.until, f.revision == revision && f.probing)
  }

  function Next(s: Candidates, e: Event): Candidates {
    match e
    case Asked(id, revision, now, admitted) =>
      if id !in s || s[id].revision < revision then s - {id}
      else if s[id].revision == revision && s[id].until.Some? && admitted then s[id := s[id].(probing := true)]
      else s
    case Failed(id, revision, now) =>
      var f := if id in s then s[id] else Failing(0, 0, None, false);
      if f.revision > revision then s else s[id := Counted(f, revision, now)]
    case Succeeded(id, revision) =>
      if id in s && s[id].revision == revision then s - {id} else s
  }

  // ---- histories ----

  function After(h: seq<Event>): Candidates {
    if h == [] then map[] else Next(After(h[..|h| - 1]), h[|h| - 1])
  }

  /** Every question got the answer the breaker gives. */
  predicate Answered(h: seq<Event>) {
    h == [] ||
    (Answered(h[..|h| - 1]) &&
     var e := h[|h| - 1];
     e.Asked? ==> e.admitted == Admits(After(h[..|h| - 1]), e.candidate, e.revision, e.now))
  }

  /** Success at this revision, or any question or failure about a newer one, starts the count anew. */
  predicate Resets(e: Event, id: int, revision: nat) {
    e.candidate == id && if e.Succeeded? then e.revision == revision else e.revision > revision
  }

  predicate FailureOf(e: Event, id: int, revision: nat) {
    e.Failed? && e.candidate == id && e.revision == revision
  }

  /** Failures reported at this revision since the last reset. */
  function Failures(h: seq<Event>, id: int, revision: nat): nat {
    if h == [] || Resets(h[|h| - 1], id, revision) then 0
    else Failures(h[..|h| - 1], id, revision) + if FailureOf(h[|h| - 1], id, revision) then 1 else 0
  }

  /** When the last of them was reported. */
  function LastFailure(h: seq<Event>, id: int, revision: nat): Option<int> {
    if h == [] || Resets(h[|h| - 1], id, revision) then None
    else if FailureOf(h[|h| - 1], id, revision) then Some(h[|h| - 1].now)
    else LastFailure(h[..|h| - 1], id, revision)
  }

  /** A question at this revision was admitted since the last failure and the last reset. */
  predicate AdmittedSince(h: seq<Event>, id: int, revision: nat) {
    if h == [] || Resets(h[|h| - 1], id, revision) || FailureOf(h[|h| - 1], id, revision) then false
    else
      var e := h[|h| - 1];
      (e.Asked? && e.candidate == id && e.revision == revision && e.admitted) || AdmittedSince(h[..|h| - 1], id, revision)
  }

  /** The revision whose failures are being counted: the newest that failed, until it succeeds or a newer
      one asks. */
  function Counting(h: seq<Event>, id: int): Option<nat> {
    if h == [] then None
    else
      var was, e := Counting(h[..|h| - 1], id), h[|h| - 1];
      if e.candidate != id then was
      else match e
        case Failed(_, revision, _) => if was.Some? && was.value > revision then was else Some(revision)
        case Asked(_, revision, _, _) => if was.Some? && was.value < revision then None else was
        case Succeeded(_, revision) => if was == Some(revision) then None else was
  }

  /** The failures at a revision while it is the one that counts. */
  function Strikes(h: seq<Event>, id: int, revision: nat): nat {
    if h == [] || Counting(h, id) != Some(revision) then 0
    else Strikes(h[..|h| - 1], id, revision) + if FailureOf(h[|h| - 1], id, revision) then 1 else 0
  }

  lemma {:induction false} StrikesWithin(h: seq<Event>, id: int, revision: nat)
    ensures Strikes(h, id, revision) <= Failures(h, id, revision)
  {
    if h != [] && Counting(h, id) == Some(revision) {
      StrikesWithin(h[..|h| - 1], id, revision);
    }
  }

  /** What the stored state of a candidate says about its history. */
  predicate Recorded(h: seq<Event>, id: int, f: Failing) {
    && Counting(h, id) == Some(f.revision) && f.count == Strikes(h, id, f.revision) > 0 && (f.until.Some? <==> f.count >= 3)
    && (f.until.Some? ==> LastFailure(h, id, f.revision) == Some(f.until.value - COOLDOWN))
    && (if f.until.Some? then f.probing <==> AdmittedSince(h, id, f.revision) else !f.probing)
  }

  lemma {:induction false} HistoryRecorded(h: seq<Event>, id: int)
    requires Answered(h)
    ensures if id in After(h) then Recorded(h, id, After(h)[id]) else Counting(h, id) == None
  {
    if h != [] {
      HistoryRecorded(h[..|h| - 1], id);
    }
  }

  /** Main result: over every history a request is refused if and only if three failures have been counted
      at its revision and the last of them is less than thirty seconds old or a probe is out. */
  lemma RefusedIff(h: seq<Event>, id: int, revision: nat, now: int)
    requires Answered(h)
    ensures Strikes(h, id, revision) >= 3 ==> LastFailure(h, id, revision).Some?
    ensures !Admits(After(h), id, revision, now) <==>
      Strikes(h, id, revision) >= 3
      && (now < LastFailure(h, id, revision).value + COOLDOWN || AdmittedSince(h, id, revision))
  {
    HistoryRecorded(h, id);
  }

  lemma {:induction false} FailuresCount(h: seq<Event>, more: seq<Event>, id: int, revision: nat)
    requires Counting(h, id) == None || Counting(h, id).value <= revision
    requires forall e | e in more :: !Resets(e, id, revision)
    ensures Counting(h + more, id) == None || Counting(h + more, id).value <= revision
    ensures Failures(more, id, revision) > 0 ==>
      Counting(h + more, id) == Some(revision) && LastFailure(h + more, id, revision) == LastFailure(more, id, revision)
    ensures Failures(more, id, revision) > 0 <==> LastFailure(more, id, revision).Some?
    ensures Strikes(h + more, id, revision) >= Failures(more, id, revision)
  {
    if more == [] {
      assert h + more == h;
    } else {
      var front, e := more[..|more| - 1], more[|more| - 1];
      assert (h + more)[..|h + more| - 1] == h + front && e in more && e == (h + more)[|h + more| - 1];
      FailuresCount(h, front, id, revision);
    }
  }

  /** Main result: three failures in a row open the breaker. Once no newer revision is being counted, and
      as long as nothing resets this one, three more failures at it have every request at it refused for
      thirty seconds from the last. */
  lemma ThreeFailuresRefuse(h: seq<Event>, more: seq<Event>, id: int, revision: nat, now: int)
    requires Answered(h + more)
    requires Counting(h, id) == None || Counting(h, id).value <= revision
    requires forall e | e in more :: !Resets(e, id, revision)
    requires Failures(more, id, revision) >= 3
    ensures LastFailure(more, id, revision).Some?
    ensures now < LastFailure(more, id, revision).value + COOLDOWN ==> !Admits(After(h + more), id, revision, now)
  {
    FailuresCount(h, more, id, revision);
    RefusedIff(h + more, id, revision, now);
  }

  /** While a newer revision is being counted, nobody asking for an older one is refused. */
  lemma NewerCounts(h: seq<Event>, id: int, revision: nat, now: int)
    requires Answered(h) && Counting(h, id).Some? && Counting(h, id).value > revision
    ensures Admits(After(h), id, revision, now)
  {
    HistoryRecorded(h, id);
  }

  /** A request is refused only after at least three failures at its own revision since the
      last reset, while the last of them is less than thirty seconds old or a probe is out. */
  lemma RefusedOnlyIf(h: seq<Event>, id: int, revision: nat, now: int)
    requires Answered(h) && !Admits(After(h), id, revision, now)
    ensures Failures(h, id, revision) >= 3
    ensures (LastFailure(h, id, revision).Some? && now < LastFailure(h, id, revision).value + COOLDOWN)
            || AdmittedSince(h, id, revision)
  {
    RefusedIff(h, id, revision, now);
    StrikesWithin(h, id, revision);
  }

  /** An event that ends a probe at this revision: an outcome at it, or news about a newer one. */
  predicate EndsProbe(e: Event, id: int, revision: nat) {
    Resets(e, id, revision) || FailureOf(e, id, revision)
  }

  lemma {:induction false} ProbeHolds(h: seq<Event>, id: int, revision: nat, more: seq<Event>)
    requires Answered(h + more) && forall e | e in more :: !EndsProbe(e, id, revision)
    requires id in After(h) && After(h)[id].revision == revision && After(h)[id].until.Some? && After(h)[id].probing
    ensures id in After(h + more) && After(h + more)[id] == After(h)[id]
  {
    if more == [] {
      assert h + more == h;
    } else {
      var front, e := more[..|more| - 1], more[|more| - 1];
      assert (h + more)[..|h + more| - 1] == h + front;
      ProbeHolds(h, id, revision, front);
      assert e in more && e == (h + more)[|h + more| - 1];
    }
  }

  /** Main result: between the grant of a probe and the next outcome at its revision, or news about a
      newer one, no other request at that revision is admitted. */
  lemma OneProbe(h: seq<Event>, id: int, revision: nat, now: int, more: seq<Event>, later: int)
    requires Answered(h + [Asked(id, revision, now, true)] + more) && Strikes(h, id, revision) >= 3
    requires forall e | e in more :: !EndsProbe(e, id, revision)
    ensures !Admits(After(h + [Asked(id, revision, now, true)] + more), id, revision, later)
  {
    var g := h + [Asked(id, revision, now, true)];
    assert g[..|g| - 1] == h;
    AnsweredFront(g, more);
    HistoryRecorded(h, id);
    ProbeHolds(g, id, revision, more);
  }

  lemma {:induction false} AnsweredFront(h: seq<Event>, more: seq<Event>)
    requires Answered(h + more)
    ensures Answered(h)
  {
    if more == [] {
      assert h + more == h;
    } else {
      assert (h + more)[..|h + more| - 1] == h + more[..|more| - 1];
      AnsweredFront(h, more[..|more| - 1]);
    }
  }

  /** Reports and questions about an older revision than the stored one change nothing. */
  lemma StaleIgnored(s: Candidates, e: Event)
    requires e.candidate in s && e.revision < s[e.candidate].revision
    ensures Next(s, e) == s && Admits(s, e.candidate, e.revision, if e.Succeeded? then 0 else e.now)
  {
  }

  /** Candidates do not influence each other. */
  lemma OthersUntouched(s: Candidates, e: Event, id: int)
    requires id != e.candidate
    ensures id in Next(s, e) <==> id in s
    ensures id in s ==> Next(s, e)[id] == s[id]
  {
  }
}
