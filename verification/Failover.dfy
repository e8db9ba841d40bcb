/** The failover loop of one request and the commit boundary of its response. What upstreams, the
    client and the request log do is an input; what the client was sent and which upstream calls were
    started is recorded. */
module Failover {
  import opened Wrappers
  import opened Routes
  import opened Delivery

  datatype Attempt = Attempt(position: nat, route: nat)

  /** What a pass asks the loop to do; `wait` asks for the back-off first, as skipping does. */
  datatype Verdict = Return | NextRoute(wait: bool) | SkipCandidate | Again(revision: nat)

  predicate ShouldTryNextKey(status: int) {
    status == 401 || status == 403 || status == 402 || status == 429
  }

  predicate Missing(code: string) {
    code == "model_not_found" || code == "model_not_supported"
  }

  predicate IsOAuth(r: Route) {
    OAuth(r.kind)
  }

  datatype Status = Completed | Failed | Cancelled

  /** What a Codex response left behind. */
  datatype CodexEnd = Fine | Finished | Faulty(failure: Option<Failure>)

  // ---- the response to the client ----

  class Exchange {
    const streaming: bool
    const ticking: bool
    var committed: bool
    var pieces: seq<Piece>
    var attempts: seq<Attempt>

    constructor (streaming: bool, ticking: bool)
      ensures !committed && pieces == [] && attempts == []
      ensures this.streaming == streaming && this.ticking == ticking
    {
      this.streaming, this.ticking := streaming, ticking;
      committed, pieces, attempts := false, [], [];
    }

    ghost predicate Valid()
      reads this
    {
      // before the commit nothing was streamed
      streaming && !committed ==> pieces == []
    }

    method Write(body: seq<Piece>, take: Take) returns (ok: bool)
      requires Valid() && streaming
      modifies `committed, `pieces
      ensures Valid() && committed && ok == take.Took?
      ensures pieces == old(pieces) + Taken(body, take)
    {
      if !committed {
        committed := true;
      }
      pieces := pieces + Taken(body, take);
      ok := take == Took;
    }

    method WriteHeartbeat(take: Take) returns (ok: bool)
      requires Valid() && streaming
      modifies `committed, `pieces
      ensures Valid() && committed && ok == take.Took?
      ensures pieces == old(pieces) + Taken([Heartbeat], take)
    {
      ok := Write([Heartbeat], take);
    }

    /** Ends the exchange with an error: an event on a committed stream, a plain response otherwise. */
    method FinishError()
      requires Valid()
      modifies `committed, `pieces
      ensures Valid() && committed && pieces == old(pieces) + [ErrorPiece]
    {
      if streaming && committed {
        var _ := Write([ErrorPiece], Took);
      } else {
        committed := true;
        pieces := pieces + [ErrorPiece];
      }
    }

    /** Waiting for response headers; heartbeats commit the stream, a heartbeat the client does not take ends it. */
    method DoUpstream(v: Visit, beating: bool) returns (dial: Dial)
      requires Valid()
      modifies `committed, `pieces
      ensures Valid() && old(pieces) <= pieces && AllBeats(pieces[|old(pieces)|..])
      ensures dial == v.dial || (dial == Down(true) && exists b :: b in v.beats && b != Took)
    {
      ghost var was := pieces;
      if beating && streaming && ticking {
        for i := 0 to |v.beats|
          invariant Valid() && was <= pieces && AllBeats(pieces[|was|..])
        {
          assert v.beats[i] in v.beats;
          var ok := WriteHeartbeat(v.beats[i]);
          if !ok { return Down(true); }
        }
      }
      dial := v.dial;
    }

    /** Same protocol on both sides: lines go through as they are, from the first byte on. */
    method ProxyPassthrough(a: nat, incoming: seq<Incoming>) returns (status: Status)
      requires Valid() && streaming
      modifies `committed, `pieces
      ensures Valid() && committed && old(pieces) <= pieces && Payloads(pieces[|old(pieces)|..], a)
      ensures Delivered(pieces[|old(pieces)|..]) <= Raw(incoming)
      ensures match status
        case Completed => RawEnds(incoming) && Delivered(pieces[|old(pieces)|..]) == Raw(incoming)
        case Failed => !RawEnds(incoming)
        case Cancelled => Quit(incoming)
    {
      hide Payloads, RawEnds, Raw, Quit, Delivered, RawSoFar, Added, Chunked;
      ghost var was, more := pieces, [];
      if !committed {
        committed := true;
      }
      Unread(a, incoming);
      for i := 0 to |incoming|
        invariant Valid() && committed && pieces == was + more && RawSoFar(a, more, incoming, i)
      {
        var e := incoming[i];
        RawShown(a, more, incoming, i);
        RawStep(a, more, incoming, i);
        Grew(was, more);
        Extended(was, more, Added(a, e));
        AddedIs(a, e);
        var ok := true;
        match e {
          case Chunks(chunks, take, _, _) => if |chunks| > 0 { ok := Write(Chunked(a, chunks), take); }
          case Rejected(_, raw) => ok := Write(Chunked(a, [raw]), Took);
          case Beat(take) => ok := WriteHeartbeat(take);
          case Unsaved | Broken => return Failed;
          case Gone => return Cancelled;
        }
        more := more + Added(a, e);
        if !ok { return Cancelled; }
      }
      AllRaw(a, more, incoming);
      Grew(was, more);
      status := Completed;
    }

    /** Different protocols: the first converted chunk commits the response; `sent` tells whether this attempt wrote one. */
    method ProxyConverted(a: nat, incoming: seq<Incoming>) returns (status: Status, sent: bool)
      requires Valid() && streaming
      modifies `committed, `pieces
      ensures Valid() && old(pieces) <= pieces && Payloads(pieces[|old(pieces)|..], a)
      ensures if sent then committed else AllBeats(pieces[|old(pieces)|..])
      ensures Delivered(pieces[|old(pieces)|..]) <= Through(incoming)
      ensures match status
        case Completed => Ends(incoming) && Delivered(pieces[|old(pieces)|..]) == Through(incoming)
        case Failed => !Ends(incoming)
        case Cancelled => Quit(incoming)
    {
      hide Payloads, AllBeats, Through, Ends, Quit, Delivered, SoFar, Added, Chunked;
      ghost var was, more := pieces, [];
      sent := false;
      Unread(a, incoming);
      for i := 0 to |incoming|
        invariant Valid() && pieces == was + more && SoFar(a, more, [], incoming, i)
        invariant if sent then committed else AllBeats(more)
      {
        var e := incoming[i];
        Shown(a, more, [], incoming, i);
        Step(a, more, [], incoming, i);
        Grew(was, more);
        Extended(was, more, Added(a, e));
        AddedIs(a, e);
        if AllBeats(more) { MoreBeats(a, more, e); }
        match e {
          case Chunks(chunks, take, _, last) =>
            assert [] + chunks == chunks;
            Flush(a, more, chunks, incoming, i);
            if |chunks| > 0 {
              sent := true;
              var ok := Write(Chunked(a, chunks), take);
              if !ok { return Cancelled, sent; }
            }
            if last { return Completed, sent; }
          case Rejected(_, _) => return Failed, sent;
          case Beat(take) =>
            var ok := WriteHeartbeat(take);
            Shown(a, more + Added(a, e), [], incoming, i + 1);
            if !ok { return Cancelled, sent; }
          case Unsaved | Broken => return Failed, sent;
          case Gone => return Cancelled, sent;
        }
        more := more + Added(a, e);
      }
      AllRead(a, more, [], incoming);
      Grew(was, more);
      status := Failed;
    }

    /** `failed` asks the loop for another route; then no payload was written. */
    method ProxyStream(a: nat, passthrough: bool, v: Visit) returns (failed: bool)
      requires Valid() && streaming
      modifies `committed, `pieces
      ensures Valid() && old(pieces) <= pieces && Unmixed(pieces[|old(pieces)|..], a)
      ensures failed ==> AllBeats(pieces[|old(pieces)|..])
      ensures !failed ==> Answered(true, Direct(passthrough), v, pieces[|old(pieces)|..])
      ensures Flows(true, Direct(passthrough), v) && !ClientLeft(v) ==>
        !failed && Whole(true, Direct(passthrough), v, pieces[|old(pieces)|..])
    {
      ghost var was := pieces;
      var status, sent := Completed, true;
      if passthrough {
        status := ProxyPassthrough(a, v.incoming);
      } else {
        status, sent := ProxyConverted(a, v.incoming);
      }
      ghost var more := pieces[|was|..];
      PayloadsUnmixed(more, a);
      if status == Failed && !sent {
        return true;
      }
      if status == Failed {
        FinishError();
        assert pieces == was + (more + [ErrorPiece]);
        Grew(was, more + [ErrorPiece]);
      }
      failed := false;
    }

    method ProxyBuffered(a: nat, kind: RouteKind, v: Visit) returns (failed: bool)
      requires Valid() && !streaming
      modifies `pieces
      ensures Valid() && old(pieces) <= pieces && Unmixed(pieces[|old(pieces)|..], a)
      ensures failed <==> v.body == None
      ensures failed ==> pieces == old(pieces)
      ensures !failed ==> Answered(false, kind, v, pieces[|old(pieces)|..])
      ensures !failed && !ClientLeft(v) ==> Whole(false, kind, v, pieces[|old(pieces)|..])
    {
      match v.body {
        case None =>
          PayloadsUnmixed([], a);
          failed := true;
          assert pieces[|old(pieces)|..] == [];
        case Some(take) =>
          ghost var body := Taken(Chunked(a, [v.answer]), take);
          WriteDelivers([], a, [v.answer], take);
          assert [] + body == body;
          PayloadsUnmixed(body, a);
          pieces := pieces + Taken(Chunked(a, [v.answer]), take);
          Grew(old(pieces), body);
          failed := false;
      }
    }

    /** Reading a Codex or Antigravity stream: chunks are held back until the first semantic one, the
        last one, or an earlier commit, so that until then another route can still be tried. */
    method Relay(a: nat, incoming: seq<Incoming>) returns (status: Status, failure: Option<Failure>, unsaved: bool)
      requires Valid()
      modifies `committed, `pieces
      ensures Valid() && old(pieces) <= pieces && Payloads(pieces[|old(pieces)|..], a)
      ensures !streaming ==> pieces == old(pieces) && committed == old(committed)
      ensures streaming && !committed ==> pieces == old(pieces)
      ensures streaming ==> committed == (old(committed) || Commits(incoming))
      ensures Delivered(pieces[|old(pieces)|..]) <= Through(incoming)
      ensures status == Completed ==> Ends(incoming)
      ensures status == Completed && streaming ==> Delivered(pieces[|old(pieces)|..]) == Through(incoming)
      ensures status == Failed ==> !Ends(incoming)
      ensures status == Cancelled ==> Quit(incoming) && failure == None && !unsaved
    {
      hide Payloads, Through, Ends, Quit, Delivered, SoFar, Added, Chunked, Commits;
      ghost var was, more := pieces, [];
      assert incoming[0..] == incoming;
      var pending: seq<string> := [];
      ghost var held: seq<string> := [];
      failure, unsaved := None, false;
      Unread(a, incoming);
      for i := 0 to |incoming|
        invariant Valid() && pieces == was + more
        invariant SoFar(a, more, held, incoming, i) && (streaming ==> held == pending)
        invariant !streaming ==> more == [] && committed == old(committed)
        invariant streaming && !committed ==> more == [] && Commits(incoming[i..]) == Commits(incoming)
        invariant streaming && committed ==> old(committed) || Commits(incoming)
        invariant old(committed) ==> committed
      {
        var e := incoming[i];
        Shown(a, more, held, incoming, i);
        Step(a, more, held, incoming, i);
        CommitsAt(incoming, i);
        Grew(was, more);
        AddedIs(a, e);
        match e {
          case Chunks(chunks, take, semantic, last) =>
            held := held + chunks;
            if streaming {
              pending := pending + chunks;
              if semantic || last || committed {
                Extended(was, more, Taken(Chunked(a, pending), take));
                Flush(a, more, pending, incoming, i);
                var ok := Write(Chunked(a, pending), take);
                more := more + Taken(Chunked(a, pending), take);
                pending, held := [], [];
                if !ok { return Cancelled, None, false; }
              }
            }
            if last { return Completed, None, false; }
          case Rejected(f, _) => return Failed, f, false;
          case Unsaved => return Failed, None, true;
          case Beat(take) =>
            if streaming && committed {
              Extended(was, more, Added(a, e));
              var ok := WriteHeartbeat(take);
              more := more + Added(a, e);
              Shown(a, more, held, incoming, i + 1);
              if !ok { return Cancelled, None, false; }
            }
          case Broken => return Failed, None, false;
          case Gone => return Cancelled, None, false;
        }
      }
      AllRead(a, more, held, incoming);
      NeverCommits(incoming);
      Grew(was, more);
      status := Failed;
    }

    method ProxyCodex(a: nat, v: Visit) returns (end: CodexEnd)
      requires Valid()
      modifies `committed, `pieces
      ensures Valid() && old(pieces) <= pieces && Unmixed(pieces[|old(pieces)|..], a)
      ensures end.Faulty? && !(streaming && committed) ==> AllBeats(pieces[|old(pieces)|..])
      ensures end.Faulty? ==> Delivered(pieces[|old(pieces)|..]) <= Content(streaming, Codex, v)
      // a stream that breaks off before its first semantic chunk is left to the loop, with nothing sent
      ensures streaming && !old(committed) && !Commits(v.incoming) ==>
        pieces == old(pieces) && !committed && (!v.cancelled && !Quit(v.incoming) ==> end.Faulty?)
      ensures !end.Faulty? ==> Answered(streaming, Codex, v, pieces[|old(pieces)|..])
      ensures Smooth(streaming, Codex, v) ==> !end.Faulty? && Whole(streaming, Codex, v, pieces[|old(pieces)|..])
    {
      hide Payloads, Unmixed, Ends, Commits, Quit, Delivered, Told, Through, Taken, Chunked, Content, ClientLeft, Answered, Whole, Smooth;
      ghost var was := pieces;
      EndsCommits(v.incoming);
      var status, failure, unsaved := Relay(a, v.incoming);
      ghost var more := pieces[|was|..];
      assert pieces == was + more;
      RelayedSoFar(streaming, Codex, v, was, more, a, status);
      SmoothMeans(streaming, Codex, v);
      if v.body.Some? { RepliedSoFar(Codex, v, was, a); }
      if status == Completed && !v.usageRead { status, failure := Failed, None; }
      if status == Failed && v.cancelled { status := Cancelled; }
      var converted := !streaming && status == Completed && v.body.Some?;
      if !streaming && status == Completed && v.body == None { status, failure := Failed, None; }
      if !v.attemptSaved { return Faulty(None); }
      if status == Failed && !(streaming && committed) { return Faulty(failure); }
      if status == Failed && failure.Some? && !v.stateSaved { return Faulty(None); }
      if streaming {
        if status == Failed { FinishError(); }
      } else if converted {
        pieces := pieces + Taken(Chunked(a, [v.answer]), v.body.value);
        if v.body.value != Took { status := Cancelled; }
      }
      if !v.requestSaved {
        return if converted then Finished else Faulty(None);
      }
      if status != Completed || !v.stateSaved { return Finished; }
      end := Fine;
    }

    /** `finished` unless the loop has to decide about another route. */
    method ProxyAntigravity(a: nat, v: Visit) returns (end: CodexEnd, logging: bool)
      requires Valid()
      modifies `committed, `pieces
      ensures Valid() && old(pieces) <= pieces && Unmixed(pieces[|old(pieces)|..], a)
      ensures end.Faulty? || logging ==> AllBeats(pieces[|old(pieces)|..])
      ensures !end.Faulty? && !logging ==> Answered(streaming, AntigravityOAuth, v, pieces[|old(pieces)|..])
      ensures streaming && !old(committed) && !Commits(v.incoming) ==>
        pieces == old(pieces) && !committed && (!v.cancelled && !Quit(v.incoming) ==> end.Faulty?)
      ensures Smooth(streaming, AntigravityOAuth, v) ==>
        !end.Faulty? && !logging && Whole(streaming, AntigravityOAuth, v, pieces[|old(pieces)|..])
    {
      hide Payloads, Unmixed, Ends, Commits, Quit, Delivered, Told, Through, Taken, Chunked, Content, ClientLeft, Answered, Whole, Smooth;
      ghost var was := pieces;
      logging := false;
      EndsCommits(v.incoming);
      var status, failure, unsaved := Relay(a, v.incoming);
      ghost var more := pieces[|was|..];
      assert pieces == was + more;
      RelayedSoFar(streaming, AntigravityOAuth, v, was, more, a, status);
      SmoothMeans(streaming, AntigravityOAuth, v);
      if v.body.Some? { RepliedSoFar(AntigravityOAuth, v, was, a); }
      var converted := !streaming && status == Completed && v.complete && v.body.Some?;
      if status == Completed && (!v.complete || (!streaming && v.body == None)) { status, failure := Failed, None; }
      if v.cancelled { status, converted := Cancelled, false; }
      if !v.attemptSaved {
        if streaming && committed {
          FinishError();
          return Finished, false;
        }
        return Faulty(None), true;
      }
      if status == Failed && !(streaming && committed) { return Faulty(failure), unsaved; }
      if streaming {
        if status == Failed { FinishError(); }
      } else if converted {
        pieces := pieces + Taken(Chunked(a, [v.answer]), v.body.value);
      }
      if !v.requestSaved || status != Completed { return Finished, false; }
      end := Fine;
    }

    /** Reports an error and ends the request. */
    method Fail() returns (verdict: Verdict)
      requires Valid()
      modifies `committed, `pieces
      ensures Valid() && verdict == Return && pieces == old(pieces) + [ErrorPiece]
    {
      FinishError();
      verdict := Return;
    }

    /** What one pass leaves behind: an attempt at the next position exactly when one can be started;
        payload only when it ends the request, and then from that attempt; the whole answer when nothing
        goes wrong; and otherwise an error, unless the client left. */
    twostate predicate Passed(v: Visit, r: Route, index: nat, verdict: Verdict)
      reads this
    {
      && old(pieces) <= pieces
      && var more := pieces[|old(pieces)|..];
      && attempts == old(attempts) + (if Startable(r.kind, v) then [Attempt(|old(attempts)|, index)] else [])
      && (if verdict == Return then Unmixed(more, |attempts| - 1) else AllBeats(more))
      && (verdict == Return ==> Answered(streaming, r.kind, v, more))
      && (verdict == Return && !Startable(r.kind, v) ==> Delivered(more) == [] && (Told(more) || ClientLeft(v)))
      && (verdict != Return && !Startable(r.kind, v) ==> v.credential == Unavailable && verdict.NextRoute?)
      && (Smooth(streaming, r.kind, v) ==> verdict == Return && Whole(streaming, r.kind, v, more))
      && (verdict.Again? ==> IsOAuth(r) && v.credential.Issued? && verdict.revision == v.credential.revision)
    }

    /** One pass for a provider that is called directly, including Codex. `retry` is the revision an
        earlier call on this key was rejected at, or 0. */
    method AttemptDirect(v: Visit, r: Route, index: nat, position: nat, retry: nat) returns (verdict: Verdict, next: nat)
      requires Valid() && position == |attempts| && !r.kind.AntigravityOAuth?
      modifies this
      ensures Valid() && Passed(v, r, index, verdict) && next == |attempts|
      ensures verdict.Again? ==> retry == 0
    {
      hide Unmixed, Delivered, Told, AllBeats, Flows, Quit, Content;
      next := position;
      Quiet(pieces, |attempts| - 1);
      var codex := r.kind == Codex;
      if !v.prepared {
        verdict := Fail();
        return;
      }
      var refreshed := false;
      if codex {
        match v.credential {
          case Abandoned => return Return, next;
          case Unavailable => return NextRoute(false), next;
          case Issued(_, renewed) => refreshed := renewed;
        }
      }
      if !v.begun {
        verdict := Fail();
        return;
      }
      attempts := attempts + [Attempt(position, index)];
      next := position + 1;
      verdict := CallDirect(v, r, position, retry, refreshed);
    }

    method CallDirect(v: Visit, r: Route, position: nat, retry: nat, refreshed: bool) returns (verdict: Verdict)
      requires Valid() && !r.kind.AntigravityOAuth? && Startable(r.kind, v)
      modifies `committed, `pieces
      ensures Valid() && old(pieces) <= pieces
      ensures if verdict == Return then Unmixed(pieces[|old(pieces)|..], position) else AllBeats(pieces[|old(pieces)|..])
      ensures verdict == Return ==> Answered(streaming, r.kind, v, pieces[|old(pieces)|..])
      ensures Smooth(streaming, r.kind, v) ==> verdict == Return && Whole(streaming, r.kind, v, pieces[|old(pieces)|..])
      ensures verdict.Again? ==> r.kind == Codex && retry == 0 && verdict.revision == v.credential.revision
    {
      hide Unmixed, Delivered, Told, AllBeats, Flows, Quit, Content, Missing, ShouldTryNextKey;
      ghost var was := pieces;
      var dial := DoUpstream(v, r.kind != Codex);
      ghost var beats := pieces[|was|..];
      assert pieces == was + beats;
      Extended(was, beats, [ErrorPiece]);
      BeatsThenError(beats, position);
      if dial.Down? {
        return if dial.cancelled then Return else SkipCandidate;
      }
      if 200 <= dial.status < 300 {
        verdict := Accepted(v, r, position, retry, refreshed);
        ghost var more := pieces[|was + beats|..];
        assert pieces == was + beats + more;
        Extended(was, beats, more);
        BeatsDeliverNothing(beats, more);
        if verdict == Return { BeatsThenAttempt(beats, more, position); } else { BeatsMore(beats, more); }
      } else {
        verdict := Refused(v, r, dial, retry, refreshed);
      }
    }

    /** An error status: the loop goes on, or the error is the answer. */
    method Refused(v: Visit, r: Route, dial: Dial, retry: nat, refreshed: bool) returns (verdict: Verdict)
      requires Valid() && dial == v.dial && dial.Answer? && (r.kind == Codex ==> v.credential.Issued?)
      modifies `committed, `pieces
      ensures Valid() && (pieces == old(pieces) || (verdict == Return && pieces == old(pieces) + [ErrorPiece]))
      ensures verdict == Return ==> pieces == old(pieces) + [ErrorPiece] || v.dial.cancelled
      // what another account or candidate might serve never becomes the client's answer
      ensures dial.readable && v.stateSaved && (dial.status in {401, 402, 403, 429} || dial.status >= 500) ==> verdict != Return
      ensures verdict.SkipCandidate? ==> dial.readable && (Missing(dial.code) || (dial.status >= 500 && dial.status !in {401, 402, 403, 429}))
      ensures verdict.NextRoute? ==> !dial.readable || (dial.status in {401, 402, 403, 429} && !Missing(dial.code))
      ensures verdict.Again? <==>
        dial.readable && r.kind == Codex && dial.status == 401 && !refreshed && retry == 0
      ensures verdict.Again? ==> verdict.revision == v.credential.revision
    {
      var codex := r.kind == Codex;
      if !dial.readable {
        if codex && dial.cancelled {
          verdict := Return;
          if !v.attemptSaved || !v.requestSaved { verdict := Fail(); }
          return;
        }
        return NextRoute(true);
      }
      if codex && dial.status == 401 && !refreshed && retry == 0 {
        return Again(v.credential.revision);
      }
      if codex && !v.stateSaved {
        verdict := Fail();
      } else if Missing(dial.code) {
        verdict := SkipCandidate;
      } else if ShouldTryNextKey(dial.status) {
        verdict := NextRoute(true);
      } else if dial.status >= 500 {
        verdict := SkipCandidate;
      } else {
        verdict := Fail();
      }
    }

    /** A successful status: the response is passed on, and may still fail before anything was sent. */
    method Accepted(v: Visit, r: Route, position: nat, retry: nat, refreshed: bool) returns (verdict: Verdict)
      requires Valid() && !r.kind.AntigravityOAuth? && Startable(r.kind, v)
      modifies `committed, `pieces
      ensures Valid() && old(pieces) <= pieces
      ensures if verdict == Return then Unmixed(pieces[|old(pieces)|..], position) else AllBeats(pieces[|old(pieces)|..])
      ensures verdict == Return ==> Answered(streaming, r.kind, v, pieces[|old(pieces)|..])
      ensures Smooth(streaming, r.kind, v) ==> verdict == Return && Whole(streaming, r.kind, v, pieces[|old(pieces)|..])
      ensures verdict.Again? ==> r.kind == Codex && retry == 0 && verdict.revision == v.credential.revision
    {
      hide Unmixed, AllBeats, Delivered, Told, Content, ClientLeft, Flows;
      ghost var was := pieces;
      FlowsSmooth(streaming, r.kind, v);
      if r.kind != Codex {
        var failed;
        if streaming {
          failed := ProxyStream(position, r.kind.passthrough, v);
        } else {
          failed := ProxyBuffered(position, r.kind, v);
          Quiet(was, position);
        }
        return if failed then SkipCandidate else Return;
      }
      var end := ProxyCodex(position, v);
      if !end.Faulty? {
        return Return;
      }
      ghost var more := pieces[|was|..];
      assert pieces == was + more;
      Extended(was, more, [ErrorPiece]);
      if streaming && committed {
        FinishError();
        UnmixedThenError(more, position);
        return Return;
      }
      BeatsThenError(more, position);
      if end.failure == None { return SkipCandidate; }
      verdict := CodexFailure(v, end.failure.value, retry, refreshed);
    }

    /** What a failure reported inside a Codex stream means for the loop. */
    method CodexFailure(v: Visit, failure: Failure, retry: nat, refreshed: bool) returns (verdict: Verdict)
      requires Valid() && v.credential.Issued?
      modifies `committed, `pieces
      ensures Valid() && pieces == old(pieces) + if verdict == Return then [ErrorPiece] else []
      ensures verdict == Return && v.stateSaved ==> failure.status < 500 && failure.status !in {401, 402, 403, 429} && !Missing(failure.code)
      ensures verdict.NextRoute? ==> failure.status in {401, 402, 403, 429} && !Missing(failure.code)
      ensures verdict.SkipCandidate? ==> Missing(failure.code) || failure.status >= 500
      ensures verdict.Again? <==> failure.status == 401 && !refreshed && retry == 0
      ensures verdict.Again? ==> verdict.revision == v.credential.revision
    {
      if failure.status == 401 && !refreshed && retry == 0 {
        return Again(v.credential.revision);
      }
      if !v.stateSaved {
        verdict := Fail();
      } else if Missing(failure.code) {
        verdict := SkipCandidate;
      } else if ShouldTryNextKey(failure.status) {
        verdict := NextRoute(true);
      } else if failure.status < 500 {
        verdict := Fail();
      } else {
        verdict := SkipCandidate;
      }
    }

    /** One pass for an Antigravity account. */
    method AttemptAntigravity(v: Visit, r: Route, index: nat, position: nat, retry: nat) returns (verdict: Verdict, next: nat)
      requires Valid() && position == |attempts| && r.kind == AntigravityOAuth
      modifies this
      ensures Valid() && Passed(v, r, index, verdict) && next == |attempts|
      ensures verdict.Again? ==> retry == 0
    {
      hide Unmixed, Delivered, Told, AllBeats, Flows, Quit, Content;
      next := position;
      Quiet(pieces, |attempts| - 1);
      if !v.prepared {
        verdict := Fail();
        return;
      }
      match v.credential {
        case Abandoned => return Return, next;
        case Unavailable => return NextRoute(true), next;
        case Issued(_, _) =>
      }
      if !v.encoded || !v.begun {
        verdict := Fail();
        return;
      }
      attempts := attempts + [Attempt(position, index)];
      next := position + 1;
      verdict := CallAntigravity(v, position, retry);
    }

    method CallAntigravity(v: Visit, position: nat, retry: nat) returns (verdict: Verdict)
      requires Valid() && Startable(AntigravityOAuth, v)
      modifies `committed, `pieces
      ensures Valid() && old(pieces) <= pieces
      ensures if verdict == Return then Unmixed(pieces[|old(pieces)|..], position) else AllBeats(pieces[|old(pieces)|..])
      ensures verdict == Return ==> Answered(streaming, AntigravityOAuth, v, pieces[|old(pieces)|..])
      ensures Smooth(streaming, AntigravityOAuth, v) ==>
        verdict == Return && Whole(streaming, AntigravityOAuth, v, pieces[|old(pieces)|..])
      ensures verdict.Again? ==> retry == 0 && verdict.revision == v.credential.revision
    {
      hide Unmixed, AllBeats, Delivered, Told, Content, Flows, Quit;
      ghost var was := pieces;
      Quiet(was, position);
      assert was + [] == was;
      match v.dial {
        case Down(cancelled) =>
          if cancelled { return Return; }
          if !v.attemptSaved { verdict := Fail(); return; }
          return SkipCandidate;
        case Answer(status, eventStream, readable, cancelled, code) =>
          if status < 200 || status >= 300 || !eventStream {
            if !v.attemptSaved { verdict := Fail(); return; }
            if cancelled { return Return; }
            if !readable { return SkipCandidate; }
            verdict := AntigravityFailure(v, Failure(status, code), retry, v.credential.refreshed);
            return;
          }
      }
      var end, logging := ProxyAntigravity(position, v);
      ghost var more := pieces[|was|..];
      assert pieces == was + more;
      Extended(was, more, [ErrorPiece]);
      if logging {
        BeatsThenError(more, position);
        verdict := Fail();
        return;
      }
      if !end.Faulty? { return Return; }
      BeatsThenError(more, position);
      if end.failure == None { return SkipCandidate; }
      verdict := AntigravityFailure(v, end.failure.value, retry, v.credential.refreshed);
    }

    /** What an upstream failure means for the loop, after the account or model state was stored. */
    method AntigravityFailure(v: Visit, failure: Failure, retry: nat, refreshed: bool) returns (verdict: Verdict)
      requires Valid() && v.credential.Issued?
      modifies `committed, `pieces
      ensures Valid() && pieces == old(pieces) + if verdict == Return then [ErrorPiece] else []
      ensures verdict == Return && v.stateSaved ==>
        0 != failure.status < 500 && failure.status !in {401, 402, 403, 429} && !AntigravityMissing(failure.code)
      ensures verdict.NextRoute? ==> failure.status in {401, 402, 403, 429}
      ensures verdict.SkipCandidate? ==>
        failure.status !in {401, 402, 403, 429} && (AntigravityMissing(failure.code) || failure.status >= 500 || failure.status == 0)
      ensures verdict.Again? <==> failure.status == 401 && !refreshed && retry == 0
      ensures verdict.Again? ==> verdict.revision == v.credential.revision
    {
      if failure.status == 401 && !refreshed && retry == 0 {
        return Again(v.credential.revision);
      }
      var missing := AntigravityMissing(failure.code);
      if (failure.status == 401 || failure.status == 429 || missing) && !v.stateSaved {
        verdict := Fail();
      } else if ShouldTryNextKey(failure.status) {
        verdict := NextRoute(true);
      } else if missing || failure.status >= 500 || failure.status == 0 {
        verdict := SkipCandidate;
      } else {
        verdict := Fail();
      }
    }

    /** One pass of the loop over a route that was chosen. */
    method Pass(v: Visit, r: Route, index: nat, position: nat, retry: nat) returns (verdict: Verdict, next: nat)
      requires Valid() && AllBeats(pieces) && position == |attempts|
      modifies this
      ensures Valid() && next == |attempts|
      ensures attempts == old(attempts) + if Startable(r.kind, v) then [Attempt(|old(attempts)|, index)] else []
      ensures verdict != Return ==> AllBeats(pieces) && !Smooth(streaming, r.kind, v)
      ensures verdict != Return && !Startable(r.kind, v) ==> v.credential == Unavailable && verdict.NextRoute?
      ensures verdict == Return ==> Ended(streaming, r.kind, v, pieces, |attempts| - 1)
      ensures verdict.Again? ==> IsOAuth(r) && retry == 0 && v.credential.Issued? && verdict.revision == v.credential.revision
    {
      hide Unmixed, Delivered, Told, AllBeats, Smooth, Startable, ClientLeft, Content;
      if r.kind == AntigravityOAuth {
        verdict, next := AttemptAntigravity(v, r, index, position, retry);
      } else {
        verdict, next := AttemptDirect(v, r, index, position, retry);
      }
      ghost var more := pieces[|old(pieces)|..];
      assert pieces == old(pieces) + more;
      BeatsDeliverNothing(old(pieces), more);
      if verdict == Return { BeatsThenAttempt(old(pieces), more, |attempts| - 1); } else { BeatsMore(old(pieces), more); }
    }
  }

  /** How a request ends in the pass that ends it: all payload is of the one attempt of this pass, in
      order from its start on; if nothing went wrong it is all there. */
  ghost predicate Ended(streaming: bool, kind: RouteKind, v: Visit, pieces: seq<Piece>, a: int) {
    && Unmixed(pieces, a)
    && Answered(streaming, kind, v, pieces)
    && (!Startable(kind, v) ==> Delivered(pieces) == [] && (Told(pieces) || ClientLeft(v)))
    && (Smooth(streaming, kind, v) ==> Whole(streaming, kind, v, pieces))
  }

  predicate AntigravityMissing(code: string) {
    code == "MODEL_NOT_FOUND" || code == "MODEL_NOT_SUPPORTED"
  }

  // ---- one step of reading a stream ----

  /** What an event adds to the client's stream when it is written on. */
  function Added(a: nat, e: Incoming): seq<Piece> {
    match e
    case Chunks(chunks, take, _, _) => Taken(Chunked(a, chunks), take)
    case Rejected(_, raw) => Chunked(a, [raw])
    case Beat(take) => Taken([Heartbeat], take)
    case _ => []
  }

  lemma AddedIs(a: nat, e: Incoming)
    ensures e.Chunks? ==> Added(a, e) == Taken(Chunked(a, e.chunks), e.take) && (e.chunks == [] ==> Added(a, e) == [])
    ensures e.Rejected? ==> Added(a, e) == Taken(Chunked(a, [e.raw]), Took)
    ensures e.Beat? ==> Added(a, e) == Taken([Heartbeat], e.take)
  {
  }

  lemma MoreBeats(a: nat, more: seq<Piece>, e: Incoming)
    requires AllBeats(more)
    ensures e.Beat? || (e.Chunks? && e.chunks == []) ==> AllBeats(more + Added(a, e))
  {
  }

  lemma {:induction false} AddedDelivers(a: nat, more: seq<Piece>, e: Incoming)
    requires Payloads(more, a)
    ensures Payloads(more + Added(a, e), a)
    ensures Delivered(more + Added(a, e)) == Delivered(more) +
      if e.Chunks? then Taken(e.chunks, e.take) else if e.Rejected? then [e.raw] else []
  {
    match e {
      case Chunks(chunks, take, _, _) => WriteDelivers(more, a, chunks, take);
      case Rejected(_, raw) => WriteDelivers(more, a, [raw], Took);
      case _ => OthersDeliverNothing(more, Added(a, e));
    }
  }

  /** A passed-through stream, read and written on up to `i`. */
  ghost predicate RawSoFar(a: nat, more: seq<Piece>, incoming: seq<Incoming>, i: nat) {
    && i <= |incoming| && Payloads(more, a) && RawEnds(incoming[..i])
    && Delivered(more) + Raw(incoming[i..]) == Raw(incoming)
  }

  lemma RawShown(a: nat, more: seq<Piece>, incoming: seq<Incoming>, i: nat)
    requires RawSoFar(a, more, incoming, i)
    ensures Payloads(more, a) && Delivered(more) <= Raw(incoming)
  {
  }

  lemma RawStep(a: nat, more: seq<Piece>, incoming: seq<Incoming>, i: nat)
    requires i < |incoming| && RawSoFar(a, more, incoming, i)
    ensures var now := more + Added(a, incoming[i]); Payloads(now, a) && Delivered(now) <= Raw(incoming)
    ensures incoming[i].Unsaved? || incoming[i].Broken? ==> !RawEnds(incoming)
    ensures Refuses(incoming[i]) ==> Quit(incoming)
    ensures Plain(incoming[i]) ==> RawSoFar(a, more + Added(a, incoming[i]), incoming, i + 1)
  {
    var e := incoming[i];
    RawAt(incoming, i);
    AddedDelivers(a, more, e);
    RawParts(a, more, incoming, i);
    hide Delivered, Payloads, Raw, RawEnds, Quit, Added;
  }

  lemma {:induction false} RawParts(a: nat, more: seq<Piece>, incoming: seq<Incoming>, i: nat)
    requires i < |incoming| && RawSoFar(a, more, incoming, i)
    ensures var now := more + Added(a, incoming[i]);
      Delivered(now) <= Raw(incoming) && (Plain(incoming[i]) ==> Delivered(now) + Raw(incoming[i + 1..]) == Raw(incoming))
  {
    var e, d, rest := incoming[i], Delivered(more), Raw(incoming[i + 1..]);
    RawAt(incoming, i);
    AddedDelivers(a, more, e);
    var part := if e.Chunks? then Taken(e.chunks, e.take) else if e.Rejected? then [e.raw] else [];
    var full := if e.Chunks? then e.chunks else if e.Rejected? then [e.raw] else [];
    var plain := Plain(e);
    assert part <= full && (plain ==> part == full);
    assert plain ==> Raw(incoming[i..]) == full + rest;
    assert e.Chunks? || e.Rejected? ==> Raw(incoming[i..]) == full + rest;
    assert d + part == Delivered(more + Added(a, e));
    hide *;
    Appended(d, part, full, Raw(incoming[i..]), rest);
  }

  lemma Appended(d: seq<string>, part: seq<string>, full: seq<string>, left: seq<string>, rest: seq<string>)
    requires part <= full && (left == full + rest || full == [])
    ensures d + part <= d + left && (part == full && left == full + rest ==> d + part + rest == d + left)
  {
  }

  /** Lines that the client takes, if there are any. */
  predicate Plain(e: Incoming) {
    e.Rejected? || (e.Chunks? && e.chunks == []) || (!Refuses(e) && (e.Chunks? || e.Beat?))
  }

  lemma RawAt(incoming: seq<Incoming>, i: nat)
    requires i < |incoming|
    ensures var e := incoming[i];
      && Raw(incoming[i..]) == (if e.Chunks? then e.chunks + Raw(incoming[i + 1..])
                                else if e.Rejected? then [e.raw] + Raw(incoming[i + 1..])
                                else if e.Beat? then Raw(incoming[i + 1..]) else [])
      && (if e.Chunks? || e.Rejected? || e.Beat? then RawEnds(incoming[..i]) ==> RawEnds(incoming[..i + 1])
          else !RawEnds(incoming))
      && (Refuses(e) ==> Quit(incoming))
  {
    assert incoming[i..][1..] == incoming[i + 1..];
    assert incoming[i] in incoming;
    assert incoming[..i + 1] == incoming[..i] + [incoming[i]];
  }

  lemma ThroughAt(incoming: seq<Incoming>, i: nat)
    requires i < |incoming|
    ensures var e := incoming[i];
      && Through(incoming[i..]) == (if e.Chunks? then e.chunks + if e.last then [] else Through(incoming[i + 1..])
                                    else if e.Beat? then Through(incoming[i + 1..]) else [])
      && Ends(incoming[i..]) == (if e.Chunks? then e.last || Ends(incoming[i + 1..]) else e.Beat? && Ends(incoming[i + 1..]))
      && (Refuses(e) ==> Quit(incoming))
  {
    assert incoming[i..][1..] == incoming[i + 1..];
    assert incoming[i] in incoming;
  }

  /** A part of the next chunks extends what was written, all of them leave the rest to be read. */
  lemma Parts(d: seq<string>, chunks: seq<string>, rest: seq<string>, take: Take)
    ensures d + (chunks + rest) == d + chunks + rest
    ensures d + Taken(chunks, take) <= d + (chunks + rest)
    ensures take.Took? || chunks == [] ==> Taken(chunks, take) == chunks
  {
  }

  lemma AllRaw(a: nat, more: seq<Piece>, incoming: seq<Incoming>)
    requires RawSoFar(a, more, incoming, |incoming|)
    ensures Payloads(more, a) && RawEnds(incoming) && Delivered(more) == Raw(incoming)
  {
    assert incoming[..|incoming|] == incoming && incoming[|incoming|..] == [];
  }

  /** A converted stream, read up to `i` and written on except for what is held back. */
  ghost predicate SoFar(a: nat, more: seq<Piece>, held: seq<string>, incoming: seq<Incoming>, i: nat) {
    && i <= |incoming| && Payloads(more, a)
    && Delivered(more) + (held + Through(incoming[i..])) == Through(incoming)
    && (Ends(incoming[i..]) <==> Ends(incoming))
  }

  /** The same after the chunks at `i`, which may be the last. */
  ghost predicate SoFarPast(a: nat, more: seq<Piece>, held: seq<string>, incoming: seq<Incoming>, i: nat) {
    && i < |incoming| && incoming[i].Chunks?
    && if incoming[i].last then Payloads(more, a) && Ends(incoming) && Delivered(more) + held == Through(incoming)
       else SoFar(a, more, held, incoming, i + 1)
  }

  lemma Unread(a: nat, incoming: seq<Incoming>)
    ensures RawSoFar(a, [], incoming, 0) && SoFar(a, [], [], incoming, 0) && AllBeats([])
  {
    assert incoming[0..] == incoming;
  }

  lemma Shown(a: nat, more: seq<Piece>, held: seq<string>, incoming: seq<Incoming>, i: nat)
    requires SoFar(a, more, held, incoming, i)
    ensures Payloads(more, a) && Delivered(more) <= Through(incoming)
  {
  }

  lemma StepChunks(a: nat, more: seq<Piece>, held: seq<string>, incoming: seq<Incoming>, i: nat)
    requires i < |incoming| && incoming[i].Chunks? && SoFar(a, more, held, incoming, i)
    ensures SoFarPast(a, more, held + incoming[i].chunks, incoming, i)
  {
    ThroughAt(incoming, i);
    hide Delivered, Payloads, Through, Ends, Quit, Added;
    Parts(held, incoming[i].chunks, if incoming[i].last then [] else Through(incoming[i + 1..]), Took);
  }

  lemma StepBeat(a: nat, more: seq<Piece>, held: seq<string>, incoming: seq<Incoming>, i: nat)
    requires i < |incoming| && incoming[i].Beat? && SoFar(a, more, held, incoming, i)
    ensures SoFar(a, more, held, incoming, i + 1) && SoFar(a, more + Added(a, incoming[i]), held, incoming, i + 1)
  {
    ThroughAt(incoming, i);
    AddedDelivers(a, more, incoming[i]);
    hide Delivered, Payloads, Through, Ends, Quit, Added;
  }

  lemma {:induction false} Step(a: nat, more: seq<Piece>, held: seq<string>, incoming: seq<Incoming>, i: nat)
    requires i < |incoming| && SoFar(a, more, held, incoming, i)
    ensures incoming[i].Chunks? ==> SoFarPast(a, more, held + incoming[i].chunks, incoming, i)
    ensures incoming[i].Beat? ==> SoFar(a, more, held, incoming, i + 1) && SoFar(a, more + Added(a, incoming[i]), held, incoming, i + 1)
    ensures incoming[i].Rejected? || incoming[i].Unsaved? || incoming[i].Broken? ==> !Ends(incoming)
    ensures Refuses(incoming[i]) ==> Quit(incoming)
  {
    if incoming[i].Beat? { StepBeat(a, more, held, incoming, i); }
    if incoming[i].Chunks? { StepChunks(a, more, held, incoming, i); }
    ThroughAt(incoming, i);
    var live := Ends(incoming[i..]);
    assert live == Ends(incoming);
    hide SoFar, SoFarPast, Through, Ends, Quit, Added;
  }

  /** Writing what was held back. */
  lemma Flush(a: nat, more: seq<Piece>, held: seq<string>, incoming: seq<Incoming>, i: nat)
    requires SoFarPast(a, more, held, incoming, i)
    ensures var take := incoming[i].take;
      var now := more + Taken(Chunked(a, held), take);
      && Payloads(now, a) && Delivered(now) <= Through(incoming)
      && (take.Took? || held == [] ==> SoFarPast(a, now, [], incoming, i))
  {
    var take := incoming[i].take;
    WriteDelivers(more, a, held, take);
    hide Delivered, Payloads, Ends, Through;
    Parts(Delivered(more), held, if incoming[i].last then [] else Through(incoming[i + 1..]), take);
  }

  lemma CommitsAt(incoming: seq<Incoming>, i: nat)
    requires i < |incoming|
    ensures incoming[i].Chunks? ==> Commits(incoming[i..]) == (incoming[i].semantic || incoming[i].last || Commits(incoming[i + 1..]))
    ensures incoming[i].Beat? ==> Commits(incoming[i..]) == Commits(incoming[i + 1..])
    ensures !incoming[i].Chunks? && !incoming[i].Beat? ==> !Commits(incoming[i..])
  {
    assert incoming[i..][1..] == incoming[i + 1..];
  }

  lemma NeverCommits(incoming: seq<Incoming>)
    ensures !Commits(incoming[|incoming|..])
  {
  }

  /** A stream that ends has reached its commit. */
  lemma {:induction false} EndsCommits(incoming: seq<Incoming>)
    ensures Ends(incoming) ==> Commits(incoming)
  {
    if incoming != [] { EndsCommits(incoming[1..]); }
  }

  lemma AllRead(a: nat, more: seq<Piece>, held: seq<string>, incoming: seq<Incoming>)
    requires SoFar(a, more, held, incoming, |incoming|)
    ensures Payloads(more, a) && Delivered(more) <= Through(incoming) && !Ends(incoming)
  {
    assert incoming[|incoming|..] == [];
  }

  lemma BeatsMore(beats: seq<Piece>, more: seq<Piece>)
    requires AllBeats(beats) && AllBeats(more)
    ensures AllBeats(beats + more)
  {
  }

  lemma Extended(was: seq<Piece>, more: seq<Piece>, last: seq<Piece>)
    ensures was + more + last == was + (more + last) && was + more + [] == was + more
    ensures (was + more)[|was|..] == more && (was + more + last)[|was|..] == more + last
  {
  }

  /** Nothing sent, or only an error. */
  lemma Quiet(was: seq<Piece>, a: int)
    ensures was[|was|..] == [] && (was + [ErrorPiece])[|was|..] == [ErrorPiece] && AllBeats([])
    ensures Unmixed([], a) && Unmixed([ErrorPiece], a)
    ensures Delivered([]) == [] && Delivered([ErrorPiece]) == [] && Told([ErrorPiece]) && !Told([])
  {
    BeatsThenError([], a);
    assert [] + [ErrorPiece] == [ErrorPiece];
  }

  lemma FlowsSmooth(streaming: bool, kind: RouteKind, v: Visit)
    ensures Smooth(streaming, kind, v) ==> Flows(streaming, kind, v) && !ClientLeft(v)
    ensures Flows(streaming, kind, v) && !streaming ==> v.body.Some?
  {
  }

  /** What the pieces of a relayed answer can become: with an error at the end, or with the buffered answer. */
  lemma RelayedSoFar(streaming: bool, kind: RouteKind, v: Visit, was: seq<Piece>, more: seq<Piece>, a: nat, status: Status)
    requires OAuth(kind) && Payloads(more, a) && (!streaming ==> more == [])
    requires Delivered(more) <= Through(v.incoming)
    requires match status
      case Completed => Ends(v.incoming) && (streaming ==> Delivered(more) == Through(v.incoming))
      case Failed => !Ends(v.incoming)
      case Cancelled => Quit(v.incoming)
    ensures (was + more)[|was|..] == more && (was + more + [ErrorPiece])[|was|..] == more + [ErrorPiece]
    ensures Unmixed(more, a) && Unmixed(more + [ErrorPiece], a)
    ensures Delivered(more) <= Content(streaming, kind, v)
    ensures Answered(streaming, kind, v, more + [ErrorPiece])
    ensures v.cancelled || status == Cancelled ==> Answered(streaming, kind, v, more)
    ensures status == Completed && streaming ==> Answered(streaming, kind, v, more) && Whole(streaming, kind, v, more)
    ensures Smooth(streaming, kind, v) ==> status == Completed
    ensures more == [] ==> AllBeats(more)
  {
    Extended(was, more, [ErrorPiece]);
    PayloadsUnmixed(more, a);
  }

  lemma RepliedSoFar(kind: RouteKind, v: Visit, was: seq<Piece>, a: nat)
    requires v.body.Some?
    ensures var reply := Taken(Chunked(a, [v.answer]), v.body.value);
      && (was + reply)[|was|..] == reply && Unmixed(reply, a)
      && Answered(false, kind, v, reply)
      && (v.body.value.Took? ==> Whole(false, kind, v, reply))
  {
    var reply := Taken(Chunked(a, [v.answer]), v.body.value);
    WriteDelivers([], a, [v.answer], v.body.value);
    assert [] + reply == reply;
    Grew(was, reply);
    PayloadsUnmixed(reply, a);
  }

  /** What a smooth visit rules out. */
  lemma SmoothMeans(streaming: bool, kind: RouteKind, v: Visit)
    ensures Smooth(streaming, kind, v) ==>
      && v.usageRead && v.complete && !v.cancelled && v.attemptSaved && v.stateSaved && v.requestSaved
      && (!streaming ==> v.body == Some(Took))
  {
  }

  // ---- the loop ----

  function OAuthKeys(routes: seq<Route>): set<int> {
    set i | 0 <= i < |routes| && IsOAuth(routes[i]) :: routes[i].key
  }

  /** Positions count 0, 1, 2, ..., and routes are tried in their order. */
  predicate Consecutive(attempts: seq<Attempt>) {
    && (forall i | 0 <= i < |attempts| :: attempts[i].position == i)
    && (forall i, j | 0 <= i < j < |attempts| :: attempts[i].route <= attempts[j].route)
  }

  /** Progress of the loop: a route was tried, it had no usable credential, a candidate was given up. */
  datatype Mark = Tried(route: nat) | Unusable(route: nat, visit: nat) | Dropped(candidate: int, visit: nat)

  function Tries(history: seq<Mark>): seq<nat> {
    if history == [] then []
    else
      var m := history[|history| - 1];
      Tries(history[..|history| - 1]) + if m.Tried? then [m.route] else []
  }

  function RoutesOf(attempts: seq<Attempt>): seq<nat> {
    seq(|attempts|, i requires 0 <= i < |attempts| => attempts[i].route)
  }

  /** A candidate that was given up is not tried again. */
  predicate NeverBack(routes: seq<Route>, history: seq<Mark>) {
    forall i, j | 0 <= i < j < |history| && history[i].Dropped? && history[j].Tried? ::
      history[j].route < |routes| && routes[history[j].route].candidate != history[i].candidate
  }

  /** Every route before `index` was tried, had no usable credential, or belongs to a candidate given up. */
  ghost predicate Covered(routes: seq<Route>, history: seq<Mark>, index: nat) {
    index <= |routes| && forall i | 0 <= i < index :: WasCovered(routes, history, i)
  }

  ghost predicate WasCovered(routes: seq<Route>, history: seq<Mark>, i: nat)
    requires i < |routes|
  {
    Tried(i) in history || (exists t :: Unusable(i, t) in history) || (exists t :: Dropped(routes[i].candidate, t) in history)
  }

  /** A route counts as unusable only without a credential, and a candidate is given up only when it was
      not admitted or after an attempt. */
  ghost predicate Justified(world: nat -> Visit, routes: seq<Route>, history: seq<Mark>, visits: nat) {
    && (forall i: nat, t: nat | Unusable(i, t) in history :: t < visits && world(t).credential == Unavailable)
    && (forall c, t: nat | Dropped(c, t) in history :: t < visits && (!world(t).ready || Attempted(routes, history, c)))
  }

  predicate Attempted(routes: seq<Route>, history: seq<Mark>, candidate: int) {
    exists i | 0 <= i < |routes| && routes[i].candidate == candidate :: Tried(i) in history
  }

  /** The route is the first of its candidate, before which the breaker is asked. */
  predicate Opens(routes: seq<Route>, i: nat)
    requires i < |routes|
  {
    i == 0 || routes[i - 1].candidate != routes[i].candidate
  }

  /** A call is started at visit `t`: the visit is recorded, the breaker admits a candidate that is entered
      by it, and nothing is missing for the call. */
  predicate Calls(world: nat -> Visit, routes: seq<Route>, path: seq<nat>, t: nat)
    requires t < |path| && path[t] < |routes|
  {
    && world(t).noted && (Opens(routes, path[t]) ==> world(t).ready)
    && Startable(routes[path[t]].kind, world(t))
  }

  /** The breaker admitted the candidate at some visit up to `t`, which was to its first route. */
  predicate Admitted(world: nat -> Visit, routes: seq<Route>, path: seq<nat>, t: nat, candidate: int) {
    exists u | 0 <= u <= t && u < |path| && path[u] < |routes| ::
      Opens(routes, path[u]) && routes[path[u]].candidate == candidate && world(u).noted && world(u).ready
  }

  /** The attempt at position `k` was made at visit `t`, to its route, and its candidate had been admitted. */
  ghost predicate MadeAt(world: nat -> Visit, routes: seq<Route>, path: seq<nat>, route: nat, t: nat) {
    && t < |path| && path[t] == route < |routes| && Calls(world, routes, path, t)
    && Admitted(world, routes, path, t, routes[route].candidate)
  }

  /** Where the loop went, a route for each visit, and at which visits it made its attempts: exactly where
      a call can be started, in order, and only for candidates the breaker had admitted. */
  ghost predicate Trail(world: nat -> Visit, routes: seq<Route>, attempts: seq<Attempt>, path: seq<nat>, made: seq<nat>) {
    && (forall t | 0 <= t < |path| :: path[t] < |routes|)
    && |made| == |attempts| && (forall k | 0 <= k < |made| :: MadeAt(world, routes, path, attempts[k].route, made[k]))
    && (forall k, l | 0 <= k < l < |made| :: made[k] < made[l])
    && (forall t | 0 <= t < |path| :: t in made <==> Calls(world, routes, path, t))
  }

  /** The loop stands at a route it may call: its candidate is asked for here, or was admitted before. */
  ghost predicate Entered(world: nat -> Visit, routes: seq<Route>, path: seq<nat>, index: nat) {
    index < |routes| && !Opens(routes, index) ==> |path| > 0 && Admitted(world, routes, path, |path| - 1, routes[index].candidate)
  }

  lemma AdmittedLater(world: nat -> Visit, routes: seq<Route>, path: seq<nat>, t: nat, index: nat, candidate: int)
    requires Admitted(world, routes, path, t, candidate)
    ensures Admitted(world, routes, path + [index], t, candidate) && Admitted(world, routes, path + [index], |path|, candidate)
  {
    var u :| 0 <= u <= t && u < |path| && path[u] < |routes| && Opens(routes, path[u])
      && routes[path[u]].candidate == candidate && world(u).noted && world(u).ready;
    assert (path + [index])[u] == path[u];
  }

  /** A visit that passes the breaker stands at an admitted candidate. */
  lemma NowAdmitted(world: nat -> Visit, routes: seq<Route>, path: seq<nat>, index: nat)
    requires index < |routes| && Entered(world, routes, path, index)
    requires world(|path|).noted && (Opens(routes, index) ==> world(|path|).ready)
    ensures Admitted(world, routes, path + [index], |path|, routes[index].candidate)
  {
    if Opens(routes, index) {
      assert (path + [index])[|path|] == index;
    } else {
      AdmittedLater(world, routes, path, |path| - 1, index, routes[index].candidate);
    }
  }

  /** One more visit, with an attempt exactly if a call can be started there. */
  lemma TrailMore(world: nat -> Visit, routes: seq<Route>, a: seq<Attempt>, path: seq<nat>, made: seq<nat>, index: nat, b: seq<Attempt>)
    requires Trail(world, routes, a, path, made) && index < |routes| && Entered(world, routes, path, index)
    requires b == a + if Calls(world, routes, path + [index], |path|) then [Attempt(|a|, index)] else []
    ensures Trail(world, routes, b, path + [index], if b == a then made else made + [|path|])
  {
    var more, marks := path + [index], if b == a then made else made + [|path|];
    var now := Calls(world, routes, more, |path|);
    if now { NowAdmitted(world, routes, path, index); }
    forall k | 0 <= k < |marks| ensures MadeAt(world, routes, more, b[k].route, marks[k]) {
      if k < |made| {
        assert MadeAt(world, routes, path, a[k].route, made[k]);
        AdmittedLater(world, routes, path, made[k], index, routes[a[k].route].candidate);
      }
    }
    forall k, l | 0 <= k < l < |marks| ensures marks[k] < marks[l] {
      if l == |made| { assert MadeAt(world, routes, path, a[k].route, made[k]); }
    }
    forall t | 0 <= t < |more| ensures t in marks <==> Calls(world, routes, more, t) {
      if t < |path| {
        assert Calls(world, routes, more, t) == Calls(world, routes, path, t);
      } else {
        assert t !in made by {
          forall k | 0 <= k < |made| ensures made[k] < |path| { assert MadeAt(world, routes, path, a[k].route, made[k]); }
        }
        assert now ==> marks[|made|] == t;
      }
    }
  }

  /** Staying at a route, or going on to the next, keeps to admitted candidates; so does skipping. */
  lemma EnteredNext(world: nat -> Visit, routes: seq<Route>, path: seq<nat>, index: nat, next: nat)
    requires index < |routes| && Entered(world, routes, path, index) && index <= next <= |routes|
    requires next == index || (next < |routes| ==> routes[next].candidate == routes[next - 1].candidate ==>
      next == index + 1 && world(|path|).noted && (Opens(routes, index) ==> world(|path|).ready))
    ensures Entered(world, routes, path + [index], next)
  {
    if next < |routes| && !Opens(routes, next) {
      if next == index {
        AdmittedLater(world, routes, path, |path| - 1, index, routes[index].candidate);
      } else {
        NowAdmitted(world, routes, path, index);
      }
    }
  }

  /** A visit at which every route could be served. */
  ghost predicate Flawless(streaming: bool, v: Visit) {
    v.noted && v.ready && forall kind :: Smooth(streaming, kind, v)
  }

  ghost predicate NoneMissed(streaming: bool, world: nat -> Visit, visits: nat) {
    forall t | 0 <= t < visits :: !Flawless(streaming, world(t))
  }

  /** The content of the answer to the last attempt, which was made at the last visit. */
  ghost function LastContent(streaming: bool, routes: seq<Route>, attempts: seq<Attempt>, v: Visit): Option<seq<string>> {
    if attempts != [] && attempts[|attempts| - 1].route < |routes|
    then Some(Content(streaming, routes[attempts[|attempts| - 1].route].kind, v))
    else None
  }

  /** How the loop ends. The client has the start of one answer, the one to the last attempt: all of it,
      or it was told that the request failed, or it left. Running out of routes is told. The first visit at
      which nothing goes wrong ends the loop, and then the answer is all there without an error. */
  ghost predicate Served(streaming: bool, routes: seq<Route>, pieces: seq<Piece>, attempts: seq<Attempt>,
                         exhausted: bool, world: nat -> Visit, visits: nat) {
    if exhausted then Told(pieces) && Delivered(pieces) == [] && NoneMissed(streaming, world, visits)
    else
      && visits > 0 && NoneMissed(streaming, world, visits - 1)
      && var v := world(visits - 1);
      var content := LastContent(streaming, routes, attempts, v);
      && (Delivered(pieces) == [] || (content.Some? && Delivered(pieces) <= content.value))
      && (Told(pieces) || ClientLeft(v) || content == Some(Delivered(pieces)))
      && (Flawless(streaming, v) ==> content == Some(Delivered(pieces)) && !Told(pieces))
  }

  /** Every candidate given up lies behind `index`. */
  predicate Behind(routes: seq<Route>, history: seq<Mark>, index: nat) {
    forall i, j | 0 <= i < |history| && history[i].Dropped? && index <= j < |routes| ::
      routes[j].candidate != history[i].candidate
  }

  method Skip(routes: seq<Route>, index: nat) returns (last: nat)
    requires index < |routes|
    ensures index <= last < |routes| && routes[last].candidate == routes[index].candidate
    ensures forall j | index <= j <= last :: routes[j].candidate == routes[index].candidate
    ensures last + 1 < |routes| ==> routes[last + 1].candidate != routes[index].candidate
  {
    last := index;
    while last + 1 < |routes| && routes[last + 1].candidate == routes[index].candidate
      invariant index <= last < |routes|
      invariant forall j | index <= j <= last :: routes[j].candidate == routes[index].candidate
    {
      last := last + 1;
    }
  }

  /** The record of the loop at its head: what was tried, what was given up. */
  ghost predicate Progress(routes: seq<Route>, history: seq<Mark>, attempts: seq<Attempt>, index: nat) {
    && Consecutive(attempts) && (forall i | 0 <= i < |attempts| :: attempts[i].route <= index)
    && Tries(history) == RoutesOf(attempts)
    && NeverBack(routes, history) && Behind(routes, history, index) && Covered(routes, history, index)
  }

  lemma ProgressDropped(routes: seq<Route>, history: seq<Mark>, attempts: seq<Attempt>, index: nat, last: nat, visit: nat)
    requires Grouped(routes) && index <= last < |routes| && Progress(routes, history, attempts, index)
    requires forall j | index <= j <= last :: routes[j].candidate == routes[index].candidate
    requires last + 1 < |routes| ==> routes[last + 1].candidate != routes[index].candidate
    ensures Progress(routes, history + [Dropped(routes[index].candidate, visit)], attempts, last + 1)
  {
    var more := history + [Dropped(routes[index].candidate, visit)];
    assert more[..|history|] == history && more[|history|] == Dropped(routes[index].candidate, visit);
    CoveredStays(routes, history, Dropped(routes[index].candidate, visit), index);
    assert Dropped(routes[index].candidate, visit) in more;
  }

  lemma {:induction false} ProgressTried(routes: seq<Route>, history: seq<Mark>, a: seq<Attempt>, b: seq<Attempt>, index: nat)
    requires index < |routes| && Progress(routes, history, a, index)
    requires b == a || b == a + [Attempt(|a|, index)]
    ensures Progress(routes, if b == a then history else history + [Tried(index)], b, index)
  {
    assert (history + [Tried(index)])[..|history|] == history;
    CoveredStays(routes, history, Tried(index), index);
  }

  /** Moving on by one route, which was tried or else could not be. */
  function Noted(history: seq<Mark>, index: nat, visit: nat): seq<Mark> {
    if Tried(index) in history then history else history + [Unusable(index, visit)]
  }

  lemma CoveredStays(routes: seq<Route>, history: seq<Mark>, m: Mark, index: nat)
    requires Covered(routes, history, index)
    ensures Covered(routes, history + [m], index)
  {
    forall i | 0 <= i < index ensures WasCovered(routes, history + [m], i) {
      assert WasCovered(routes, history, i);
      if u :| Unusable(i, u) in history { assert Unusable(i, u) in history + [m]; }
      if u :| Dropped(routes[i].candidate, u) in history { assert Dropped(routes[i].candidate, u) in history + [m]; }
    }
  }

  lemma ProgressOn(routes: seq<Route>, history: seq<Mark>, attempts: seq<Attempt>, index: nat, visit: nat)
    requires Progress(routes, history, attempts, index) && index < |routes|
    ensures Progress(routes, Noted(history, index, visit), attempts, index + 1)
  {
    var more := history + [Unusable(index, visit)];
    assert more[..|history|] == history && more[|history|] == Unusable(index, visit);
    CoveredStays(routes, history, Unusable(index, visit), index);
    assert Unusable(index, visit) in more;
  }

  /** One more mark, justified by the last visit. */
  lemma JustifiedMore(world: nat -> Visit, routes: seq<Route>, history: seq<Mark>, visits: nat, m: Mark)
    requires visits > 0 && (Justified(world, routes, history, visits) || Justified(world, routes, history, visits - 1))
    requires m.Unusable? ==> m.visit == visits - 1 && world(m.visit).credential == Unavailable
    requires m.Dropped? ==> m.visit == visits - 1 && (!world(m.visit).ready || Attempted(routes, history, m.candidate))
    ensures Justified(world, routes, history, visits) && Justified(world, routes, history + [m], visits)
  {
    forall c | Attempted(routes, history, c) ensures Attempted(routes, history + [m], c) {
      var i :| 0 <= i < |routes| && routes[i].candidate == c && Tried(i) in history;
      assert Tried(i) in history + [m];
    }
  }

  // ---- how the loop ends ----

  /** Only heartbeats went out, and now an error. */
  lemma ServedNothing(streaming: bool, routes: seq<Route>, pieces: seq<Piece>, attempts: seq<Attempt>,
                      exhausted: bool, world: nat -> Visit, visits: nat)
    requires AllBeats(pieces) && NoneMissed(streaming, world, visits) && (exhausted || visits > 0)
    ensures Served(streaming, routes, pieces + [ErrorPiece], attempts, exhausted, world, visits)
    ensures visits > 0 && ClientLeft(world(visits - 1)) ==> Served(streaming, routes, pieces, attempts, false, world, visits)
  {
    BeatsThenError(pieces, 0);
    hide Smooth, ClientLeft;
  }

  /** The last visit ended the request. */
  lemma ServedLast(streaming: bool, routes: seq<Route>, index: nat, pieces: seq<Piece>, attempts: seq<Attempt>,
                   world: nat -> Visit, visits: nat)
    requires visits > 0 && NoneMissed(streaming, world, visits - 1) && index < |routes|
    requires Startable(routes[index].kind, world(visits - 1)) ==> attempts != [] && attempts[|attempts| - 1].route == index
    requires Ended(streaming, routes[index].kind, world(visits - 1), pieces, |attempts| - 1)
    ensures Served(streaming, routes, pieces, attempts, false, world, visits) && Unmixed(pieces, |attempts| - 1)
  {
    var v := world(visits - 1);
    hide Delivered, Told, ClientLeft, Unmixed, Content;
    assert Flawless(streaming, v) ==> Smooth(streaming, routes[index].kind, v);
  }

  lemma NotFlawless(streaming: bool, world: nat -> Visit, visits: nat, kind: RouteKind)
    requires visits > 0 && NoneMissed(streaming, world, visits - 1)
    requires !world(visits - 1).noted || !world(visits - 1).ready || !Smooth(streaming, kind, world(visits - 1))
    ensures NoneMissed(streaming, world, visits)
  {
    hide Smooth;
  }

  /** What the record of the loop says at any time. */
  ghost predicate Traced(world: nat -> Visit, routes: seq<Route>, attempts: seq<Attempt>, history: seq<Mark>, visits: nat) {
    && Consecutive(attempts) && Tries(history) == RoutesOf(attempts)
    && NeverBack(routes, history) && Justified(world, routes, history, visits)
  }

  ghost predicate Kept(world: nat -> Visit, routes: seq<Route>, attempts: seq<Attempt>, history: seq<Mark>, visits: nat, index: nat) {
    Progress(routes, history, attempts, index) && Justified(world, routes, history, visits)
  }

  lemma KeptTraced(world: nat -> Visit, routes: seq<Route>, attempts: seq<Attempt>, history: seq<Mark>, visits: nat, index: nat)
    requires Kept(world, routes, attempts, history, visits, index)
    ensures Traced(world, routes, attempts, history, visits) && Covered(routes, history, index)
  {
  }

  /** A further visit: nothing is recorded, or an attempt. */
  lemma KeptTried(world: nat -> Visit, routes: seq<Route>, a: seq<Attempt>, history: seq<Mark>, visits: nat, index: nat, b: seq<Attempt>)
    requires index < |routes| && Kept(world, routes, a, history, visits, index)
    requires b == a || b == a + [Attempt(|a|, index)]
    ensures var more := if b == a then history else history + [Tried(index)];
      Kept(world, routes, b, more, visits + 1, index) && Traced(world, routes, b, more, visits + 1)
  {
    ProgressTried(routes, history, a, b, index);
    JustifiedMore(world, routes, history, visits + 1, Tried(index));
    KeptTraced(world, routes, b, if b == a then history else history + [Tried(index)], visits + 1, index);
  }

  lemma KeptDropped(world: nat -> Visit, routes: seq<Route>, attempts: seq<Attempt>, history: seq<Mark>, visits: nat, index: nat, last: nat)
    requires Grouped(routes) && index <= last < |routes| && visits > 0 && Kept(world, routes, attempts, history, visits, index)
    requires forall j | index <= j <= last :: routes[j].candidate == routes[index].candidate
    requires last + 1 < |routes| ==> routes[last + 1].candidate != routes[index].candidate
    requires !world(visits - 1).ready || Tried(index) in history
    ensures var more := history + [Dropped(routes[index].candidate, visits - 1)];
      Kept(world, routes, attempts, more, visits, last + 1) && Traced(world, routes, attempts, more, visits)
  {
    hide Progress, Justified, Traced, Covered, Grouped;
    var more := history + [Dropped(routes[index].candidate, visits - 1)];
    ProgressDropped(routes, history, attempts, index, last, visits - 1);
    assert Tried(index) in history ==> Attempted(routes, history, routes[index].candidate);
    JustifiedMore(world, routes, history, visits, Dropped(routes[index].candidate, visits - 1));
    KeptTraced(world, routes, attempts, more, visits, last + 1);
  }

  lemma KeptOn(world: nat -> Visit, routes: seq<Route>, attempts: seq<Attempt>, history: seq<Mark>, visits: nat, index: nat)
    requires index < |routes| && visits > 0 && Kept(world, routes, attempts, history, visits, index)
    requires Tried(index) in history || world(visits - 1).credential == Unavailable
    ensures var more := Noted(history, index, visits - 1);
      Kept(world, routes, attempts, more, visits, index + 1) && Traced(world, routes, attempts, more, visits)
  {
    hide Progress, Justified, Traced, Covered;
    var more := Noted(history, index, visits - 1);
    ProgressOn(routes, history, attempts, index, visits - 1);
    if Tried(index) !in history { JustifiedMore(world, routes, history, visits, Unusable(index, visits - 1)); }
    KeptTraced(world, routes, attempts, more, visits, index + 1);
  }

  /** All records agree, and the loop stands at `index`. */
  ghost predicate Steady(world: nat -> Visit, routes: seq<Route>, attempts: seq<Attempt>, history: seq<Mark>,
                         path: seq<nat>, made: seq<nat>, index: nat) {
    && Kept(world, routes, attempts, history, |path|, index)
    && Trail(world, routes, attempts, path, made) && Entered(world, routes, path, index)
  }

  /** All records agree after the visit to `index`. */
  ghost predicate Visited(world: nat -> Visit, routes: seq<Route>, attempts: seq<Attempt>, history: seq<Mark>,
                          path: seq<nat>, made: seq<nat>, index: nat) {
    && Kept(world, routes, attempts, history, |path|, index) && Trail(world, routes, attempts, path, made)
    && path != [] && path[|path| - 1] == index && Entered(world, routes, path[..|path| - 1], index)
  }

  predicate PassesBreaker(routes: seq<Route>, index: nat, v: Visit)
    requires index < |routes|
  {
    v.noted && (index == 0 || routes[index - 1].candidate != routes[index].candidate ==> v.ready)
  }

  lemma SteadyVisited(world: nat -> Visit, routes: seq<Route>, a: seq<Attempt>, history: seq<Mark>,
                      path: seq<nat>, made: seq<nat>, index: nat, b: seq<Attempt>)
    requires index < |routes| && Steady(world, routes, a, history, path, made, index)
    requires b == a + if PassesBreaker(routes, index, world(|path|)) && Startable(routes[index].kind, world(|path|))
                      then [Attempt(|a|, index)] else []
    ensures var more := if b == a then history else history + [Tried(index)];
      var marks := if b == a then made else made + [|path|];
      && Visited(world, routes, b, more, path + [index], marks, index)
      && Traced(world, routes, b, more, |path| + 1) && Trail(world, routes, b, path + [index], marks)
  {
    hide Startable, Kept, Traced, Trail, Entered;
    assert (path + [index])[..|path|] == path;
    assert Calls(world, routes, path + [index], |path|)
        <==> PassesBreaker(routes, index, world(|path|)) && Startable(routes[index].kind, world(|path|));
    TrailMore(world, routes, a, path, made, index, b);
    KeptTried(world, routes, a, history, |path|, index, b);
  }

  /** The same route is visited again. */
  lemma VisitedAgain(world: nat -> Visit, routes: seq<Route>, attempts: seq<Attempt>, history: seq<Mark>,
                     path: seq<nat>, made: seq<nat>, index: nat)
    requires index < |routes| && Visited(world, routes, attempts, history, path, made, index)
    ensures Steady(world, routes, attempts, history, path, made, index)
  {
    hide Kept, Trail, Entered;
    assert path == path[..|path| - 1] + [index];
    EnteredNext(world, routes, path[..|path| - 1], index, index);
  }

  /** The next route to try: the one after, or the first of another candidate. */
  method Onward(routes: seq<Route>, index: nat, verdict: Verdict, ghost world: nat -> Visit, ghost attempts: seq<Attempt>,
                ghost history: seq<Mark>, ghost path: seq<nat>, ghost made: seq<nat>) returns (next: nat, ghost more: seq<Mark>)
    requires Grouped(routes) && index < |routes| && Visited(world, routes, attempts, history, path, made, index)
    requires verdict == SkipCandidate ==> !world(|path| - 1).ready || Tried(index) in history
    requires verdict != SkipCandidate ==> PassesBreaker(routes, index, world(|path| - 1))
    requires verdict != SkipCandidate ==> Tried(index) in history || world(|path| - 1).credential == Unavailable
    ensures index < next <= |routes| && Steady(world, routes, attempts, more, path, made, next)
    ensures Traced(world, routes, attempts, more, |path|)
    ensures if verdict == SkipCandidate
            then (forall j | index <= j < next :: routes[j].candidate == routes[index].candidate)
                 && (next < |routes| ==> routes[next].candidate != routes[index].candidate)
            else next == index + 1
  {
    hide Grouped, Kept, Traced, Trail, Entered;
    assert path == path[..|path| - 1] + [index];
    if verdict == SkipCandidate {
      var last := Skip(routes, index);
      KeptDropped(world, routes, attempts, history, |path|, index, last);
      next, more := last + 1, history + [Dropped(routes[index].candidate, |path| - 1)];
    } else {
      KeptOn(world, routes, attempts, history, |path|, index);
      next, more := index + 1, Noted(history, index, |path| - 1);
    }
    EnteredNext(world, routes, path[..|path| - 1], index, next);
  }

  /** Serves one request over its routes. The client gets payload of one attempt only, the last one
      that was started; positions are consecutive; a credential is retried at most once for each OAuth
      key; a candidate that was given up is never returned to; and the loop runs out of routes only when
      each was tried, had no usable credential, or belonged to a candidate given up. */
  method Generate(x: Exchange, routes: seq<Route>, world: nat -> Visit)
    returns (exhausted: bool, visits: nat, ghost history: seq<Mark>, ghost path: seq<nat>, ghost made: seq<nat>)
    requires x.Valid() && x.pieces == [] && x.attempts == []
    requires Grouped(routes)
    requires forall t :: world(t).credential.Issued? ==> world(t).credential.revision > 0
    modifies x
    ensures Unmixed(x.pieces, |x.attempts| - 1)
    ensures Traced(world, routes, x.attempts, history, visits) && |x.attempts| <= |routes| + |OAuthKeys(routes)|
    ensures exhausted ==> Covered(routes, history, |routes|)
    ensures Served(x.streaming, routes, x.pieces, x.attempts, exhausted, world, visits)
    ensures |path| == visits && Trail(world, routes, x.attempts, path, made)
  {
    hide *;
    exhausted, visits := false, 0;
    var oauthRetry: map<int, nat> := map[];
    var position, index := 0, 0;
    history, path, made := [], [], [];
    Started(x.streaming, routes, x.pieces, world);
    while index < |routes|
      invariant 0 <= index <= |routes| && x.Valid() && AllBeats(x.pieces)
      invariant position == |x.attempts| <= index + Used(oauthRetry)
      invariant Retried(routes, oauthRetry) && |path| == visits
      invariant Steady(world, routes, x.attempts, history, path, made, index)
      invariant NoneMissed(x.streaming, world, visits)
      decreases Left(routes, oauthRetry), |routes| - index
    {
      var r, v := routes[index], world(visits);
      RetriesBounded(routes, oauthRetry);
      BreakerPassed(routes, index, v);
      ghost var attempts, trail := x.attempts, path;
      visits, path := visits + 1, path + [index];
      if !v.noted {
        NotFlawless(x.streaming, world, visits, r.kind);
        ServedNothing(x.streaming, routes, x.pieces, x.attempts, false, world, visits);
        SteadyVisited(world, routes, x.attempts, history, trail, made, index, x.attempts);
        EndWithError(x);
        return;
      }
      if (index == 0 || routes[index - 1].candidate != r.candidate) && !v.ready {
        NotFlawless(x.streaming, world, visits, r.kind);
        SteadyVisited(world, routes, x.attempts, history, trail, made, index, x.attempts);
        index, history := Onward(routes, index, SkipCandidate, world, x.attempts, history, path, made);
        continue;
      }
      var retry := Rejected(oauthRetry, r.key);
      var verdict;
      verdict, position := x.Pass(v, r, index, position, retry);
      SteadyVisited(world, routes, attempts, history, trail, made, index, x.attempts);
      history := if x.attempts == attempts then history else history + [Tried(index)];
      made := if x.attempts == attempts then made else made + [visits - 1];
      if verdict == Return {
        ServedLast(x.streaming, routes, index, x.pieces, x.attempts, world, visits);
        return;
      }
      NotFlawless(x.streaming, world, visits, r.kind);
      if verdict.Again? {
        RetriedOnce(routes, oauthRetry, index, verdict.revision);
        oauthRetry := oauthRetry[r.key := verdict.revision];
        VisitedAgain(world, routes, x.attempts, history, path, made, index);
        continue;
      }
      index, history := Onward(routes, index, verdict, world, x.attempts, history, path, made);
      if index < |routes| && verdict != NextRoute(false) && !v.waited {
        HasLeft(v, x.pieces, |x.attempts| - 1);
        SteadyTrail(world, routes, x.attempts, history, path, made, index);
        ServedNothing(x.streaming, routes, x.pieces, x.attempts, false, world, visits);
        return;
      }
    }
    RetriesBounded(routes, oauthRetry);
    SteadyTrail(world, routes, x.attempts, history, path, made, index);
    exhausted := true;
    ServedNothing(x.streaming, routes, x.pieces, x.attempts, true, world, visits);
    EndWithError(x);
  }

  lemma BreakerPassed(routes: seq<Route>, index: nat, v: Visit)
    requires index < |routes|
    ensures PassesBreaker(routes, index, v)
       <==> v.noted && !((index == 0 || routes[index - 1].candidate != routes[index].candidate) && !v.ready)
  {
  }

  lemma SteadyTrail(world: nat -> Visit, routes: seq<Route>, attempts: seq<Attempt>, history: seq<Mark>,
                    path: seq<nat>, made: seq<nat>, index: nat)
    requires Steady(world, routes, attempts, history, path, made, index)
    ensures Traced(world, routes, attempts, history, |path|) && Covered(routes, history, index)
    ensures Trail(world, routes, attempts, path, made)
  {
    hide Progress, Justified, Covered, Trail, Traced;
    KeptTraced(world, routes, attempts, history, |path|, index);
  }

  lemma HasLeft(v: Visit, pieces: seq<Piece>, a: int)
    requires !v.waited && AllBeats(pieces)
    ensures ClientLeft(v) && Unmixed(pieces, a)
  {
    BeatsThenError(pieces, a);
  }

  /** The revision at which a key's credential was rejected, 0 when it was not. */
  function Rejected(oauthRetry: map<int, nat>, key: int): nat {
    if key in oauthRetry then oauthRetry[key] else 0
  }

  ghost predicate Retried(routes: seq<Route>, oauthRetry: map<int, nat>) {
    oauthRetry.Keys <= OAuthKeys(routes) && forall k | k in oauthRetry :: oauthRetry[k] > 0
  }

  ghost function Used(oauthRetry: map<int, nat>): nat {
    |oauthRetry.Keys|
  }

  ghost function Left(routes: seq<Route>, oauthRetry: map<int, nat>): nat {
    |OAuthKeys(routes) - oauthRetry.Keys|
  }

  lemma Started(streaming: bool, routes: seq<Route>, pieces: seq<Piece>, world: nat -> Visit)
    requires pieces == []
    ensures Steady(world, routes, [], [], [], [], 0) && NoneMissed(streaming, world, 0)
    ensures Progress(routes, [], [], 0) && AllBeats(pieces)
    ensures Retried(routes, map[]) && Used(map[]) == 0
  {
  }

  /** The loop gives up: nothing but heartbeats went out, and now an error. */
  method EndWithError(x: Exchange)
    requires x.Valid() && AllBeats(x.pieces)
    modifies x`committed, x`pieces
    ensures Unmixed(x.pieces, |x.attempts| - 1) && x.pieces == old(x.pieces) + [ErrorPiece]
  {
    BeatsThenError(x.pieces, |x.attempts| - 1);
    x.FinishError();
  }

  lemma RetriedOnce(routes: seq<Route>, oauthRetry: map<int, nat>, index: nat, revision: nat)
    requires index < |routes| && IsOAuth(routes[index]) && Retried(routes, oauthRetry)
    requires Rejected(oauthRetry, routes[index].key) == 0 && revision > 0
    ensures var more := oauthRetry[routes[index].key := revision];
      Retried(routes, more) && Left(routes, more) < Left(routes, oauthRetry) && Used(more) == Used(oauthRetry) + 1
  {
    var key := routes[index].key;
    var more := oauthRetry[key := revision];
    assert more.Keys == oauthRetry.Keys + {key};
    assert OAuthKeys(routes) - oauthRetry.Keys == (OAuthKeys(routes) - more.Keys) + {key};
  }

  lemma RetriesBounded(routes: seq<Route>, oauthRetry: map<int, nat>)
    requires Retried(routes, oauthRetry)
    ensures Used(oauthRetry) <= |OAuthKeys(routes)|
  {
    assert OAuthKeys(routes) == oauthRetry.Keys + (OAuthKeys(routes) - oauthRetry.Keys);
  }

  /** A whole request from the empty response on. */
  method Serve(streaming: bool, ticking: bool, routes: seq<Route>, world: nat -> Visit)
    returns (pieces: seq<Piece>, attempts: seq<Attempt>, exhausted: bool, visits: nat,
             ghost history: seq<Mark>, ghost path: seq<nat>, ghost made: seq<nat>)
    requires Grouped(routes)
    requires forall t :: world(t).credential.Issued? ==> world(t).credential.revision > 0
    ensures Unmixed(pieces, |attempts| - 1)
    ensures Consecutive(attempts) && |attempts| <= |routes| + |OAuthKeys(routes)|
    ensures Tries(history) == RoutesOf(attempts) && NeverBack(routes, history)
    ensures Justified(world, routes, history, visits)
    ensures exhausted ==> Covered(routes, history, |routes|)
    ensures Served(streaming, routes, pieces, attempts, exhausted, world, visits)
    ensures |path| == visits && Trail(world, routes, attempts, path, made)
  {
    var x := new Exchange(streaming, ticking);
    exhausted, visits, history, path, made := Generate(x, routes, world);
    pieces, attempts := x.pieces, x.attempts;
  }
}
