/** What the outside world does while one request is served, and what the client was sent. */
module Delivery {
  import opened Wrappers
  import opened Sequences
  import opened Routes

  // ---- what the outside world does during one pass through the loop ----

  /** How a write to the client ends: everything taken, or only the first pieces of it. */
  datatype Take = Took | Cut(sent: nat)

  datatype Failure = Failure(status: int, code: string)

  /** What happens while a response stream is read. */
  datatype Incoming =
    | Chunks(chunks: seq<string>, take: Take, semantic: bool, last: bool)
    | Rejected(failure: Option<Failure>, raw: string)
    | Unsaved // a tool turn of the stream could not be stored
    | Broken
    | Beat(take: Take)
    | Gone

  datatype Credential = Issued(revision: nat, refreshed: bool) | Unavailable | Abandoned

  datatype Dial =
    | Down(cancelled: bool)
    | Answer(status: int, eventStream: bool, readable: bool, cancelled: bool, code: string)

  datatype Visit = Visit(
    ready: bool,             // the breaker admits the candidate
    noted: bool,             // the routing event was recorded
    prepared: bool,          // the request could be written for this route
    credential: Credential,
    encoded: bool,           // and encoded with the credential
    begun: bool,             // the attempt was recorded
    beats: seq<Take>,        // heartbeats while waiting for response headers
    dial: Dial,
    incoming: seq<Incoming>, // the response stream, which ends when the list does
    answer: string,          // a buffered response as the client would see it
    body: Option<Take>,      // could it be converted, and how the client took it
    usageRead: bool, complete: bool, cancelled: bool,
    attemptSaved: bool, stateSaved: bool, requestSaved: bool,
    waited: bool)            // the back-off ran out before the client left

  function Taken<T>(body: seq<T>, take: Take): seq<T> {
    if take.Took? || |body| <= take.sent then body else body[..take.sent]
  }

  // ---- what the upstream's answer holds ----

  /** The chunks of a converted stream, up to its last event or to where it fails. */
  function Through(incoming: seq<Incoming>): seq<string> {
    if incoming == [] then []
    else match incoming[0]
      case Chunks(chunks, _, _, last) => chunks + if last then [] else Through(incoming[1..])
      case Beat(_) => Through(incoming[1..])
      case _ => []
  }

  /** A converted stream reaches its last event. */
  predicate Ends(incoming: seq<Incoming>) {
    incoming != [] && match incoming[0]
      case Chunks(_, _, _, last) => last || Ends(incoming[1..])
      case Beat(_) => Ends(incoming[1..])
      case _ => false
  }

  /** A relayed stream reaches its first semantic chunk or its last event. */
  predicate Commits(incoming: seq<Incoming>) {
    incoming != [] && match incoming[0]
      case Chunks(_, _, semantic, last) => semantic || last || Commits(incoming[1..])
      case Beat(_) => Commits(incoming[1..])
      case _ => false
  }

  /** The lines of a stream that is passed through, error events among them. */
  function Raw(incoming: seq<Incoming>): seq<string> {
    if incoming == [] then []
    else match incoming[0]
      case Chunks(chunks, _, _, _) => chunks + Raw(incoming[1..])
      case Rejected(_, raw) => [raw] + Raw(incoming[1..])
      case Beat(_) => Raw(incoming[1..])
      case _ => []
  }

  predicate RawEnds(incoming: seq<Incoming>) {
    forall e | e in incoming :: e.Chunks? || e.Rejected? || e.Beat?
  }

  predicate Refuses(e: Incoming) {
    e.Gone? || (e.Chunks? && e.take != Took) || (e.Beat? && e.take != Took)
  }

  /** The client goes away, or does not take all of a write, while the stream is read. */
  predicate Quit(incoming: seq<Incoming>) {
    exists e :: e in incoming && Refuses(e)
  }

  predicate ClientLeft(v: Visit) {
    || v.credential.Abandoned? || v.cancelled || !v.waited || v.dial.cancelled
    || (exists b :: b in v.beats && b != Took)
    || Quit(v.incoming) || (v.body.Some? && v.body.value != Took)
  }

  predicate OAuth(kind: RouteKind) {
    kind == Codex || kind == AntigravityOAuth
  }

  /** What the client is to get from this answer. */
  function Content(streaming: bool, kind: RouteKind, v: Visit): seq<string> {
    if !streaming then [v.answer]
    else if kind == Direct(true) then Raw(v.incoming)
    else Through(v.incoming)
  }

  /** An upstream call can be started. */
  predicate Startable(kind: RouteKind, v: Visit) {
    && v.prepared && v.begun
    && (OAuth(kind) ==> v.credential.Issued?)
    && (kind == AntigravityOAuth ==> v.encoded)
  }

  /** The answer is complete and can be converted. */
  predicate Flows(streaming: bool, kind: RouteKind, v: Visit) {
    && (kind == Direct(true) ==> streaming ==> RawEnds(v.incoming))
    && (kind == Direct(false) ==> streaming ==> Ends(v.incoming))
    && (OAuth(kind) ==> Ends(v.incoming))
    && (!streaming ==> v.body.Some?)
    && v.usageRead && v.complete
  }

  /** Nothing goes wrong: not upstream, not in the log, not at the client. */
  predicate Smooth(streaming: bool, kind: RouteKind, v: Visit) {
    && Startable(kind, v) && v.dial.Answer? && 200 <= v.dial.status < 300 && v.dial.eventStream
    && Flows(streaming, kind, v)
    && v.attemptSaved && v.requestSaved && v.stateSaved && !ClientLeft(v)
  }

  // ---- what the client was sent ----

  datatype Piece = Heartbeat | Payload(attempt: nat, chunk: string) | ErrorPiece

  predicate AllBeats(pieces: seq<Piece>) {
    forall p | p in pieces :: p.Heartbeat?
  }

  predicate Payloads(pieces: seq<Piece>, a: int) {
    forall p | p in pieces :: p == Heartbeat || (p.Payload? && p.attempt == a)
  }

  predicate Errors(pieces: seq<Piece>) {
    forall p | p in pieces :: p.ErrorPiece?
  }

  /** All payload comes from attempt `a`: first heartbeats and that payload, then only errors. */
  ghost predicate Unmixed(pieces: seq<Piece>, a: int) {
    exists k :: 0 <= k <= |pieces| && Payloads(pieces[..k], a) && Errors(pieces[k..])
  }

  function ChunkOf(p: Piece): seq<string> {
    if p.Payload? then [p.chunk] else []
  }

  /** The payload the client has. */
  function Delivered(pieces: seq<Piece>): seq<string> {
    FlatMap(ChunkOf, pieces)
  }

  /** The client was told that the request failed. */
  predicate Told(pieces: seq<Piece>) {
    pieces != [] && pieces[|pieces| - 1].ErrorPiece?
  }

  function Chunked(a: nat, chunks: seq<string>): seq<Piece> {
    seq(|chunks|, i requires 0 <= i < |chunks| => Payload(a, chunks[i]))
  }

  /** The client has a part of the content from its start on, and all of it unless it was told
      otherwise or went away. */
  ghost predicate Answered(streaming: bool, kind: RouteKind, v: Visit, pieces: seq<Piece>) {
    && Delivered(pieces) <= Content(streaming, kind, v)
    && (Told(pieces) || ClientLeft(v) || Delivered(pieces) == Content(streaming, kind, v))
  }

  /** The client has all of the content and no error. */
  ghost predicate Whole(streaming: bool, kind: RouteKind, v: Visit, pieces: seq<Piece>) {
    Delivered(pieces) == Content(streaming, kind, v) && !Told(pieces)
  }

  // ---- how these grow ----

  lemma {:induction false} ChunkedDelivered(a: nat, chunks: seq<string>)
    ensures Delivered(Chunked(a, chunks)) == chunks
  {
    if chunks != [] {
      var front := chunks[..|chunks| - 1];
      ChunkedDelivered(a, front);
      assert Chunked(a, chunks) == Chunked(a, front) + [Payload(a, chunks[|chunks| - 1])];
      FlatMapMore(ChunkOf, Chunked(a, front), Payload(a, chunks[|chunks| - 1]));
    }
  }

  /** What a write adds to the payload. */
  lemma WriteDelivers(pieces: seq<Piece>, a: nat, chunks: seq<string>, take: Take)
    ensures Delivered(pieces + Taken(Chunked(a, chunks), take)) == Delivered(pieces) + Taken(chunks, take)
    ensures Taken(chunks, take) <= chunks
    ensures Payloads(pieces, a) ==> Payloads(pieces + Taken(Chunked(a, chunks), take), a)
    ensures !Told(pieces) ==> !Told(pieces + Taken(Chunked(a, chunks), take))
  {
    assert Taken(Chunked(a, chunks), take) == Chunked(a, Taken(chunks, take));
    ChunkedDelivered(a, Taken(chunks, take));
    FlatMapConcat(ChunkOf, pieces, Chunked(a, Taken(chunks, take)));
  }

  /** Heartbeats and errors add nothing to it. */
  lemma OthersDeliverNothing(pieces: seq<Piece>, more: seq<Piece>)
    requires forall p | p in more :: !p.Payload?
    ensures Delivered(pieces + more) == Delivered(pieces)
  {
    FlatMapConcat(ChunkOf, pieces, more);
    FlatMapNone(ChunkOf, more);
  }

  lemma BeatsThenAttempt(beats: seq<Piece>, more: seq<Piece>, a: int)
    requires AllBeats(beats) && Unmixed(more, a)
    ensures Unmixed(beats + more, a)
  {
    var k :| 0 <= k <= |more| && Payloads(more[..k], a) && Errors(more[k..]);
    assert (beats + more)[..|beats| + k] == beats + more[..k];
    assert (beats + more)[|beats| + k..] == more[k..];
  }

  /** Earlier heartbeats do not change what the client got or was told. */
  lemma BeatsDeliverNothing(beats: seq<Piece>, more: seq<Piece>)
    requires AllBeats(beats)
    ensures Delivered(beats + more) == Delivered(more) && (Told(beats + more) <==> Told(more))
  {
    FlatMapConcat(ChunkOf, beats, more);
    FlatMapNone(ChunkOf, beats);
    if beats != [] && more == [] { assert beats[|beats| - 1] in beats && beats + more == beats; }
  }

  lemma AttemptThenErrors(more: seq<Piece>, errors: seq<Piece>, a: int)
    requires Payloads(more, a) && Errors(errors)
    ensures Unmixed(more + errors, a)
  {
    assert (more + errors)[..|more|] == more && (more + errors)[|more|..] == errors;
  }

  /** An attempt's payload alone, and with an error after it. */
  lemma PayloadsUnmixed(more: seq<Piece>, a: int)
    requires Payloads(more, a)
    ensures Unmixed(more, a) && Unmixed(more + [ErrorPiece], a)
    ensures Delivered(more + [ErrorPiece]) == Delivered(more) && Told(more + [ErrorPiece]) && !Told(more)
  {
    AttemptThenErrors(more, [], a);
    assert more + [] == more;
    AttemptThenErrors(more, [ErrorPiece], a);
    OthersDeliverNothing(more, [ErrorPiece]);
  }

  lemma UnmixedThenError(more: seq<Piece>, a: int)
    requires Unmixed(more, a)
    ensures Unmixed(more + [ErrorPiece], a)
    ensures Delivered(more + [ErrorPiece]) == Delivered(more) && Told(more + [ErrorPiece])
  {
    var k :| 0 <= k <= |more| && Payloads(more[..k], a) && Errors(more[k..]);
    assert (more + [ErrorPiece])[..k] == more[..k];
    assert (more + [ErrorPiece])[k..] == more[k..] + [ErrorPiece];
    OthersDeliverNothing(more, [ErrorPiece]);
  }

  lemma BeatsThenError(more: seq<Piece>, a: int)
    requires AllBeats(more)
    ensures Unmixed(more, a) && Unmixed(more + [ErrorPiece], a)
    ensures Delivered(more) == [] && Delivered(more + [ErrorPiece]) == [] && Told(more + [ErrorPiece]) && !Told(more)
  {
    PayloadsUnmixed(more, a);
    FlatMapNone(ChunkOf, more);
  }

  lemma Grew(was: seq<Piece>, more: seq<Piece>)
    ensures (was + more)[|was|..] == more
  {
  }
}
