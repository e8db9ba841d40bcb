/** Framing of server-sent events, as sections 9.2.5 and 9.2.6 of the WHATWG HTML standard describe it,
    except that an event is also dispatched at the end of input and a lone carriage return ends no line. */
module SseFraming {
  import opened Wrappers
  import opened Sequences

  datatype SSEEvent = SSEEvent(name: string, data: string, raw: string)

  // ---- lines ----

  /** Up to and including the first line feed, or everything when there is none. */
  function FirstLine(s: string): (line: string)
    ensures line <= s && (s != "" ==> line != "")
  {
    if s == "" then "" else if s[0] == '\n' then "\n" else [s[0]] + FirstLine(s[1..])
  }

  function TrimEnd(s: string, c: char): string {
    if s != "" && s[|s| - 1] == c then s[..|s| - 1] else s
  }

  /** A line without its line feed and then without one carriage return. */
  function Trimmed(line: string): string {
    TrimEnd(TrimEnd(line, '\n'), '\r')
  }

  /** What stands before the first colon. */
  function Field(s: string): (f: string)
    ensures f <= s
  {
    if s == "" || s[0] == ':' then "" else [s[0]] + Field(s[1..])
  }

  /** What stands after the first colon and one space. */
  function Value(s: string): string {
    var rest := s[|Field(s)|..];
    if rest == "" then ""
    else if |rest| > 1 && rest[1] == ' ' then rest[2..] else rest[1..]
  }

  function Join(lines: seq<string>): string {
    if lines == [] then ""
    else if |lines| == 1 then lines[0]
    else Join(lines[..|lines| - 1]) + "\n" + lines[|lines| - 1]
  }

  // ---- reading ----

  /** The event so far: its name, its data lines and its raw bytes. */
  datatype Partial = Partial(name: string, data: seq<string>, raw: string)

  function Take(p: Partial, line: string): Partial {
    var t := Trimmed(line);
    var q := p.(raw := p.raw + line);
    if t == "" || t[0] == ':' then q
    else if Field(t) == "event" then q.(name := Value(t))
    else if Field(t) == "data" then q.(data := q.data + [Value(t)])
    else q
  }

  function Dispatch(p: Partial): SSEEvent {
    SSEEvent(p.name, Join(p.data), p.raw)
  }

  datatype Read = Read(event: Option<SSEEvent>, rest: string)

  /** Reads lines until an empty one or the end of input. */
  function ReadFrom(p: Partial, s: string): (r: Read)
    ensures r.event.Some? ==> r.event.value.raw + r.rest == p.raw + s
    ensures |r.rest| <= |s|
    ensures r.event == None <==> p.raw + s == ""
    ensures r.event == None ==> r.rest == ""
    decreases |s|
  {
    if s == "" then Read(if p.raw == "" then None else Some(Dispatch(p)), "")
    else
      var line := FirstLine(s);
      var q := Take(p, line);
      assert line + s[|line|..] == s;
      assert p.raw + s == q.raw + s[|line|..];
      if Trimmed(line) == "" then Read(Some(Dispatch(q)), s[|line|..]) else ReadFrom(q, s[|line|..])
  }

  const NOTHING := Partial("", [], "")

  function ReadEvent(s: string): Read {
    ReadFrom(NOTHING, s)
  }

  /** All events of an input: each one takes at least one byte, so reading ends. */
  function ReadAll(s: string): seq<SSEEvent>
    decreases |s|
  {
    var r := ReadEvent(s);
    if r.event == None then []
    else
      assert |r.event.value.raw + r.rest| == |s|;
      if |r.rest| < |s| then [r.event.value] + ReadAll(r.rest) else [r.event.value]
  }

  function RawOf(e: SSEEvent): string {
    e.raw
  }

  lemma {:induction false} ReadTakes(p: Partial, s: string)
    requires s != ""
    ensures ReadFrom(p, s).event.Some? && |ReadFrom(p, s).rest| < |s|
    decreases |s|
  {
    var line := FirstLine(s);
    if Trimmed(line) != "" && s[|line|..] != "" { ReadTakes(Take(p, line), s[|line|..]); }
  }

  /** Main result: for every input, the raw parts of the events are the input, nothing lost or repeated. */
  lemma {:induction false} RawIsInput(s: string)
    ensures FlatMap(RawOf, ReadAll(s)) == s
    decreases |s|
  {
    if s != "" {
      ReadTakes(NOTHING, s);
      var r := ReadEvent(s);
      RawIsInput(r.rest);
      FlatMapConcat(RawOf, [r.event.value], ReadAll(r.rest));
      FlatMapOne(RawOf, r.event.value);
      assert NOTHING.raw + s == s;
    } else {
      assert ReadAll(s) == [];
    }
  }

  // ---- writing ----

  datatype Frame = Frame(name: string, payload: string)

  function EncodeSSE(f: Frame): string {
    (if f.name == "" then "" else "event: " + f.name + "\n") + "data: " + f.payload + "\n\n"
  }

  predicate OneLine(s: string) {
    '\n' !in s
  }

  predicate EndsInReturn(s: string) {
    s != "" && s[|s| - 1] == '\r'
  }

  lemma {:induction false} LineAt(a: string, rest: string)
    requires OneLine(a)
    ensures FirstLine(a + "\n" + rest) == a + "\n"
    ensures (a + "\n" + rest)[|a| + 1..] == rest
  {
    if a == "" {
      assert a + "\n" + rest == "\n" + rest;
    } else {
      assert (a + "\n" + rest)[1..] == a[1..] + "\n" + rest;
      LineAt(a[1..], rest);
      assert a == [a[0]] + a[1..];
    }
  }

  lemma {:induction false} FieldAt(f: string, v: string)
    requires ':' !in f
    ensures Field(f + ": " + v) == f && Value(f + ": " + v) == v
  {
    var s := f + ": " + v;
    if f == "" {
      assert s == ": " + v && s[0] == ':';
    } else {
      assert s[1..] == f[1..] + ": " + v;
      FieldAt(f[1..], v);
      assert f == [f[0]] + f[1..];
    }
    assert s[|f|..] == ": " + v;
  }

  /** A line `field: value` gives its value, without one carriage return at its end. */
  lemma TakeField(p: Partial, f: string, v: string)
    requires f == "event" || f == "data"
    ensures var line, w := f + ": " + v + "\n", TrimEnd(v, '\r');
      && Trimmed(line) == f + ": " + w && Trimmed(line) != ""
      && Take(p, line) == if f == "event" then Partial(w, p.data, p.raw + line) else Partial(p.name, p.data + [w], p.raw + line)
  {
    var line, w := f + ": " + v + "\n", TrimEnd(v, '\r');
    assert TrimEnd(line, '\n') == f + ": " + v;
    assert TrimEnd(f + ": " + v, '\r') == f + ": " + w;
    FieldAt(f, w);
  }

  lemma ReadLine(p: Partial, a: string, rest: string)
    requires OneLine(a) && Trimmed(a + "\n") != ""
    ensures ReadFrom(p, a + "\n" + rest) == ReadFrom(Take(p, a + "\n"), rest)
  {
    LineAt(a, rest);
  }

  lemma ReadEmpty(p: Partial, rest: string)
    ensures ReadFrom(p, "\n" + rest) == Read(Some(Dispatch(p.(raw := p.raw + "\n"))), rest)
  {
    LineAt("", rest);
    assert "" + "\n" + rest == "\n" + rest;
    assert Trimmed("\n") == "";
  }

  lemma OneLineField(f: string, v: string)
    requires OneLine(f) && OneLine(v)
    ensures OneLine(f + ": " + v)
  {
  }

  lemma DataRead(p: Partial, payload: string, rest: string)
    requires OneLine(payload) && p.data == []
    ensures ReadFrom(p, "data: " + payload + "\n" + ("\n" + rest))
         == Read(Some(SSEEvent(p.name, TrimEnd(payload, '\r'), p.raw + ("data: " + payload + "\n") + "\n")), rest)
  {
    TakeField(p, "data", payload);
    OneLineField("data", payload);
    assert "data" + ": " == "data: ";
    hide FirstLine, Field, Value, Take, TrimEnd, Trimmed, ReadFrom;
    ReadLine(p, "data: " + payload, "\n" + rest);
    ReadEmpty(Take(p, "data: " + payload + "\n"), rest);
    assert [] + [TrimEnd(payload, '\r')] == [TrimEnd(payload, '\r')];
  }

  lemma NameRead(name: string, body: string)
    requires OneLine(name)
    ensures ReadFrom(NOTHING, "event: " + name + "\n" + body)
         == ReadFrom(Partial(TrimEnd(name, '\r'), [], "event: " + name + "\n"), body)
  {
    TakeField(NOTHING, "event", name);
    OneLineField("event", name);
    assert "event" + ": " == "event: ";
    hide FirstLine, Field, Value, Take, TrimEnd, Trimmed, ReadFrom;
    ReadLine(NOTHING, "event: " + name, body);
    assert "" + ("event: " + name + "\n") == "event: " + name + "\n";
  }

  /** Reading one written frame gives its name and payload back, each without a final carriage return. */
  lemma {:induction false} FrameRead(f: Frame, rest: string)
    requires OneLine(f.name) && OneLine(f.payload)
    ensures ReadEvent(EncodeSSE(f) + rest)
         == Read(Some(SSEEvent(TrimEnd(f.name, '\r'), TrimEnd(f.payload, '\r'), EncodeSSE(f))), rest)
  {
    var body := "data: " + f.payload + "\n" + ("\n" + rest);
    var written := "data: " + f.payload + "\n" + "\n";
    hide TrimEnd, ReadFrom, OneLine;
    if f.name == "" {
      TrimNothing();
      DataRead(NOTHING, f.payload, rest);
      assert EncodeSSE(f) + rest == body;
      assert "" + ("data: " + f.payload + "\n") + "\n" == written == EncodeSSE(f);
    } else {
      var head := "event: " + f.name + "\n";
      NameRead(f.name, body);
      DataRead(Partial(TrimEnd(f.name, '\r'), [], head), f.payload, rest);
      assert EncodeSSE(f) + rest == head + body;
      assert head + ("data: " + f.payload + "\n") + "\n" == EncodeSSE(f);
    }
  }

  lemma TrimNothing()
    ensures TrimEnd("", '\r') == ""
  {
  }

  function Pair(e: SSEEvent): Frame {
    Frame(e.name, e.data)
  }

  function Stripped(f: Frame): seq<Frame> {
    [Frame(TrimEnd(f.name, '\r'), TrimEnd(f.payload, '\r'))]
  }

  function PairOf(e: SSEEvent): seq<Frame> {
    [Pair(e)]
  }

  function Written(frames: seq<Frame>): string {
    if frames == [] then "" else EncodeSSE(frames[0]) + Written(frames[1..])
  }

  lemma ReadFirst(f: Frame, rest: string)
    requires OneLine(f.name) && OneLine(f.payload)
    ensures ReadAll(EncodeSSE(f) + rest)
         == [SSEEvent(TrimEnd(f.name, '\r'), TrimEnd(f.payload, '\r'), EncodeSSE(f))] + ReadAll(rest)
  {
    FrameNotEmpty(f);
    FrameRead(f, rest);
    hide EncodeSSE, TrimEnd, ReadEvent, OneLine;
  }

  lemma {:induction false} FramesRead(frames: seq<Frame>)
    requires forall f | f in frames :: OneLine(f.name) && OneLine(f.payload)
    ensures FlatMap(PairOf, ReadAll(Written(frames))) == FlatMap(Stripped, frames)
    decreases |frames|
  {
    if frames != [] {
      hide EncodeSSE, TrimEnd, FlatMap, ReadEvent, ReadAll, OneLine;
      var f, rest := frames[0], Written(frames[1..]);
      assert f in frames;
      ReadFirst(f, rest);
      FramesRead(frames[1..]);
      var e := SSEEvent(TrimEnd(f.name, '\r'), TrimEnd(f.payload, '\r'), EncodeSSE(f));
      FlatMapConcat(PairOf, [e], ReadAll(rest));
      FlatMapConcat(Stripped, [f], frames[1..]);
      FlatMapOne(PairOf, e);
      FlatMapOne(Stripped, f);
      assert frames == [f] + frames[1..];
    } else {
      NothingRead();
    }
  }

  lemma NothingRead()
    ensures ReadAll("") == []
    ensures FlatMap(PairOf, []) == [] && FlatMap(Stripped, []) == []
  {
  }

  lemma FrameNotEmpty(f: Frame)
    ensures EncodeSSE(f) != ""
  {
  }

  /** Main result: frames of one-line names and payloads come back as they were written if and only if
      none of them ends in a carriage return. */
  lemma {:induction false} FramesReturn(frames: seq<Frame>)
    requires forall f | f in frames :: OneLine(f.name) && OneLine(f.payload)
    ensures FlatMap(PairOf, ReadAll(Written(frames))) == frames <==>
      forall f | f in frames :: !EndsInReturn(f.name) && !EndsInReturn(f.payload)
  {
    FramesRead(frames);
    StrippedSame(frames);
  }

  /** A payload that ends in a carriage return comes back without it. */
  lemma ReturnLost()
    ensures FlatMap(PairOf, ReadAll(Written([Frame("", "a\r")]))) != [Frame("", "a\r")]
  {
    var f := Frame("", "a\r");
    assert f in [f] && EndsInReturn(f.payload);
    FramesReturn([f]);
  }

  lemma {:induction false} StrippedSame(frames: seq<Frame>)
    ensures |FlatMap(Stripped, frames)| == |frames|
    ensures FlatMap(Stripped, frames) == frames <==> forall f | f in frames :: !EndsInReturn(f.name) && !EndsInReturn(f.payload)
  {
    if frames != [] {
      var front, last := frames[..|frames| - 1], frames[|frames| - 1];
      StrippedSame(front);
      assert frames == front + [last];
      var s := FlatMap(Stripped, frames);
      assert s == FlatMap(Stripped, front) + Stripped(last);
      assert s == frames <==> FlatMap(Stripped, front) == front && Stripped(last) == [last] by {
        assert s[..|front|] == FlatMap(Stripped, front) && frames[..|front|] == front;
        assert s[|front|] == Stripped(last)[0];
      }
    }
  }

  // ---- the reader ----

  /** A buffered reader over the bytes that are still to come. */
  class Reader {
    var rest: string

    constructor (input: string)
      ensures rest == input
    {
      rest := input;
    }

    /** Up to the next line feed; `eof` when the input ended first. */
    method ReadString() returns (line: string, eof: bool)
      modifies this
      ensures line == FirstLine(old(rest)) && rest == old(rest)[|line|..]
      ensures eof ==> rest == ""
      ensures !eof ==> line != ""
    {
      line := FirstLine(rest);
      rest := rest[|line|..];
      eof := line == "" || line[|line| - 1] != '\n';
      if eof { NoLineFeed(old(rest)); }
    }
  }

  lemma {:induction false} NoLineFeed(s: string)
    requires FirstLine(s) == "" || FirstLine(s)[|FirstLine(s)| - 1] != '\n'
    ensures FirstLine(s) == s
  {
    if s != "" && s[0] != '\n' {
      assert FirstLine(s) == [s[0]] + FirstLine(s[1..]);
      NoLineFeed(s[1..]);
    }
  }

  method ReadSSEEvent(reader: Reader) returns (event: Option<SSEEvent>)
    modifies reader
    ensures Read(event, reader.rest) == ReadEvent(old(reader.rest))
  {
    hide FirstLine, Field, Value, Join;
    var name, data: seq<string>, raw := "", [], "";
    while true
      invariant ReadFrom(Partial(name, data, raw), reader.rest) == ReadEvent(old(reader.rest))
      decreases |reader.rest|
    {
      ghost var p, s := Partial(name, data, raw), reader.rest;
      var line, eof := reader.ReadString();
      if line != "" {
        raw := raw + line;
        var trimmed := Trimmed(line);
        if trimmed == "" {
          return Some(SSEEvent(name, Join(data), raw));
        }
        if trimmed[0] != ':' {
          var field, value := Field(trimmed), Value(trimmed);
          if field == "event" {
            name := value;
          } else if field == "data" {
            data := data + [value];
          }
        }
        assert Partial(name, data, raw) == Take(p, line);
      }
      if eof {
        return if raw == "" then None else Some(SSEEvent(name, Join(data), raw));
      }
    }
  }
}
