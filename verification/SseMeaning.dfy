/** What an event in any input means, said about its lines alone: comments, fields that do not matter,
    names and data in any order and number, with or without a space after the colon and a carriage return
    before the line feed. */
module SseMeaning {
  import opened Wrappers
  import opened SseFraming

  datatype Content = Comment(text: string) | Bare(field: string) | Pair(field: string, spaced: bool, value: string)

  datatype Line = Line(content: Content, returned: bool)

  function Text(c: Content): string {
    match c
    case Comment(text) => ":" + text
    case Bare(field) => field
    case Pair(field, spaced, value) => field + ":" + (if spaced then " " else "") + value
  }

  function Break(returned: bool): string {
    if returned then "\r\n" else "\n"
  }

  /** The line as it stands in the input. */
  function Written(l: Line): string {
    Text(l.content) + Break(l.returned)
  }

  function AllWritten(lines: seq<Line>): string {
    if lines == [] then "" else Written(lines[0]) + AllWritten(lines[1..])
  }

  /** The parts are what they seem: one line, no colon in a field, a leading space only where it is said. */
  predicate Proper(c: Content) {
    && OneLine(Text(c))
    && (c.Bare? ==> c.field != "" && ':' !in c.field)
    && (c.Pair? ==> ':' !in c.field && (!c.spaced ==> c.value == "" || c.value[0] != ' '))
  }

  /** A carriage return at the end is the one before the line feed. */
  predicate ProperLine(l: Line) {
    Proper(l.content) && (!l.returned ==> !EndsInReturn(Text(l.content)))
  }

  function ValueOf(c: Content): string {
    if c.Pair? then c.value else ""
  }

  predicate Gives(c: Content, field: string) {
    !c.Comment? && c.field == field
  }

  /** The value of the last `event` field, or the name so far. */
  function NameIn(was: string, lines: seq<Line>): string
    decreases |lines|
  {
    if lines == [] then was
    else NameIn(if Gives(lines[0].content, "event") then ValueOf(lines[0].content) else was, lines[1..])
  }

  /** The values of the `data` fields in order. */
  function DataIn(lines: seq<Line>): seq<string> {
    if lines == [] then []
    else (if Gives(lines[0].content, "data") then [ValueOf(lines[0].content)] else []) + DataIn(lines[1..])
  }

  /** The data lines with a line feed between any two. */
  function WithBreaks(data: seq<string>): string {
    if data == [] then "" else data[0] + AfterFirst(data[1..])
  }

  function AfterFirst(data: seq<string>): string {
    if data == [] then "" else "\n" + data[0] + AfterFirst(data[1..])
  }

  // ---- reading gives that ----

  lemma {:induction false} FieldUpTo(field: string, rest: string)
    requires ':' !in field && (rest == "" || rest[0] == ':')
    ensures Field(field + rest) == field
  {
    if field == "" {
      assert field + rest == rest;
    } else {
      assert (field + rest)[1..] == field[1..] + rest;
      FieldUpTo(field[1..], rest);
      assert field == [field[0]] + field[1..];
    }
  }

  lemma FieldOf(c: Content)
    requires Proper(c) && !c.Comment?
    ensures Field(Text(c)) == c.field && Value(Text(c)) == ValueOf(c)
  {
    var rest := if c.Bare? then "" else ":" + (if c.spaced then " " else "") + c.value;
    assert Text(c) == c.field + rest;
    FieldUpTo(c.field, rest);
    assert Text(c)[|c.field|..] == rest;
    if c.Pair? {
      assert c.spaced ==> rest[2..] == c.value;
      assert !c.spaced ==> rest[1..] == c.value;
    }
  }

  lemma TrimmedIs(l: Line)
    requires ProperLine(l)
    ensures Trimmed(Written(l)) == Text(l.content)
  {
    var t := Text(l.content);
    if l.returned {
      assert Written(l) == t + "\r" + "\n";
      assert TrimEnd(Written(l), '\n') == t + "\r";
      assert TrimEnd(t + "\r", '\r') == t;
    } else {
      assert TrimEnd(Written(l), '\n') == t;
    }
  }

  lemma TextIs(c: Content)
    requires Proper(c)
    ensures Text(c) != "" && (Text(c)[0] == ':' <==> c.Comment? || (c.Pair? && c.field == ""))
  {
    if c.Pair? && c.field != "" { assert Text(c)[0] == c.field[0] && c.field[0] in c.field; }
    if c.Bare? { assert c.field[0] in c.field; }
  }

  /** One line adds its name or its value, and its bytes. */
  lemma LineTaken(p: Partial, l: Line)
    requires ProperLine(l)
    ensures var c := l.content;
      Take(p, Written(l)) == Partial(
        if Gives(c, "event") then ValueOf(c) else p.name,
        p.data + (if Gives(c, "data") then [ValueOf(c)] else []),
        p.raw + Written(l))
  {
    TrimmedIs(l);
    TextIs(l.content);
    assert p.data + [] == p.data;
    hide Trimmed, Field, Value, Written;
    if !l.content.Comment? { FieldOf(l.content); }
  }

  lemma LineRead(p: Partial, l: Line, rest: string)
    requires ProperLine(l)
    ensures ReadFrom(p, Written(l) + rest) == ReadFrom(Take(p, Written(l)), rest)
  {
    TrimmedIs(l);
    TextIs(l.content);
    var a := Text(l.content) + (if l.returned then "\r" else "");
    assert Written(l) == a + "\n";
    hide Trimmed, Take, Text, Written, ProperLine, Proper, FirstLine, ReadFrom;
    OneLineReturned(Text(l.content), l.returned);
    ReadLine(p, a, rest);
  }

  lemma OneLineReturned(t: string, returned: bool)
    requires OneLine(t)
    ensures OneLine(t + if returned then "\r" else "")
  {
  }

  lemma BlankRead(p: Partial, returned: bool, rest: string)
    ensures ReadFrom(p, Break(returned) + rest) == Read(Some(Dispatch(p.(raw := p.raw + Break(returned)))), rest)
  {
    if returned {
      LineAt("\r", rest);
      assert "\r" + "\n" == "\r\n" && Trimmed("\r\n") == "";
      assert Take(p, "\r\n") == p.(raw := p.raw + "\r\n");
    } else {
      ReadEmpty(p, rest);
    }
  }

  lemma {:induction false} LinesRead(p: Partial, lines: seq<Line>, rest: string)
    requires forall l | l in lines :: ProperLine(l)
    ensures ReadFrom(p, AllWritten(lines) + rest)
         == ReadFrom(Partial(NameIn(p.name, lines), p.data + DataIn(lines), p.raw + AllWritten(lines)), rest)
    decreases |lines|
  {
    hide ReadFrom, Take, Written, ProperLine;
    if lines == [] {
      assert AllWritten(lines) + rest == rest && p.data + [] == p.data && p.raw + "" == p.raw;
    } else {
      var l, tail := lines[0], lines[1..];
      assert l in lines && forall x | x in tail :: x in lines;
      assert AllWritten(lines) + rest == Written(l) + (AllWritten(tail) + rest);
      LineRead(p, l, AllWritten(tail) + rest);
      LineTaken(p, l);
      LinesRead(Take(p, Written(l)), tail, rest);
      Grown(p, l, tail);
    }
  }

  lemma Grown(p: Partial, l: Line, tail: seq<Line>)
    ensures p.raw + Written(l) + AllWritten(tail) == p.raw + AllWritten([l] + tail)
    ensures p.data + (if Gives(l.content, "data") then [ValueOf(l.content)] else []) + DataIn(tail) == p.data + DataIn([l] + tail)
  {
    assert ([l] + tail)[1..] == tail;
  }

  lemma {:induction false} JoinIs(data: seq<string>)
    ensures Join(data) == WithBreaks(data)
  {
    if |data| == 1 {
      assert data[0] + "" == data[0];
    } else if |data| > 1 {
      JoinIs(data[..|data| - 1]);
      AfterMore(data[1..|data| - 1], data[|data| - 1]);
      assert data[..|data| - 1][1..] == data[1..|data| - 1] && data[1..] == data[1..|data| - 1] + [data[|data| - 1]];
    }
  }

  lemma {:induction false} AfterMore(data: seq<string>, last: string)
    ensures AfterFirst(data + [last]) == AfterFirst(data) + "\n" + last
  {
    if data == [] {
      assert [] + [last] == [last] && AfterFirst([last][1..]) == "";
    } else {
      assert (data + [last])[1..] == data[1..] + [last];
      AfterMore(data[1..], last);
    }
  }

  /** Main result: whatever lines stand before an empty one, reading takes exactly them and the empty line;
      the event's name is that of the last `event` field and its data those of the `data` fields, joined. */
  lemma EventMeans(lines: seq<Line>, returned: bool, rest: string)
    requires forall l | l in lines :: ProperLine(l)
    ensures var raw := AllWritten(lines) + Break(returned);
      ReadEvent(raw + rest) == Read(Some(SSEEvent(NameIn("", lines), WithBreaks(DataIn(lines)), raw)), rest)
  {
    hide ReadFrom, NameIn, DataIn, AllWritten;
    var raw := AllWritten(lines) + Break(returned);
    assert raw + rest == AllWritten(lines) + (Break(returned) + rest);
    LinesRead(NOTHING, lines, Break(returned) + rest);
    assert [] + DataIn(lines) == DataIn(lines) && "" + AllWritten(lines) == AllWritten(lines);
    BlankRead(Partial(NameIn("", lines), DataIn(lines), AllWritten(lines)), returned, rest);
    JoinIs(DataIn(lines));
  }

  /** At the end of input the lines so far are an event too. */
  lemma LastEventMeans(lines: seq<Line>)
    requires lines != [] && forall l | l in lines :: ProperLine(l)
    ensures ReadEvent(AllWritten(lines)) == Read(Some(SSEEvent(NameIn("", lines), WithBreaks(DataIn(lines)), AllWritten(lines))), "")
  {
    LinesRead(NOTHING, lines, "");
    assert AllWritten(lines) + "" == AllWritten(lines) && "" + AllWritten(lines) == AllWritten(lines);
    assert [] + DataIn(lines) == DataIn(lines);
    JoinIs(DataIn(lines));
    assert Written(lines[0]) != "";
    hide NameIn, DataIn, WithBreaks, Join;
  }

  /** Every line that is not empty is of this kind. */
  lemma EveryLine(a: string) returns (l: Line)
    requires OneLine(a) && Trimmed(a + "\n") != ""
    ensures ProperLine(l) && Written(l) == a + "\n"
  {
    assert TrimEnd(a + "\n", '\n') == a;
    var returned := EndsInReturn(a);
    var t := if returned then a[..|a| - 1] else a;
    assert t != "" && OneLine(t);
    assert returned ==> a == t + "\r" && t + "\r\n" == a + "\n";
    var c := Classified(t);
    l := Line(c, returned);
  }

  lemma Classified(t: string) returns (c: Content)
    requires t != "" && OneLine(t)
    ensures Proper(c) && Text(c) == t
  {
    var f := Field(t);
    NoColon(t);
    if f == t {
      return Bare(t);
    }
    var rest := t[|f| + 1..];
    assert t == f + ":" + rest;
    if rest != "" && rest[0] == ' ' {
      c := Pair(f, true, rest[1..]);
      assert rest == " " + rest[1..];
    } else {
      c := Pair(f, false, rest);
      assert f + ":" + "" + rest == f + ":" + rest;
    }
  }

  lemma {:induction false} NoColon(t: string)
    ensures ':' !in Field(t) && (Field(t) != t ==> |Field(t)| < |t| && t[|Field(t)|] == ':')
  {
    if t != "" && t[0] != ':' { NoColon(t[1..]); }
  }
}
