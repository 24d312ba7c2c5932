// Reading JSON events from a server-sent-event body line by line, each `data:`
// line an event of its own. Other fields, keepalive comments and lines that do
// not decode are passed over; what is written one event a line is read back.

module SseEvents {
  import opened Text
  import opened Json

  // ---- str.splitlines ---------------------------------------------------------

  predicate LineBreak(c: char) {
    c in {'\n', '\r', '\U{B}', '\U{C}', '\U{1C}', '\U{1D}', '\U{1E}', '\U{85}', '\U{2028}', '\U{2029}'}
  }

  // By code point.
  lemma BreakMeans(c: char)
    ensures LineBreak(c) <==> c as int in {10, 11, 12, 13, 28, 29, 30, 133, 8232, 8233}
  {
  }

  predicate OneLine(s: string) { forall i :: 0 <= i < |s| ==> !LineBreak(s[i]) }

  function BreakAt(s: string): (n: nat)
    ensures n <= |s| && OneLine(s[..n]) && (n < |s| ==> LineBreak(s[n]))
  {
    if s == "" || LineBreak(s[0]) then 0
    else
      assert forall i :: 0 < i < |s| ==> s[i] == s[1..][i - 1];
      1 + BreakAt(s[1..])
  }

  function Lines(s: string): seq<string>
    decreases |s|
  {
    if s == "" then []
    else
      var n := BreakAt(s);
      if n == |s| then [s]
      else
        var skip := if s[n] == '\r' && n + 1 < |s| && s[n + 1] == '\n' then 2 else 1;
        [s[..n]] + Lines(s[n + skip..])
  }

  // What a line can end in.
  ghost predicate Ending(e: string) {
    e in {"\n", "\r\n", "\r", "\U{B}", "\U{C}", "\U{1C}", "\U{1D}", "\U{1E}", "\U{85}", "\U{2028}", "\U{2029}"}
  }

  // A carriage return before a line feed is one ending with it.
  ghost predicate EndsThere(e: string, rest: string) {
    Ending(e) && (e == "\r" ==> rest == "" || rest[0] != '\n')
  }

  lemma {:induction false} BreakAfter(l: string, e: string, rest: string)
    requires OneLine(l) && Ending(e)
    ensures BreakAt(l + (e + rest)) == |l|
  {
    var s := l + (e + rest);
    if l == "" {
      assert s[0] == e[0];
    } else {
      assert s[1..] == l[1..] + (e + rest);
      BreakAfter(l[1..], e, rest);
    }
  }

  lemma LinesCons(l: string, e: string, rest: string)
    requires OneLine(l) && EndsThere(e, rest)
    ensures Lines(l + (e + rest)) == [l] + Lines(rest)
  {
    var s := l + (e + rest);
    BreakAfter(l, e, rest);
    assert s[..|l|] == l && s[|l|] == e[0] && s[|l| + |e|..] == rest;
    assert |e| == 2 ==> s[|l| + 1] == e[1];
    assert |e| == 1 && rest != "" ==> s[|l| + 1] == rest[0];
  }

  lemma {:induction false} NoBreak(l: string)
    requires OneLine(l)
    ensures Lines(l) == if l == "" then [] else [l]
  {
  }

  // ---- The reader -----------------------------------------------------------------

  const DATA: string := "data:"

  // json.loads, None for JSONDecodeError.
  type Parser = string -> Option<Json>

  function DecodeLine(line: string, parse: Parser): Option<Json> {
    if DATA <= line then parse(Strip(line[|DATA|..])) else None
  }

  function Decode(lines: seq<string>, parse: Parser): seq<Json> {
    if lines == [] then []
    else
      var last := |lines| - 1;
      Decode(lines[..last], parse) + (var v := DecodeLine(lines[last], parse); if v.Some? then [v.value] else [])
  }

  method ReadEvents(body: string, parse: Parser) returns (events: seq<Json>)
    ensures events == Decode(Lines(body), parse)
  {
    var lines := Lines(body);
    events := [];
    var i := 0;
    assert lines[..0] == [];
    while i < |lines|
      invariant 0 <= i <= |lines|
      invariant events == Decode(lines[..i], parse)
    {
      assert lines[..i + 1][..i] == lines[..i];
      if DATA <= lines[i] {
        var v := parse(Strip(lines[i][|DATA|..]));
        if v.Some? {
          events := events + [v.value];
        }
      }
      i := i + 1;
    }
    assert lines[..|lines|] == lines;
  }

  // A body is one JSON document or a stream of events.
  function Payloads(body: string, parse: Parser): seq<Json> {
    var whole := parse(body);
    if whole.Some? then [whole.value] else Decode(Lines(body), parse)
  }

  method DecodedPayloads(body: string, parse: Parser) returns (payloads: seq<Json>)
    ensures payloads == Payloads(body, parse)
  {
    var whole := parse(body);
    if whole.Some? {
      return [whole.value];
    }
    payloads := ReadEvents(body, parse);
  }

  // ---- What a writer sends -----------------------------------------------------------

  // A line: an event or something else, and how it ends.
  datatype Frame = Event(v: Json, ending: string) | Other(line: string, ending: string)

  // The parser reads back this value; other lines are lines, and no data it reads.
  ghost predicate GoodFrame(f: Frame, st: Style, parse: Parser) {
    match f
    case Event(v, _) => parse(Dumps(v, st)) == Some(v)
    case Other(line, _) => OneLine(line) && ("data:" <= line ==> parse(Strip(line[5..])).None?)
  }

  ghost predicate PlainLine(line: string) { OneLine(line) && !("data:" <= line) }

  function FrameLine(f: Frame, st: Style): string {
    if f.Event? then "data: " + Dumps(f.v, st) else f.line
  }

  function Encode(frames: seq<Frame>, st: Style): string {
    if frames == [] then "" else FrameLine(frames[0], st) + (frames[0].ending + Encode(frames[1..], st))
  }

  // Every line ends somehow, but the last one need not.
  ghost predicate Ended(frames: seq<Frame>, st: Style) {
    frames != [] ==>
      && (EndsThere(frames[0].ending, Encode(frames[1..], st)) || (frames[0].ending == "" && |frames| == 1))
      && Ended(frames[1..], st)
  }

  function Events(frames: seq<Frame>): seq<Json> {
    if frames == [] then [] else (if frames[0].Event? then [frames[0].v] else []) + Events(frames[1..])
  }

  // ---- A serialised value is one printable line, with no space at its ends ------------

  ghost predicate Printable(s: string) { forall i :: 0 <= i < |s| ==> ' ' <= s[i] <= '~' }

  lemma HexPrintable(n: nat)
    requires n < 0x10000
    ensures Printable(Hex4(n))
  {
  }

  lemma EscapePrintable(c: char)
    ensures Printable(Escape(c))
  {
    if !Plain(c) && ShortEscape(c).None? {
      if c as int < 0x10000 {
        HexPrintable(c as int);
      } else {
        var n := c as int - 0x10000;
        HexPrintable(0xD800 + n / 1024);
        HexPrintable(0xDC00 + n % 1024);
      }
    }
  }

  lemma {:induction false} QuotePrintable(s: string)
    ensures Printable(EscapeAll(s))
  {
    if s != "" {
      EscapePrintable(s[0]);
      QuotePrintable(s[1..]);
    }
  }

  ghost predicate PrintableStyle(st: Style) { Printable(st.item) && Printable(st.colon) }

  lemma AtomPrintable(v: Json, st: Style)
    requires v.Null? || v.Bool? || v.Num?
    ensures Printable(Dumps(v, st))
  {
  }

  lemma {:induction false} DumpsPrintable(v: Json, st: Style)
    requires PrintableStyle(st)
    ensures Printable(Dumps(v, st))
    decreases v, 0
  {
    match v
    case Str(s) => QuotePrintable(s);
    case Arr(items) =>
      if items != [] {
        DumpsPrintable(items[0], st);
        MorePrintable(items[1..], st);
      }
    case Obj(fields) =>
      if fields != [] {
        FieldPrintable(fields[0], st);
        MoreFieldsPrintable(fields[1..], st);
      }
    case _ => AtomPrintable(v, st);
  }

  lemma {:induction false} MorePrintable(items: seq<Json>, st: Style)
    requires PrintableStyle(st)
    ensures Printable(DumpMore(items, st))
    decreases items, 0
  {
    if items != [] {
      DumpsPrintable(items[0], st);
      MorePrintable(items[1..], st);
    }
  }

  lemma {:induction false} FieldPrintable(f: Field, st: Style)
    requires PrintableStyle(st)
    ensures Printable(DumpField(f, st))
    decreases f, 1
  {
    QuotePrintable(f.key);
    DumpsPrintable(f.value, st);
  }

  lemma {:induction false} MoreFieldsPrintable(fields: seq<Field>, st: Style)
    requires PrintableStyle(st)
    ensures Printable(DumpMoreFields(fields, st))
    decreases fields, 0
  {
    if fields != [] {
      FieldPrintable(fields[0], st);
      MoreFieldsPrintable(fields[1..], st);
    }
  }

  lemma DumpsTrimmed(v: Json, st: Style)
    ensures Dumps(v, st) != "" && Trimmed(Dumps(v, st))
  {
  }

  lemma EventLine(v: Json, e: string, st: Style, parse: Parser)
    requires PrintableStyle(st) && parse(Dumps(v, st)) == Some(v)
    ensures OneLine(FrameLine(Event(v, e), st)) && DecodeLine(FrameLine(Event(v, e), st), parse) == Some(v)
  {
    DumpsPrintable(v, st);
    DumpsTrimmed(v, st);
    DataLine(Dumps(v, st), parse);
  }

  lemma DataLine(d: string, parse: Parser)
    requires Printable(d) && d != "" && Trimmed(d)
    ensures OneLine("data: " + d) && DecodeLine("data: " + d, parse) == parse(d)
  {
    var line := "data: " + d;
    assert line == DATA + (" " + d);
    assert line[|DATA|..] == " " + d;
    assert IsSpace(' ');
    LStripPadded(" ", d);
    assert Printable(line);
  }

  lemma {:induction false} DecodeCons(l: string, rest: seq<string>, parse: Parser)
    ensures Decode([l] + rest, parse) == Decode([l], parse) + Decode(rest, parse)
  {
    if rest == [] {
      assert [l] + rest == [l];
    } else {
      var last := |rest| - 1;
      assert ([l] + rest)[..last + 1] == [l] + rest[..last];
      DecodeCons(l, rest[..last], parse);
    }
  }

  lemma DecodeOne(l: string, parse: Parser)
    ensures Decode([l], parse) == if DecodeLine(l, parse).Some? then [DecodeLine(l, parse).value] else []
  {
    assert [l][..0] == [];
  }

  // ---- Main results ----------------------------------------------------------------------

  // What a writer puts one event a line, between keepalives and other fields, the
  // reader gets back, in order, however the lines end, if the parser reads back each
  // of these events.
  lemma {:induction false} EventsSurvive(frames: seq<Frame>, st: Style, parse: Parser)
    requires PrintableStyle(st) && Ended(frames, st)
    requires forall i :: 0 <= i < |frames| ==> GoodFrame(frames[i], st, parse)
    ensures Decode(Lines(Encode(frames, st)), parse) == Events(frames)
  {
    if frames != [] {
      var f, rest := frames[0], Encode(frames[1..], st);
      var l := FrameLine(f, st);
      assert GoodFrame(f, st, parse);
      EventsSurvive(frames[1..], st, parse);
      if f.Event? {
        EventLine(f.v, f.ending, st, parse);
      }
      if f.ending == "" {
        assert Encode(frames, st) == l;
        NoBreak(l);
      } else {
        LinesCons(l, f.ending, rest);
        DecodeCons(l, Lines(rest), parse);
      }
      DecodeOne(l, parse);
    }
  }

  // So a body that is one document yields it, and a stream, which is no document,
  // yields its events.
  lemma PayloadsSurvive(v: Json, frames: seq<Frame>, st: Style, parse: Parser)
    requires PrintableStyle(st) && parse(Dumps(v, st)) == Some(v) && Ended(frames, st)
    requires forall i :: 0 <= i < |frames| ==> GoodFrame(frames[i], st, parse)
    ensures Payloads(Dumps(v, st), parse) == [v]
    ensures parse(Encode(frames, st)).None? ==> Payloads(Encode(frames, st), parse) == Events(frames)
  {
    EventsSurvive(frames, st, parse);
  }

  // A parser that reads back everything, for the proof below.
  ghost function Inverse(st: Style): Parser {
    text => if exists v :: Dumps(v, st) == text then var v :| Dumps(v, st) == text; Some(v) else None
  }

  lemma InverseReadsBack(st: Style, v: Json)
    requires GoodStyle(st)
    ensures Inverse(st)(Dumps(v, st)) == Some(v)
  {
    var w :| Inverse(st)(Dumps(v, st)) == Some(w) && Dumps(w, st) == Dumps(v, st);
    DumpsInjective(w, v, st);
  }

  // Whatever the parser: the text of a stream fixes its events, and their order.
  lemma StreamBinds(a: seq<Frame>, b: seq<Frame>, st: Style)
    requires PrintableStyle(st) && GoodStyle(st) && Ended(a, st) && Ended(b, st)
    requires forall f :: f in a + b && f.Other? ==> PlainLine(f.line)
    requires Encode(a, st) == Encode(b, st)
    ensures Events(a) == Events(b)
  {
    AllGood(a, st);
    AllGood(b, st);
    EventsSurvive(a, st, Inverse(st));
    EventsSurvive(b, st, Inverse(st));
  }

  lemma AllGood(frames: seq<Frame>, st: Style)
    requires GoodStyle(st) && forall f :: f in frames && f.Other? ==> PlainLine(f.line)
    ensures forall i :: 0 <= i < |frames| ==> GoodFrame(frames[i], st, Inverse(st))
  {
    forall i | 0 <= i < |frames|
      ensures GoodFrame(frames[i], st, Inverse(st))
    {
      if frames[i].Event? {
        InverseReadsBack(st, frames[i].v);
      } else {
        assert frames[i] in frames;
      }
    }
  }
}
