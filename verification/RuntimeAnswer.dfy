// The dashboard's reading of a runtime's answer: bounded display text and a
// metadata-only trace, from the fields known to hold assistant text and no others,
// at every depth of wrapping.

module RuntimeAnswer {
  import opened Text
  import opened Json
  import opened SseEvents
  import opened ToolVerdict

  const MAX_RESPONSE_CHARS: nat := 24000
  const MAX_TRACE_EVENTS: nat := 40
  const MAX_LABEL: nat := 160

  function Cut(s: string, n: nat): (r: string)
    ensures |r| <= n && r <= s
  {
    if |s| <= n then s else s[..n]
  }

  // ---- Assistant text -----------------------------------------------------------------

  function ContentText(v: Json, repr: Json -> string): string {
    match v
    case Str(s) => s
    case Arr(items) => ItemTexts(items, repr)
    case _ => ""
  }

  function ItemTexts(items: seq<Json>, repr: Json -> string): string {
    if items == [] then ""
    else
      (if items[0].Obj? && GetTruthy(items[0].fields, "text")
       then Render(Get(items[0].fields, "text").value, repr) else "")
      + ItemTexts(items[1..], repr)
  }

  predicate AssistantType(e: Node, repr: Json -> string) {
    Lower(Render(GetOr(e, "type", Str("")), repr)) in {"aimessage", "aimessagechunk", "assistant"}
  }

  lemma {:induction false} GetIsPart(fields: seq<Field>, key: string)
    requires Get(fields, key).Some?
    ensures exists i :: 0 <= i < |fields| && fields[i].value == Get(fields, key).value
  {
    if fields[0].key != key {
      GetIsPart(fields[1..], key);
    }
  }

  // Is this the message of the assistant?
  predicate FromAssistant(message: Option<Json>) {
    message.Some? && message.value.Obj? && Get(message.value.fields, "role") == Some(Str("assistant"))
  }

  predicate IsText(v: Option<Json>) { v.Some? && v.value.Str? }

  // The text of the event itself; None when only a wrapped event may have some.
  function OwnText(e: Node, repr: Json -> string): Option<string> {
    if TypeIs(e, "TEXT_MESSAGE_CONTENT") then Some(Render(GetOr(e, "delta", Str("")), repr))
    else if IsText(Get(e, "response")) then Some(Get(e, "response").value.s)
    else if IsText(Get(e, "data")) then Some(Get(e, "data").value.s)
    else if FromAssistant(Get(e, "message")) then
      Some(ContentText(GetOr(Get(e, "message").value.fields, "content", Null), repr))
    else if AssistantType(e, repr) then Some(ContentText(GetOr(e, "content", Null), repr))
    else None
  }

  function AssistantText(e: Node, repr: Json -> string): string
    decreases e
  {
    var own, wrapped := OwnText(e, repr), Get(e, "event");
    if own.Some? then own.value
    else if wrapped.Some? && wrapped.value.Obj? then
      GetIsPart(e, "event");
      AssistantText(wrapped.value.fields, repr)
    else ""
  }

  // ---- The trace --------------------------------------------------------------------------

  datatype Trace = Trace(kind: string, caption: string)

  function Flat(s: string): (r: string)
    ensures |r| == |s| && forall i :: 0 <= i < |r| ==> r[i] != '\r' && r[i] != '\n'
  {
    seq(|s|, i requires 0 <= i < |s| => if s[i] == '\r' || s[i] == '\n' then ' ' else s[i])
  }

  function SafeLabel(v: Option<Json>, fallback: string, repr: Json -> string): (r: string)
    ensures |r| <= MAX_LABEL
  {
    Cut(Strip(Flat(if v.Some? && Truthy(v.value) then Render(v.value, repr) else fallback)), MAX_LABEL)
  }

  // kind.replace("_", " ").title(), on the three kinds.
  function ToolTitle(e: Node): string {
    if TypeIs(e, "TOOL_CALL_START") then "Tool Call Start"
    else if TypeIs(e, "TOOL_CALL_END") then "Tool Call End"
    else "Tool Call Result"
  }

  function TraceOf(e: Node, repr: Json -> string): Option<Trace> {
    var current := Get(e, "current_tool_use");
    if TypeIs(e, "TOOL_CALL_START") || TypeIs(e, "TOOL_CALL_END") || TypeIs(e, "TOOL_CALL_RESULT") then
      Some(Trace("tool", SafeLabel(Get(e, "toolCallName"), ToolTitle(e), repr)))
    else if TypeIs(e, "RUN_ERROR") then Some(Trace("error", SafeLabel(Get(e, "code"), "Runtime error", repr)))
    else if current.Some? && current.value.Obj? then
      Some(Trace("tool", SafeLabel(Get(current.value.fields, "name"), "Tool call", repr)))
    else None
  }

  datatype Scan = Scan(text: string, trace: seq<Trace>)

  function Step(s: Scan, e: Node, repr: Json -> string): Scan {
    var t := TraceOf(e, repr);
    Scan(s.text + AssistantText(e, repr), s.trace + (if t.Some? then [t.value] else []))
  }

  // A list or an object cannot be looked up in a set of names: that raises.
  predicate Unhashable(e: Node) {
    var kind := Get(e, "type");
    kind.Some? && (kind.value.Arr? || kind.value.Obj?)
  }

  // The loop over events, which stops once the trace is full; None when it raises.
  function Scanned(s: Scan, events: seq<Node>, repr: Json -> string): Option<Scan>
    decreases |events|
  {
    if events == [] then Some(s)
    else if Unhashable(events[0]) then None
    else
      var next := Step(s, events[0], repr);
      if |next.trace| >= MAX_TRACE_EVENTS then Some(next) else Scanned(next, events[1..], repr)
  }

  // The objects among the decoded lines.
  function Objects(lines: seq<string>, parse: Parser): seq<Node> {
    if lines == [] then []
    else
      var v := DecodeLine(lines[0], parse);
      (if v.Some? && v.value.Obj? then [v.value.fields] else []) + Objects(lines[1..], parse)
  }

  const AGENT_TEXT: string := "AGENT TEXT:"
  const NOTHING: string := "The runtime returned no displayable assistant text."

  function OrNothing(s: string): string { if s == "" then NOTHING else s }

  function WholeText(body: string, parse: Parser, repr: Json -> string): string {
    var v := parse(body);
    OrNothing(if v.Some? && v.value.Obj? then AssistantText(v.value.fields, repr) else "")
  }

  // What follows the marker, read as a literal if it is one.
  function AgentText(body: string, literal: string -> Option<string>): string
    requires AGENT_TEXT <= body
  {
    var raw := Strip(body[|AGENT_TEXT|..]);
    if literal(raw).Some? then literal(raw).value else raw
  }

  datatype Display = Shown(output: string, trace: seq<Trace>) | Raised

  // What is shown of a body without the marker, once it is scanned.
  function ShownOf(body: string, s: Option<Scan>, parse: Parser, repr: Json -> string): Display {
    if s.None? then Raised
    else
      var text := if s.value.text != "" then s.value.text else WholeText(body, parse, repr);
      Shown(Cut(text, MAX_RESPONSE_CHARS), s.value.trace)
  }

  // `literal` is ast.literal_eval with str() of what is not a string.
  function DisplayOf(given: string, parse: Parser, literal: string -> Option<string>, repr: Json -> string): Display {
    var body := Cut(given, MAX_RESPONSE_CHARS);
    if AGENT_TEXT <= body then Shown(Cut(AgentText(body, literal), MAX_RESPONSE_CHARS), [])
    else ShownOf(body, Scanned(Scan("", []), Objects(Lines(body), parse), repr), parse, repr)
  }

  method ParseRuntimeResponse(given: string, parse: Parser, literal: string -> Option<string>, repr: Json -> string)
    returns (r: Display)
    ensures r == DisplayOf(given, parse, literal, repr)
    ensures r.Shown? ==> |r.output| <= 24000 && |r.trace| <= 40
  {
    var body := Cut(given, MAX_RESPONSE_CHARS);
    if AGENT_TEXT <= body {
      var raw := Strip(body[|AGENT_TEXT|..]);
      var v := literal(raw);
      return Shown(Cut(if v.Some? then v.value else raw, MAX_RESPONSE_CHARS), []);
    }
    var s := ScanLines(Lines(body), parse, repr);
    if s.None? {
      return Raised;
    }
    var text := if s.value.text != "" then s.value.text else WholeText(body, parse, repr);
    r := Shown(Cut(text, MAX_RESPONSE_CHARS), s.value.trace);
  }

  lemma ObjectsStep(lines: seq<string>, i: nat, parse: Parser)
    requires i < |lines|
    ensures var v := DecodeLine(lines[i], parse);
            Objects(lines[i..], parse)
            == (if v.Some? && v.value.Obj? then [v.value.fields] else []) + Objects(lines[i + 1..], parse)
  {
    assert lines[i..][0] == lines[i] && lines[i..][1..] == lines[i + 1..];
  }

  lemma ScannedStep(s: Scan, e: Node, rest: seq<Node>, repr: Json -> string)
    ensures Scanned(s, [e] + rest, repr)
            == if Unhashable(e) then None
               else if |Step(s, e, repr).trace| >= MAX_TRACE_EVENTS then Some(Step(s, e, repr))
               else Scanned(Step(s, e, repr), rest, repr)
  {
    assert ([e] + rest)[1..] == rest;
  }

  method ScanLines(lines: seq<string>, parse: Parser, repr: Json -> string) returns (r: Option<Scan>)
    ensures r == Scanned(Scan("", []), Objects(lines, parse), repr)
    ensures r.Some? ==> |r.value.trace| <= MAX_TRACE_EVENTS
  {
    var s := Scan("", []);
    ghost var whole := Scanned(s, Objects(lines, parse), repr);
    var i := 0;
    assert lines[0..] == lines;
    while i < |lines|
      invariant 0 <= i <= |lines| && |s.trace| < MAX_TRACE_EVENTS
      invariant Scanned(s, Objects(lines[i..], parse), repr) == whole
    {
      ObjectsStep(lines, i, parse);
      ghost var rest := Objects(lines[i + 1..], parse);
      var v := DecodeLine(lines[i], parse);
      if v.Some? && v.value.Obj? {
        ScannedStep(s, v.value.fields, rest, repr);
        if Unhashable(v.value.fields) {
          return None;
        }
        s := Step(s, v.value.fields, repr);
        if |s.trace| >= MAX_TRACE_EVENTS {
          return Some(s);
        }
      } else {
        assert [] + rest == rest;
      }
      i := i + 1;
    }
    r := Some(s);
  }

  // ---- Nothing else is read ------------------------------------------------------------------

  // Where a field of an event is read, if anywhere.
  datatype Slot =
    | TypeSlot | DeltaSlot | TextSlot | MessageSlot | ContentSlot | EventSlot | CaptionSlot | ToolSlot | Unread

  function SlotOf(key: string): Slot {
    if key == "type" then TypeSlot
    else if key == "delta" then DeltaSlot
    else if key == "response" || key == "data" then TextSlot
    else if key == "message" then MessageSlot
    else if key == "content" then ContentSlot
    else if key == "event" then EventSlot
    else if key == "toolCallName" || key == "code" then CaptionSlot
    else if key == "current_tool_use" then ToolSlot
    else Unread
  }

  // A record in which one field, or two, keep a value and the others lose theirs.
  function Only(fields: seq<Field>, key: string): seq<Field> {
    if fields == [] then []
    else [Field(fields[0].key, if fields[0].key == key then fields[0].value else Null)] + Only(fields[1..], key)
  }

  function RedactItems(items: seq<Json>): seq<Json> {
    if items == [] then []
    else [if items[0].Obj? then Obj(Only(items[0].fields, "text")) else Null] + RedactItems(items[1..])
  }

  function RedactContent(v: Json): Json {
    match v
    case Str(_) => v
    case Arr(items) => Arr(RedactItems(items))
    case _ => Null
  }

  function RedactMessage(fields: seq<Field>): seq<Field> {
    if fields == [] then []
    else
      var f := fields[0];
      [Field(f.key, if f.key == "role" then f.value else if f.key == "content" then RedactContent(f.value) else Null)]
      + RedactMessage(fields[1..])
  }

  // What is left of one value of an event: text in the places the extraction
  // knows, the type, and what the trace names. Everything else - arguments,
  // tool results, diagnostics - is gone.
  function RedactValue(e: Node, key: string, v: Json, repr: Json -> string): Json
    decreases v, 0
  {
    match SlotOf(key)
    case TypeSlot => v
    case CaptionSlot => v
    case DeltaSlot => if TypeIs(e, "TEXT_MESSAGE_CONTENT") then v else Null
    case TextSlot => if v.Str? then v else Null
    case MessageSlot =>
      if v.Obj? && Get(v.fields, "role") == Some(Str("assistant")) then Obj(RedactMessage(v.fields)) else Null
    case ContentSlot => if AssistantType(e, repr) then RedactContent(v) else Null
    case EventSlot => if v.Obj? then Obj(Redact(v.fields, v.fields, repr)) else Null
    case ToolSlot => if v.Obj? then Obj(Only(v.fields, "name")) else Null
    case Unread => Null
  }

  // The fields `rest` of event e.
  function Redact(e: Node, rest: seq<Field>, repr: Json -> string): seq<Field>
    decreases rest, 1
  {
    if rest == [] then []
    else [Field(rest[0].key, RedactValue(e, rest[0].key, rest[0].value, repr))] + Redact(e, rest[1..], repr)
  }

  function Redacted(e: Node, repr: Json -> string): Node { Redact(e, e, repr) }

  lemma {:induction false} GetRedacted(e: Node, rest: seq<Field>, key: string, repr: Json -> string)
    ensures Get(Redact(e, rest, repr), key)
            == if Get(rest, key).Some? then Some(RedactValue(e, key, Get(rest, key).value, repr)) else None
  {
    if rest != [] {
      GetRedacted(e, rest[1..], key, repr);
      assert Redact(e, rest, repr)[1..] == Redact(e, rest[1..], repr);
    }
  }

  lemma {:induction false} GetOnly(fields: seq<Field>, key: string)
    ensures Get(Only(fields, key), key) == Get(fields, key)
  {
    if fields != [] {
      GetOnly(fields[1..], key);
      assert Only(fields, key)[1..] == Only(fields[1..], key);
    }
  }

  lemma {:induction false} GetMessage(fields: seq<Field>)
    ensures Get(RedactMessage(fields), "role") == Get(fields, "role")
    ensures Get(RedactMessage(fields), "content")
            == if Get(fields, "content").Some? then Some(RedactContent(Get(fields, "content").value)) else None
  {
    if fields != [] {
      GetMessage(fields[1..]);
      assert RedactMessage(fields)[1..] == RedactMessage(fields[1..]);
      assert "role"[0] == 'r' && "content"[0] == 'c';
    }
  }

  lemma {:induction false} RedactedItemsRead(items: seq<Json>, repr: Json -> string)
    ensures ItemTexts(RedactItems(items), repr) == ItemTexts(items, repr)
  {
    if items != [] {
      RedactedItemsRead(items[1..], repr);
      assert RedactItems(items)[1..] == RedactItems(items[1..]);
      if items[0].Obj? {
        GetOnly(items[0].fields, "text");
      }
    }
  }

  lemma RedactedContentReads(v: Json, repr: Json -> string)
    ensures ContentText(RedactContent(v), repr) == ContentText(v, repr)
  {
    if v.Arr? {
      RedactedItemsRead(v.items, repr);
    }
  }

  lemma TextSlots()
    ensures SlotOf("type") == TypeSlot && SlotOf("delta") == DeltaSlot
    ensures SlotOf("response") == TextSlot && SlotOf("data") == TextSlot && SlotOf("message") == MessageSlot
  {
    assert "type"[0] == 't' && "delta"[1] == 'e' && "response"[0] == 'r' && "data"[1] == 'a' && "message"[0] == 'm';
  }

  lemma OtherSlots()
    ensures SlotOf("content") == ContentSlot && SlotOf("event") == EventSlot
    ensures SlotOf("toolCallName") == CaptionSlot && SlotOf("code") == CaptionSlot
    ensures SlotOf("current_tool_use") == ToolSlot
  {
    assert |"content"| == 7 && "content"[0] == 'c' && "message"[0] == 'm';
    assert |"event"| == 5 && "event"[0] == 'e' && "delta"[0] == 'd';
    assert |"code"| == 4 && "code"[0] == 'c' && "type"[0] == 't' && "data"[0] == 'd';
    assert |"toolCallName"| == 12 && |"current_tool_use"| == 16;
  }

  lemma TypeStays(e: Node, repr: Json -> string)
    ensures Get(Redacted(e, repr), "type") == Get(e, "type")
    ensures AssistantType(Redacted(e, repr), repr) == AssistantType(e, repr)
  {
    TextSlots();
    GetRedacted(e, e, "type", repr);
  }

  lemma TraceStays(e: Node, repr: Json -> string)
    ensures TraceOf(Redacted(e, repr), repr) == TraceOf(e, repr)
  {
    TypeStays(e, repr);
    OtherSlots();
    GetRedacted(e, e, "toolCallName", repr);
    GetRedacted(e, e, "code", repr);
    GetRedacted(e, e, "current_tool_use", repr);
    var current := Get(e, "current_tool_use");
    if current.Some? && current.value.Obj? {
      GetOnly(current.value.fields, "name");
    }
  }

  lemma PlainTextStays(e: Node, repr: Json -> string)
    ensures var r := Redacted(e, repr);
            && (TypeIs(e, "TEXT_MESSAGE_CONTENT") ==> Get(r, "delta") == Get(e, "delta"))
            && forall k :: k == "response" || k == "data" ==>
                 (IsText(Get(r, k)) <==> IsText(Get(e, k))) && (IsText(Get(e, k)) ==> Get(r, k) == Get(e, k))
  {
    TextSlots();
    GetRedacted(e, e, "delta", repr);
    GetRedacted(e, e, "response", repr);
    GetRedacted(e, e, "data", repr);
  }

  lemma MessageStays(e: Node, repr: Json -> string)
    ensures var r := Redacted(e, repr);
            && (FromAssistant(Get(r, "message")) <==> FromAssistant(Get(e, "message")))
            && (FromAssistant(Get(e, "message")) ==>
                  ContentText(GetOr(Get(r, "message").value.fields, "content", Null), repr)
                  == ContentText(GetOr(Get(e, "message").value.fields, "content", Null), repr))
  {
    TextSlots();
    GetRedacted(e, e, "message", repr);
    var message := Get(e, "message");
    if FromAssistant(message) {
      GetMessage(message.value.fields);
      RedactedContentReads(GetOr(message.value.fields, "content", Null), repr);
    }
  }

  lemma ContentStays(e: Node, repr: Json -> string)
    requires AssistantType(e, repr)
    ensures ContentText(GetOr(Redacted(e, repr), "content", Null), repr) == ContentText(GetOr(e, "content", Null), repr)
  {
    OtherSlots();
    GetRedacted(e, e, "content", repr);
    RedactedContentReads(GetOr(e, "content", Null), repr);
  }

  lemma OwnTextStays(e: Node, repr: Json -> string)
    ensures OwnText(Redacted(e, repr), repr) == OwnText(e, repr)
  {
    TypeStays(e, repr);
    PlainTextStays(e, repr);
    MessageStays(e, repr);
    if AssistantType(e, repr) {
      ContentStays(e, repr);
    }
  }

  // What an event adds to the text does not depend on anything redaction removes.
  lemma {:induction false} TextStays(e: Node, repr: Json -> string)
    ensures AssistantText(Redacted(e, repr), repr) == AssistantText(e, repr)
    decreases e
  {
    var wrapped := Get(e, "event");
    OwnTextStays(e, repr);
    OtherSlots();
    GetRedacted(e, e, "event", repr);
    if wrapped.Some? && wrapped.value.Obj? {
      GetIsPart(e, "event");
      TextStays(wrapped.value.fields, repr);
    }
  }

  function RedactAll(events: seq<Node>, repr: Json -> string): seq<Node> {
    if events == [] then [] else [Redacted(events[0], repr)] + RedactAll(events[1..], repr)
  }

  lemma {:induction false} ScanIgnoresTheRest(s: Scan, events: seq<Node>, repr: Json -> string)
    ensures Scanned(s, RedactAll(events, repr), repr) == Scanned(s, events, repr)
    decreases |events|
  {
    if events != [] {
      TextStays(events[0], repr);
      TraceStays(events[0], repr);
      TypeStays(events[0], repr);
      var next := Step(s, events[0], repr);
      assert RedactAll(events, repr)[1..] == RedactAll(events[1..], repr);
      assert Step(s, RedactAll(events, repr)[0], repr) == next;
      if !Unhashable(events[0]) && |next.trace| < MAX_TRACE_EVENTS {
        ScanIgnoresTheRest(next, events[1..], repr);
      }
    }
  }

  // What redaction leaves of a body that is one object.
  function WholeRedacted(body: string, parse: Parser, repr: Json -> string): Option<Node> {
    var v := parse(body);
    if v.Some? && v.value.Obj? then Some(Redacted(v.value.fields, repr)) else None
  }

  lemma WholeTextStays(a: string, b: string, parse: Parser, repr: Json -> string)
    requires WholeRedacted(a, parse, repr) == WholeRedacted(b, parse, repr)
    ensures WholeText(a, parse, repr) == WholeText(b, parse, repr)
  {
    if WholeRedacted(a, parse, repr).Some? {
      TextStays(parse(a).value.fields, repr);
      TextStays(parse(b).value.fields, repr);
    }
  }

  // Two bodies that differ only in what redaction removes, from the events or from
  // the one object they are, are displayed alike.
  lemma SameShownSameDisplay(a: string, b: string, parse: Parser, literal: string -> Option<string>,
                             repr: Json -> string)
    requires var x, y := Cut(a, MAX_RESPONSE_CHARS), Cut(b, MAX_RESPONSE_CHARS);
             && !(AGENT_TEXT <= x) && !(AGENT_TEXT <= y)
             && RedactAll(Objects(Lines(x), parse), repr) == RedactAll(Objects(Lines(y), parse), repr)
             && WholeRedacted(x, parse, repr) == WholeRedacted(y, parse, repr)
    ensures DisplayOf(a, parse, literal, repr) == DisplayOf(b, parse, literal, repr)
  {
    var x, y := Cut(a, MAX_RESPONSE_CHARS), Cut(b, MAX_RESPONSE_CHARS);
    ScanIgnoresTheRest(Scan("", []), Objects(Lines(x), parse), repr);
    ScanIgnoresTheRest(Scan("", []), Objects(Lines(y), parse), repr);
    WholeTextStays(x, y, parse, repr);
  }

  lemma UnreadSlot(key: string)
    requires key !in {"type", "delta", "response", "data", "message", "content", "event", "toolCallName", "code",
                      "current_tool_use"}
    ensures SlotOf(key) == Unread
  {
  }

  // What a tool result carries is among what redaction removes, and so is every
  // message that is not the assistant's, every field no rule reads, and every value
  // that is not of the kind its rule reads.
  lemma ToolResultsAreRemoved(e: Node, key: string, repr: Json -> string)
    requires || key !in {"type", "delta", "response", "data", "message", "content", "event", "toolCallName", "code",
                         "current_tool_use"}
             || (key == "content" && !AssistantType(e, repr))
             || (key == "delta" && Get(e, "type") != Some(Str("TEXT_MESSAGE_CONTENT")))
             || (key in {"response", "data"} && Get(e, key).Some? && !Get(e, key).value.Str?)
             || (key == "message" && Get(e, key).Some? && !FromAssistant(Get(e, key)))
             || (key in {"event", "current_tool_use"} && Get(e, key).Some? && !Get(e, key).value.Obj?)
    ensures Get(Redacted(e, repr), key) in {None, Some(Null)}
  {
    TextSlots();
    OtherSlots();
    GetRedacted(e, e, key, repr);
    if key !in {"type", "delta", "response", "data", "message", "content", "event", "toolCallName", "code",
                "current_tool_use"} {
      UnreadSlot(key);
    }
  }

  lemma {:induction false} OnlyThatField(fields: seq<Field>, key: string, other: string)
    requires other != key
    ensures Get(Only(fields, key), other) in {None, Some(Null)}
  {
    if fields != [] {
      OnlyThatField(fields[1..], key, other);
      assert Only(fields, key)[1..] == Only(fields[1..], key);
    }
  }

  lemma {:induction false} OnlyRoleAndContent(fields: seq<Field>, key: string)
    requires key != "role" && key != "content"
    ensures Get(RedactMessage(fields), key) in {None, Some(Null)}
  {
    if fields != [] {
      OnlyRoleAndContent(fields[1..], key);
      assert RedactMessage(fields)[1..] == RedactMessage(fields[1..]);
    }
  }

  lemma {:induction false} RedactItemsAt(items: seq<Json>, i: nat)
    requires i < |items|
    ensures |RedactItems(items)| == |items|
    ensures RedactItems(items)[i] == if items[i].Obj? then Obj(Only(items[i].fields, "text")) else Null
    decreases |items|
  {
    if i > 0 {
      RedactItemsAt(items[1..], i - 1);
    } else if |items| > 1 {
      RedactItemsAt(items[1..], 0);
    }
  }

  // Of the assistant's own message, role and content are left, and of a list of
  // content the texts of its blocks.
  lemma InnerPartsAreRemoved(e: Node, key: string, i: nat, other: string, repr: Json -> string)
    requires FromAssistant(Get(e, "message"))
    ensures var m := Get(Redacted(e, repr), "message");
            && m.Some? && m.value.Obj?
            && (key != "role" && key != "content" ==> Get(m.value.fields, key) in {None, Some(Null)})
            && (var c := Get(m.value.fields, "content");
                c.Some? && c.value.Arr? && i < |c.value.items| && other != "text" ==>
                  var item := c.value.items[i];
                  item == Null || (item.Obj? && Get(item.fields, other) in {None, Some(Null)}))
  {
    TextSlots();
    GetRedacted(e, e, "message", repr);
    var fields := Get(e, "message").value.fields;
    GetMessage(fields);
    if key != "role" && key != "content" {
      OnlyRoleAndContent(fields, key);
    }
    var content := Get(fields, "content");
    if content.Some? && content.value.Arr? && i < |RedactItems(content.value.items)| && other != "text" {
      ItemIsRemoved(content.value.items, i, other);
    }
  }

  // So it is with the content of a typed message, and of a tool in use the name is
  // left.
  lemma OuterPartsAreRemoved(e: Node, i: nat, other: string, repr: Json -> string)
    ensures var c := Get(Redacted(e, repr), "content");
            c.Some? ==>
              && (c.value.Str? || c.value.Arr? || c.value == Null)
              && (c.value.Arr? && i < |c.value.items| && other != "text" ==>
                    var item := c.value.items[i];
                    item == Null || (item.Obj? && Get(item.fields, other) in {None, Some(Null)}))
    ensures var tool := Get(Redacted(e, repr), "current_tool_use");
            tool.Some? && other != "name" ==>
              tool.value == Null || (tool.value.Obj? && Get(tool.value.fields, other) in {None, Some(Null)})
  {
    OtherSlots();
    GetRedacted(e, e, "content", repr);
    GetRedacted(e, e, "current_tool_use", repr);
    var content, tool := Get(e, "content"), Get(e, "current_tool_use");
    if content.Some? && content.value.Arr? && i < |RedactItems(content.value.items)| && other != "text" {
      ItemIsRemoved(content.value.items, i, other);
    }
    if tool.Some? && tool.value.Obj? && other != "name" {
      OnlyThatField(tool.value.fields, "name", other);
    }
  }

  lemma ItemIsRemoved(items: seq<Json>, i: nat, other: string)
    requires i < |RedactItems(items)| && other != "text"
    ensures var item := RedactItems(items)[i];
            item == Null || (item.Obj? && Get(item.fields, other) in {None, Some(Null)})
  {
    if items != [] {
      RedactItemsAt(items, 0);
      RedactItemsAt(items, i);
      if items[i].Obj? {
        OnlyThatField(items[i].fields, "text", other);
      }
    }
  }
}
