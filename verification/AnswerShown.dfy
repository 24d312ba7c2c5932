// The dashboard's reading of an answer, from the writer's side: what the assistant
// says in any of the known shapes is what is shown, in order, and what tools are
// called is what is traced, whatever else the events carry.

module AnswerShown {
  import opened Text
  import opened Json
  import opened SseEvents
  import opened ToolVerdict
  import opened RuntimeAnswer

  // ---- What an agent framework writes ------------------------------------------------

  // A block of a message: text, or something else.
  datatype Block = Words(text: string) | Other(v: Json)

  // One utterance: an AG-UI text event, a bare string, the assistant's message (a
  // text, a list of blocks, or neither), a typed message, or one of these wrapped.
  datatype Saying =
    | Delta(text: string)
    | Response(text: string)
    | Data(text: string)
    | Message(text: string)
    | Blocks(blocks: seq<Block>)
    | Mute(content: Json)
    | Typed(kind: string, text: string)
    | Wrapped(inner: Saying)

  function BlockJson(b: Block): Json { if b.Words? then Obj([Field("text", Str(b.text))]) else b.v }

  function BlockList(blocks: seq<Block>): seq<Json> {
    if blocks == [] then [] else [BlockJson(blocks[0])] + BlockList(blocks[1..])
  }

  function MessageWith(content: Json): Json { Obj([Field("role", Str("assistant")), Field("content", content)]) }

  function EventOf(s: Saying): Node {
    match s
    case Delta(t) => [Field("type", Str("TEXT_MESSAGE_CONTENT")), Field("delta", Str(t))]
    case Response(t) => [Field("response", Str(t))]
    case Data(t) => [Field("data", Str(t))]
    case Message(t) => [Field("message", MessageWith(Str(t)))]
    case Blocks(bs) => [Field("message", MessageWith(Arr(BlockList(bs))))]
    case Mute(v) => [Field("message", MessageWith(v))]
    case Typed(kind, t) => [Field("type", Str(kind)), Field("content", Str(t))]
    case Wrapped(inner) => [Field("event", Obj(EventOf(inner)))]
  }

  function AllTexts(blocks: seq<Block>): string {
    if blocks == [] then "" else (if blocks[0].Words? then blocks[0].text else "") + AllTexts(blocks[1..])
  }

  function Said(s: Saying): string {
    match s
    case Delta(t) => t
    case Response(t) => t
    case Data(t) => t
    case Message(t) => t
    case Blocks(bs) => AllTexts(bs)
    case Mute(_) => ""
    case Typed(_, t) => t
    case Wrapped(inner) => Said(inner)
  }

  // The typed messages that are the assistant's, in any case.
  predicate ReplyKind(kind: string) { Lower(kind) in {"aimessage", "aimessagechunk", "assistant"} }

  // Holds no text, or none that counts.
  ghost predicate Wordless(v: Json) { v.Obj? ==> Get(v.fields, "text") in {None, Some(Null), Some(Str(""))} }

  ghost predicate WellTyped(s: Saying) {
    match s
    case Typed(kind, _) => ReplyKind(kind)
    case Blocks(bs) => forall i :: 0 <= i < |bs| ==> bs[i].Other? ==> Wordless(bs[i].v)
    case Mute(v) => !v.Str? && !v.Arr?
    case Wrapped(inner) => WellTyped(inner)
    case _ => true
  }

  // The fields that would be read in place of this utterance, or of its wrapper.
  function Prior(s: Saying): set<string> {
    match s
    case Delta(_) => {}
    case Response(_) => {"type"}
    case Data(_) => {"type", "response"}
    case Message(_) => {"type", "response", "data"}
    case Blocks(_) => {"type", "response", "data"}
    case Mute(_) => {"type", "response", "data"}
    case Typed(_, _) => {"response", "data", "message"}
    case Wrapped(_) => {"type", "response", "data", "message"}
  }

  ghost predicate Clear(extra: Node, keys: set<string>) {
    forall i :: 0 <= i < |extra| ==> extra[i].key !in keys
  }

  // ---- It is read back ---------------------------------------------------------------------

  lemma {:induction false} GetConcat(a: Node, b: Node, key: string)
    ensures Get(a + b, key) == if Get(a, key).Some? then Get(a, key) else Get(b, key)
  {
    if a == [] {
      assert a + b == b;
    } else {
      assert (a + b)[1..] == a[1..] + b;
      GetConcat(a[1..], b, key);
    }
  }

  lemma {:induction false} GetAbsent(e: Node, key: string)
    requires forall i :: 0 <= i < |e| ==> e[i].key != key
    ensures Get(e, key).None?
  {
    if e != [] {
      GetAbsent(e[1..], key);
    }
  }

  // No two of the names read are the same.
  lemma NamesDiffer()
    ensures "type" != "delta" && "type" != "content" && "role" != "content"
    ensures "response" !in {"type", "content", "data", "message", "event"}
    ensures "data" !in {"type", "content", "message", "event"}
    ensures "message" !in {"type", "content", "event"}
    ensures "type" != "event"
  {
    assert |"type"| == 4 && |"data"| == 4 && "type"[0] == 't' && "data"[0] == 'd';
    assert |"role"| == 4 && |"delta"| == 5 && |"event"| == 5 && |"content"| == 7 && |"message"| == 7;
    assert |"response"| == 8 && "content"[0] == 'c' && "message"[0] == 'm';
  }

  lemma OneField(key: string, v: Json, extra: Node, other: string)
    ensures Get([Field(key, v)] + extra, key) == Some(v)
    ensures other != key ==> Get([Field(key, v)] + extra, other) == Get(extra, other)
  {
    assert ([Field(key, v)] + extra)[1..] == extra;
  }

  lemma {:induction false} BlocksRead(blocks: seq<Block>, repr: Json -> string)
    requires forall i :: 0 <= i < |blocks| ==> blocks[i].Other? ==> Wordless(blocks[i].v)
    ensures ContentText(Arr(BlockList(blocks)), repr) == AllTexts(blocks)
  {
    if blocks != [] {
      BlocksRead(blocks[1..], repr);
      assert BlockList(blocks)[1..] == BlockList(blocks[1..]);
    }
  }

  lemma MessageRead(content: Json)
    ensures FromAssistant(Some(MessageWith(content)))
    ensures GetOr(MessageWith(content).fields, "content", Null) == content
  {
    NamesDiffer();
    OneField("role", Str("assistant"), [Field("content", content)], "content");
    OneField("content", content, [], "content");
  }

  lemma DeltaRead(t: string, extra: Node, repr: Json -> string)
    ensures OwnText(EventOf(Delta(t)) + extra, repr) == Some(t)
  {
    var d := [Field("delta", Str(t))] + extra;
    var e := EventOf(Delta(t)) + extra;
    assert e == [Field("type", Str("TEXT_MESSAGE_CONTENT"))] + d;
    NamesDiffer();
    OneField("type", Str("TEXT_MESSAGE_CONTENT"), d, "delta");
    OneField("delta", Str(t), extra, "delta");
  }

  lemma ResponseRead(t: string, extra: Node, repr: Json -> string)
    requires Clear(extra, Prior(Response(t)))
    ensures OwnText(EventOf(Response(t)) + extra, repr) == Some(t)
  {
    NamesDiffer();
    OneField("response", Str(t), extra, "type");
    GetAbsent(extra, "type");
  }

  lemma DataRead(t: string, extra: Node, repr: Json -> string)
    requires Clear(extra, Prior(Data(t)))
    ensures OwnText(EventOf(Data(t)) + extra, repr) == Some(t)
  {
    NamesDiffer();
    OneField("data", Str(t), extra, "type");
    OneField("data", Str(t), extra, "response");
    GetAbsent(extra, "type");
    GetAbsent(extra, "response");
  }

  // What is read first when it is there is not there.
  lemma NoPlainText(e: Node, key: string, v: Json, extra: Node)
    requires e == [Field(key, v)] + extra && key in {"message", "event"}
    requires Clear(extra, {"type", "response", "data"})
    ensures Get(e, "type").None? && Get(e, "response").None? && Get(e, "data").None?
  {
    NamesDiffer();
    forall k | k in {"type", "response", "data"}
      ensures Get(e, k).None?
    {
      OneField(key, v, extra, k);
      GetAbsent(extra, k);
    }
  }

  lemma ContentRead(content: Json, extra: Node, repr: Json -> string)
    requires Clear(extra, {"type", "response", "data"})
    ensures OwnText([Field("message", MessageWith(content))] + extra, repr) == Some(ContentText(content, repr))
  {
    var e := [Field("message", MessageWith(content))] + extra;
    NoPlainText(e, "message", MessageWith(content), extra);
    OneField("message", MessageWith(content), extra, "message");
    MessageRead(content);
  }

  lemma ReplyIsNoDelta(kind: string)
    requires ReplyKind(kind)
    ensures kind != "TEXT_MESSAGE_CONTENT"
  {
    assert |"TEXT_MESSAGE_CONTENT"| == 20 && |"aimessage"| == 9 && |"aimessagechunk"| == 14 && |"assistant"| == 9;
  }

  lemma TypedRead(kind: string, t: string, extra: Node, repr: Json -> string)
    requires ReplyKind(kind) && Clear(extra, Prior(Typed(kind, t)))
    ensures OwnText(EventOf(Typed(kind, t)) + extra, repr) == Some(t)
  {
    var c := [Field("content", Str(t))] + extra;
    var e := EventOf(Typed(kind, t)) + extra;
    assert e == [Field("type", Str(kind))] + c;
    NamesDiffer();
    ReplyIsNoDelta(kind);
    forall k | k in {"response", "data", "message"}
      ensures Get(e, k).None?
    {
      OneField("type", Str(kind), c, k);
      OneField("content", Str(t), extra, k);
      GetAbsent(extra, k);
    }
    OneField("type", Str(kind), c, "content");
    OneField("content", Str(t), extra, "content");
  }

  lemma {:induction false} WrappedRead(inner: Saying, extra: Node, repr: Json -> string)
    requires Clear(extra, Prior(Wrapped(inner)))
    ensures AssistantText(EventOf(Wrapped(inner)) + extra, repr) == AssistantText(EventOf(inner), repr)
  {
    var v := Obj(EventOf(inner));
    var e := EventOf(Wrapped(inner)) + extra;
    NoPlainText(e, "event", v, extra);
    NamesDiffer();
    OneField("event", v, extra, "message");
    OneField("event", v, extra, "event");
    GetAbsent(extra, "message");
    NoTypeNoReply(e, repr);
  }

  lemma NoTypeNoReply(e: Node, repr: Json -> string)
    requires Get(e, "type").None?
    ensures !AssistantType(e, repr)
  {
    assert Lower("") == "";
  }

  // An utterance is read back whatever fields follow it, unless one is read first.
  lemma {:induction false} UtteranceIsRead(s: Saying, extra: Node, repr: Json -> string)
    requires WellTyped(s) && Clear(extra, Prior(s))
    ensures AssistantText(EventOf(s) + extra, repr) == Said(s)
    decreases s
  {
    match s
    case Delta(t) => DeltaRead(t, extra, repr);
    case Response(t) => ResponseRead(t, extra, repr);
    case Data(t) => DataRead(t, extra, repr);
    case Message(t) => ContentRead(Str(t), extra, repr);
    case Blocks(bs) =>
      ContentRead(Arr(BlockList(bs)), extra, repr);
      BlocksRead(bs, repr);
    case Mute(v) => ContentRead(v, extra, repr);
    case Typed(kind, t) => TypedRead(kind, t, extra, repr);
    case Wrapped(inner) =>
      WrappedRead(inner, extra, repr);
      UtteranceIsRead(inner, [], repr);
      assert EventOf(inner) + [] == EventOf(inner);
  }

  // ---- Tools and errors --------------------------------------------------------------------

  // An event of a stream: an utterance, a tool call's AG-UI event, a run error, or a
  // Strands tool use.
  datatype Turn =
    | Says(s: Saying)
    | Calls(kind: string, name: Option<Name>)
    | Fails(code: Option<Name>)
    | Uses(name: Option<Name>)

  // A name with whitespace around it.
  datatype Name = Name(before: string, name: string, after: string)

  ghost predicate Named(x: Name) { Blank(x.before) && Blank(x.after) && x.name != "" && Trimmed(x.name) }

  function NameText(x: Name): string { x.before + (x.name + x.after) }

  // What it is shown as: its first 160 characters, on one line.
  function Caption(x: Name): string {
    seq(if |x.name| < 160 then |x.name| else 160,
        i requires 0 <= i < |x.name| => if x.name[i] == '\r' || x.name[i] == '\n' then ' ' else x.name[i])
  }

  ghost predicate NamedIfAny(x: Option<Name>) { x.Some? ==> Named(x.value) }

  function NameJson(x: Option<Name>): Json { if x.Some? then Str(NameText(x.value)) else Null }

  function CaptionOr(x: Option<Name>, fallback: string): string { if x.Some? then Caption(x.value) else fallback }

  predicate CallKind(kind: string) { kind in {"TOOL_CALL_START", "TOOL_CALL_END", "TOOL_CALL_RESULT"} }

  ghost predicate WellFormed(t: Turn) {
    match t
    case Says(s) => WellTyped(s)
    case Calls(kind, name) => CallKind(kind) && NamedIfAny(name)
    case Fails(code) => NamedIfAny(code)
    case Uses(name) => NamedIfAny(name)
  }

  function TurnEvent(t: Turn): Node {
    match t
    case Says(s) => EventOf(s)
    case Calls(kind, name) => [Field("type", Str(kind)), Field("toolCallName", NameJson(name))]
    case Fails(code) => [Field("type", Str("RUN_ERROR")), Field("code", NameJson(code))]
    case Uses(name) => [Field("current_tool_use", Obj([Field("name", NameJson(name))]))]
  }

  function TurnText(t: Turn): string { if t.Says? then Said(t.s) else "" }

  function TurnTrace(t: Turn): Option<Trace> {
    match t
    case Says(_) => None
    case Calls(kind, name) => Some(Trace("tool", CaptionOr(name, TitleOf(kind))))
    case Fails(code) => Some(Trace("error", CaptionOr(code, "Runtime error")))
    case Uses(name) => Some(Trace("tool", CaptionOr(name, "Tool call")))
  }

  // The caption of a call without a name.
  function TitleOf(kind: string): string {
    if kind == "TOOL_CALL_START" then "Tool Call Start"
    else if kind == "TOOL_CALL_END" then "Tool Call End" else "Tool Call Result"
  }

  lemma {:induction false} FlatConcat(a: string, b: string)
    ensures Flat(a + b) == Flat(a) + Flat(b)
  {
  }

  lemma FlatKeepsBlank(s: string)
    requires Blank(s)
    ensures Blank(Flat(s))
  {
    assert IsSpace(' ');
  }

  lemma NameIsShown(x: Name, fallback: string, repr: Json -> string)
    requires Named(x)
    ensures SafeLabel(Some(Str(NameText(x))), fallback, repr) == Caption(x)
  {
    var m := Flat(x.name);
    FlatConcat(x.before, x.name + x.after);
    FlatConcat(x.name, x.after);
    FlatKeepsBlank(x.before);
    FlatKeepsBlank(x.after);
    assert IsSpace('\r') && IsSpace('\n');
    assert m[0] == x.name[0] && m[|m| - 1] == x.name[|m| - 1];
    StripPadded(Flat(x.before), m, Flat(x.after));
  }

  lemma FallbackIsShown(fallback: string, repr: Json -> string)
    requires fallback != "" && |fallback| <= 160 && Trimmed(fallback)
    requires forall i :: 0 <= i < |fallback| ==> fallback[i] != '\r' && fallback[i] != '\n'
    ensures SafeLabel(Some(Null), fallback, repr) == fallback
  {
    assert Flat(fallback) == fallback;
    StripTrimmed(fallback);
  }

  lemma LabelIsShown(x: Option<Name>, fallback: string, repr: Json -> string)
    requires NamedIfAny(x)
    requires fallback in {"Tool Call Start", "Tool Call End", "Tool Call Result", "Runtime error", "Tool call"}
    ensures SafeLabel(Some(NameJson(x)), fallback, repr) == CaptionOr(x, fallback)
  {
    if x.Some? {
      NameIsShown(x.value, fallback, repr);
    } else {
      FallbackIsShown(fallback, repr);
    }
  }

  lemma ReplyIsNoCall(kind: string)
    requires ReplyKind(kind)
    ensures !CallKind(kind) && kind != "RUN_ERROR"
  {
    assert |"TOOL_CALL_START"| == 15 && |"TOOL_CALL_END"| == 13 && |"TOOL_CALL_RESULT"| == 16;
    assert |"aimessage"| == 9 && |"aimessagechunk"| == 14 && |"assistant"| == 9 && |"RUN_ERROR"| == 9;
    assert Lower(kind)[0] == 'a' && "RUN_ERROR"[0] == 'R' && LowerChar('R') == 'r';
  }

  lemma TraceNames()
    ensures "current_tool_use" !in {"type", "delta", "response", "data", "message", "content", "event"}
    ensures "toolCallName" != "type" && "code" != "type"
    ensures "TEXT_MESSAGE_CONTENT" != "RUN_ERROR" && !CallKind("TEXT_MESSAGE_CONTENT") && !CallKind("RUN_ERROR")
  {
    assert |"current_tool_use"| == 16 && |"toolCallName"| == 12;
    assert |"TEXT_MESSAGE_CONTENT"| == 20 && |"RUN_ERROR"| == 9;
    assert |"code"| == 4 && "code"[0] == 'c' && "type"[0] == 't';
  }

  lemma TypeOfSaying(s: Saying)
    requires WellTyped(s)
    ensures Get(EventOf(s), "current_tool_use").None?
    ensures var kind := Get(EventOf(s), "type");
            kind.None? || (kind.value.Str? && !CallKind(kind.value.s) && kind.value.s != "RUN_ERROR")
  {
    NamesDiffer();
    TraceNames();
    match s
    case Delta(t) => TwoFields("type", Str("TEXT_MESSAGE_CONTENT"), "delta", Str(t), "current_tool_use");
    case Typed(kind, t) =>
      ReplyIsNoCall(kind);
      TwoFields("type", Str(kind), "content", Str(t), "current_tool_use");
    case Response(t) => NotTraced("response", Str(t));
    case Data(t) => NotTraced("data", Str(t));
    case Message(t) => NotTraced("message", MessageWith(Str(t)));
    case Blocks(bs) => NotTraced("message", MessageWith(Arr(BlockList(bs))));
    case Mute(v) => NotTraced("message", MessageWith(v));
    case Wrapped(inner) => NotTraced("event", Obj(EventOf(inner)));
  }

  lemma NotTraced(key: string, v: Json)
    requires key in {"response", "data", "message", "event"}
    ensures Get([Field(key, v)], "type").None? && Get([Field(key, v)], "current_tool_use").None?
  {
    NamesDiffer();
    TraceNames();
    assert [Field(key, v)] + [] == [Field(key, v)];
    OneField(key, v, [], "type");
    OneField(key, v, [], "current_tool_use");
  }

  lemma TwoFields(a: string, x: Json, b: string, y: Json, other: string)
    requires a != b
    ensures var e := [Field(a, x), Field(b, y)];
            Get(e, a) == Some(x) && Get(e, b) == Some(y) && (other != a && other != b ==> Get(e, other).None?)
  {
    assert [Field(a, x), Field(b, y)] == [Field(a, x)] + ([Field(b, y)] + []);
    OneField(a, x, [Field(b, y)] + [], b);
    OneField(a, x, [Field(b, y)] + [], other);
    OneField(b, y, [], b);
    OneField(b, y, [], other);
  }

  lemma SayingIsNotTraced(s: Saying, repr: Json -> string)
    requires WellTyped(s)
    ensures TraceOf(EventOf(s), repr).None? && !Unhashable(EventOf(s))
  {
    TypeOfSaying(s);
  }

  lemma CallNames()
    ensures "TOOL_CALL_START" != "TOOL_CALL_END" && "TOOL_CALL_START" != "TOOL_CALL_RESULT"
    ensures "TOOL_CALL_END" != "TOOL_CALL_RESULT"
  {
    assert |"TOOL_CALL_START"| == 15 && |"TOOL_CALL_END"| == 13 && |"TOOL_CALL_RESULT"| == 16;
  }

  // A call's event has no text of its own.
  lemma CallIsRead(kind: string, name: Option<Name>, repr: Json -> string)
    requires CallKind(kind) && NamedIfAny(name)
    ensures var e := TurnEvent(Calls(kind, name));
            AssistantText(e, repr) == "" && TraceOf(e, repr) == TurnTrace(Calls(kind, name)) && !Unhashable(e)
  {
    var e := TurnEvent(Calls(kind, name));
    NoOtherFields(e, Str(kind), "toolCallName", NameJson(name));
    CallIsTitled(e, kind, name, repr);
    if ReplyKind(kind) {
      ReplyIsNoCall(kind);
    }
    TraceNames();
  }

  lemma CallIsTitled(e: Node, kind: string, name: Option<Name>, repr: Json -> string)
    requires CallKind(kind) && NamedIfAny(name) && Get(e, "type") == Some(Str(kind))
    ensures SafeLabel(Some(NameJson(name)), ToolTitle(e), repr) == CaptionOr(name, TitleOf(kind))
  {
    CallNames();
    assert ToolTitle(e) == TitleOf(kind);
    LabelIsShown(name, TitleOf(kind), repr);
  }

  lemma ErrorIsRead(code: Option<Name>, repr: Json -> string)
    requires NamedIfAny(code)
    ensures var e := TurnEvent(Fails(code));
            AssistantText(e, repr) == "" && TraceOf(e, repr) == TurnTrace(Fails(code)) && !Unhashable(e)
  {
    var e := TurnEvent(Fails(code));
    NoOtherFields(e, Str("RUN_ERROR"), "code", NameJson(code));
    if ReplyKind("RUN_ERROR") {
      ReplyIsNoCall("RUN_ERROR");
    }
    LabelIsShown(code, "Runtime error", repr);
    TraceNames();
  }

  lemma NoOtherFields(e: Node, kind: Json, key: string, v: Json)
    requires e == [Field("type", kind), Field(key, v)] && key in {"toolCallName", "code"}
    ensures Get(e, "type") == Some(kind) && Get(e, key) == Some(v)
    ensures Get(e, "response").None? && Get(e, "data").None? && Get(e, "message").None? && Get(e, "event").None?
  {
    OtherNames();
    forall k | k in {"response", "data", "message", "event"}
      ensures Get(e, k).None? && Get(e, "type") == Some(kind) && Get(e, key) == Some(v)
    {
      TwoFields("type", kind, key, v, k);
    }
  }

  lemma OtherNames()
    ensures "response" !in {"type", "toolCallName", "code"} && "data" !in {"type", "toolCallName", "code"}
    ensures "message" !in {"type", "toolCallName", "code"} && "event" !in {"type", "toolCallName", "code"}
    ensures "toolCallName" != "type" && "code" != "type"
  {
    assert |"toolCallName"| == 12 && |"code"| == 4 && "code"[0] == 'c';
    assert |"type"| == 4 && |"data"| == 4 && "type"[0] == 't' && "data"[0] == 'd';
    assert |"response"| == 8 && |"message"| == 7 && |"event"| == 5;
  }

  lemma UseIsRead(name: Option<Name>, repr: Json -> string)
    requires NamedIfAny(name)
    ensures var e := TurnEvent(Uses(name));
            AssistantText(e, repr) == "" && TraceOf(e, repr) == TurnTrace(Uses(name)) && !Unhashable(e)
  {
    var e := TurnEvent(Uses(name));
    TraceNames();
    assert e[1..] == [];
    assert forall k :: k != "current_tool_use" ==> Get(e, k).None?;
    NoTypeNoReply(e, repr);
    LabelIsShown(name, "Tool call", repr);
  }

  lemma TurnIsRead(t: Turn, repr: Json -> string)
    requires WellFormed(t)
    ensures var e := TurnEvent(t);
            AssistantText(e, repr) == TurnText(t) && TraceOf(e, repr) == TurnTrace(t) && !Unhashable(e)
  {
    match t
    case Says(s) =>
      UtteranceIsRead(s, [], repr);
      assert EventOf(s) + [] == EventOf(s);
      SayingIsNotTraced(s, repr);
    case Calls(kind, name) => CallIsRead(kind, name, repr);
    case Fails(code) => ErrorIsRead(code, repr);
    case Uses(name) => UseIsRead(name, repr);
  }

  // ---- Whole streams --------------------------------------------------------------------------

  function TurnEvents(turns: seq<Turn>): seq<Node> {
    if turns == [] then [] else [TurnEvent(turns[0])] + TurnEvents(turns[1..])
  }

  function TextOf(turns: seq<Turn>): string {
    if turns == [] then "" else TurnText(turns[0]) + TextOf(turns[1..])
  }

  function Traced(t: Turn): seq<Trace> { if TurnTrace(t).Some? then [TurnTrace(t).value] else [] }

  function TracesOf(turns: seq<Turn>): seq<Trace> {
    if turns == [] then [] else Traced(turns[0]) + TracesOf(turns[1..])
  }

  lemma StepTakes(s: Scan, t: Turn, repr: Json -> string)
    requires WellFormed(t)
    ensures Step(s, TurnEvent(t), repr) == Scan(s.text + TurnText(t), s.trace + Traced(t))
  {
    TurnIsRead(t, repr);
  }

  // One turn more at the front of what is still to come.
  lemma TurnInFront(s: Scan, t: Turn, turns: seq<Turn>)
    ensures (s.text + TurnText(t)) + TextOf(turns) == s.text + TextOf([t] + turns)
    ensures (s.trace + Traced(t)) + TracesOf(turns) == s.trace + TracesOf([t] + turns)
  {
    assert ([t] + turns)[1..] == turns;
    assert TextOf([t] + turns) == TurnText(t) + TextOf(turns);
    assert TracesOf([t] + turns) == Traced(t) + TracesOf(turns);
    Assoc(s.text, TurnText(t), TextOf(turns));
    Assoc(s.trace, Traced(t), TracesOf(turns));
  }

  lemma Assoc<T>(a: seq<T>, b: seq<T>, c: seq<T>)
    ensures (a + b) + c == a + (b + c)
  {
  }

  lemma EventInFront(t: Turn, turns: seq<Turn>, rest: seq<Node>)
    ensures TurnEvents([t] + turns) + rest == [TurnEvent(t)] + (TurnEvents(turns) + rest)
  {
    assert ([t] + turns)[1..] == turns;
  }

  // While the trace has room, texts and traces are taken in order.
  lemma {:induction false} TurnsAreScanned(s: Scan, turns: seq<Turn>, rest: seq<Node>, repr: Json -> string)
    requires forall i :: 0 <= i < |turns| ==> WellFormed(turns[i])
    requires |s.trace| + |TracesOf(turns)| < MAX_TRACE_EVENTS
    ensures Scanned(s, TurnEvents(turns) + rest, repr)
            == Scanned(Scan(s.text + TextOf(turns), s.trace + TracesOf(turns)), rest, repr)
    decreases |turns|
  {
    if turns == [] {
      assert TurnEvents(turns) + rest == rest;
      assert s.text + "" == s.text && s.trace + [] == s.trace;
    } else {
      var t, more := turns[0], turns[1..];
      var next := Step(s, TurnEvent(t), repr);
      assert turns == [t] + more;
      TurnIsRead(t, repr);
      StepTakes(s, t, repr);
      TurnInFront(s, t, more);
      EventInFront(t, more, rest);
      assert |next.trace| + |TracesOf(more)| == |next.trace + TracesOf(more)| == |s.trace + TracesOf(turns)|;
      ScannedStep(s, TurnEvent(t), TurnEvents(more) + rest, repr);
      TurnsAreScanned(next, more, rest, repr);
    }
  }

  // The objects among decoded values.
  function ObjectsIn(values: seq<Json>): seq<Node> {
    if values == [] then []
    else (if values[0].Obj? then [values[0].fields] else []) + ObjectsIn(values[1..])
  }

  lemma {:induction false} ObjectsInConcat(a: seq<Json>, b: seq<Json>)
    ensures ObjectsIn(a + b) == ObjectsIn(a) + ObjectsIn(b)
  {
    if a == [] {
      assert a + b == b;
    } else {
      assert (a + b)[1..] == a[1..] + b;
      ObjectsInConcat(a[1..], b);
    }
  }

  lemma {:induction false} ObjectsAreDecoded(lines: seq<string>, parse: Parser)
    ensures Objects(lines, parse) == ObjectsIn(Decode(lines, parse))
  {
    if lines != [] {
      ObjectsAreDecoded(lines[1..], parse);
      DecodeCons(lines[0], lines[1..], parse);
      DecodeOne(lines[0], parse);
      assert lines == [lines[0]] + lines[1..];
      ObjectsInConcat(Decode([lines[0]], parse), Decode(lines[1..], parse));
      var v := DecodeLine(lines[0], parse);
      if v.Some? {
        assert [v.value][1..] == [];
      }
    }
  }

  // A body that is a stream of events, short enough to be read whole.
  ghost predicate StreamOf(body: string, events: seq<Node>, st: Style, parse: Parser) {
    && |body| <= 24000 && !("AGENT TEXT:" <= body)
    && exists frames ::
         && body == Encode(frames, st) && Ended(frames, st) && ObjectsIn(Events(frames)) == events
         && forall i :: 0 <= i < |frames| ==> GoodFrame(frames[i], st, parse)
  }

  lemma StreamIsDecoded(body: string, events: seq<Node>, st: Style, parse: Parser)
    requires PrintableStyle(st) && StreamOf(body, events, st, parse)
    ensures Objects(Lines(body), parse) == events
  {
    var frames :| body == Encode(frames, st) && Ended(frames, st) && ObjectsIn(Events(frames)) == events
                  && forall i :: 0 <= i < |frames| ==> GoodFrame(frames[i], st, parse);
    EventsSurvive(frames, st, parse);
    ObjectsAreDecoded(Lines(body), parse);
  }

  lemma AllAreScanned(turns: seq<Turn>, repr: Json -> string)
    requires |TracesOf(turns)| < MAX_TRACE_EVENTS && forall i :: 0 <= i < |turns| ==> WellFormed(turns[i])
    ensures Scanned(Scan("", []), TurnEvents(turns), repr) == Some(Scan(TextOf(turns), TracesOf(turns)))
  {
    TurnsAreScanned(Scan("", []), turns, [], repr);
    assert TurnEvents(turns) + [] == TurnEvents(turns);
    assert "" + TextOf(turns) == TextOf(turns) && [] + TracesOf(turns) == TracesOf(turns);
  }

  // The scan stops at the turn that fills the trace.
  lemma TraceFills(turns: seq<Turn>, last: Turn, rest: seq<Node>, repr: Json -> string)
    requires WellFormed(last) && forall i :: 0 <= i < |turns| ==> WellFormed(turns[i])
    requires |TracesOf(turns)| == 39 && TurnTrace(last).Some?
    ensures Scanned(Scan("", []), TurnEvents(turns) + ([TurnEvent(last)] + rest), repr)
            == Some(Scan(TextOf(turns), TracesOf(turns) + [TurnTrace(last).value]))
  {
    TurnsAreScanned(Scan("", []), turns, [TurnEvent(last)] + rest, repr);
    assert "" + TextOf(turns) == TextOf(turns) && [] + TracesOf(turns) == TracesOf(turns);
    TurnIsRead(last, repr);
    ScannedStep(Scan(TextOf(turns), TracesOf(turns)), TurnEvent(last), rest, repr);
    assert TextOf(turns) + "" == TextOf(turns);
  }

  lemma ScanIsShown(body: string, parse: Parser, literal: string -> Option<string>, repr: Json -> string)
    requires |body| <= 24000 && !("AGENT TEXT:" <= body)
    ensures DisplayOf(body, parse, literal, repr)
            == ShownOf(body, Scanned(Scan("", []), Objects(Lines(body), parse), repr), parse, repr)
  {
    assert Cut(body, MAX_RESPONSE_CHARS) == body;
  }

  lemma NothingIsShown(body: string, parse: Parser, repr: Json -> string)
    requires parse(body).None?
    ensures Cut(WholeText(body, parse, repr), 24000) == NOTHING
  {
    assert |NOTHING| == 51;
  }

  // ---- Main results ------------------------------------------------------------------------------

  // What was said is shown, in order, and what was called is traced, in order,
  lemma StreamIsShown(body: string, turns: seq<Turn>, st: Style, parse: Parser,
                      literal: string -> Option<string>, repr: Json -> string)
    requires PrintableStyle(st) && StreamOf(body, TurnEvents(turns), st, parse)
    requires forall i :: 0 <= i < |turns| ==> WellFormed(turns[i])
    requires |TracesOf(turns)| < MAX_TRACE_EVENTS
    ensures TextOf(turns) != ""
            ==> DisplayOf(body, parse, literal, repr) == Shown(Cut(TextOf(turns), 24000), TracesOf(turns))
    ensures TextOf(turns) == "" && parse(body).None?
            ==> DisplayOf(body, parse, literal, repr)
                == Shown("The runtime returned no displayable assistant text.", TracesOf(turns))
  {
    StreamIsDecoded(body, TurnEvents(turns), st, parse);
    AllAreScanned(turns, repr);
    ScanIsShown(body, parse, literal, repr);
    if parse(body).None? {
      NothingIsShown(body, parse, repr);
    }
  }

  // until the trace is full: with its fortieth entry the reading stops, whatever
  // else the stream holds.
  lemma FullTraceStops(body: string, turns: seq<Turn>, last: Turn, rest: seq<Node>, st: Style, parse: Parser,
                       literal: string -> Option<string>, repr: Json -> string)
    requires PrintableStyle(st) && StreamOf(body, TurnEvents(turns) + ([TurnEvent(last)] + rest), st, parse)
    requires WellFormed(last) && forall i :: 0 <= i < |turns| ==> WellFormed(turns[i])
    requires |TracesOf(turns)| == 39 && TurnTrace(last).Some? && TextOf(turns) != ""
    ensures DisplayOf(body, parse, literal, repr)
            == Shown(Cut(TextOf(turns), 24000), TracesOf(turns) + [TurnTrace(last).value])
  {
    StreamIsDecoded(body, TurnEvents(turns) + ([TurnEvent(last)] + rest), st, parse);
    TraceFills(turns, last, rest, repr);
  }

  // An event whose type cannot be looked up makes the reading raise, if it gets there.
  lemma UnhashableRaises(body: string, turns: seq<Turn>, e: Node, rest: seq<Node>, st: Style, parse: Parser,
                         literal: string -> Option<string>, repr: Json -> string)
    requires PrintableStyle(st) && StreamOf(body, TurnEvents(turns) + ([e] + rest), st, parse)
    requires |TracesOf(turns)| < MAX_TRACE_EVENTS && forall i :: 0 <= i < |turns| ==> WellFormed(turns[i])
    requires exists v: Json :: Get(e, "type") == Some(v) && (v.Arr? || v.Obj?)
    ensures DisplayOf(body, parse, literal, repr) == Raised
  {
    StreamIsDecoded(body, TurnEvents(turns) + ([e] + rest), st, parse);
    TurnsAreScanned(Scan("", []), turns, [e] + rest, repr);
    ScannedStep(Scan("" + TextOf(turns), [] + TracesOf(turns)), e, rest, repr);
  }

  // Of a longer body only the first 24000 characters are read.
  lemma LongBodyIsCut(body: string, parse: Parser, literal: string -> Option<string>, repr: Json -> string)
    requires |body| > 24000
    ensures DisplayOf(body, parse, literal, repr) == DisplayOf(body[..24000], parse, literal, repr)
  {
  }

  // A body that is one document shows its one utterance,
  lemma DocumentIsShown(body: string, s: Saying, extra: Node, parse: Parser,
                        literal: string -> Option<string>, repr: Json -> string)
    requires PlainLine(body) && !("AGENT TEXT:" <= body) && |body| <= 24000
    requires parse(body) == Some(Obj(EventOf(s) + extra)) && WellTyped(s) && Clear(extra, Prior(s)) && Said(s) != ""
    ensures DisplayOf(body, parse, literal, repr) == Shown(Cut(Said(s), 24000), [])
  {
    UtteranceIsRead(s, extra, repr);
    assert Lines(body) == if body == "" then [] else [body];
    assert Objects(Lines(body), parse) == [] by {
      assert [body][1..] == [];
    }
  }

  // and one with the marker what follows it, as a literal if it is one.
  lemma MarkedTextIsShown(body: string, a: string, m: string, b: string, parse: Parser,
                          literal: string -> Option<string>, repr: Json -> string)
    requires body == "AGENT TEXT:" + (a + (m + b)) && |body| <= 24000
    requires Blank(a) && Blank(b) && m != "" && Trimmed(m)
    ensures DisplayOf(body, parse, literal, repr)
            == Shown(Cut(if literal(m).Some? then literal(m).value else m, 24000), [])
  {
    StripPadded(a, m, b);
    assert body[|AGENT_TEXT|..] == a + (m + b);
  }
}
