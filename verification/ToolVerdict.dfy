// Judging a runtime's answer from its decoded events: was the required tool
// called, did it report a result, did any result fail, is the marker there.

module ToolVerdict {
  import opened Text
  import opened Json

  // ---- Reading decoded JSON -------------------------------------------------------

  // dict.get; a decoded object has each key once.
  function Get(fields: seq<Field>, key: string): Option<Json> {
    if fields == [] then None
    else if fields[0].key == key then Some(fields[0].value)
    else Get(fields[1..], key)
  }

  function GetOr(fields: seq<Field>, key: string, default: Json): Json {
    var v := Get(fields, key);
    if v.Some? then v.value else default
  }

  // bool(value).
  predicate Truthy(v: Json) {
    match v
    case Null => false
    case Bool(b) => b
    case Num(l) => l !in {"0", "0.0", "-0.0"}
    case Str(s) => s != ""
    case Arr(items) => items != []
    case Obj(fields) => fields != []
  }

  predicate GetTruthy(fields: seq<Field>, key: string) {
    var v := Get(fields, key);
    v.Some? && Truthy(v.value)
  }

  type Node = seq<Field>

  // Every object in a value, parents first.
  function Walk(v: Json): seq<Node>
    decreases v, 0
  {
    match v
    case Obj(fields) => [fields] + WalkFields(fields)
    case Arr(items) => WalkItems(items)
    case _ => []
  }

  function WalkItems(items: seq<Json>): seq<Node>
    decreases items, 0
  {
    if items == [] then [] else Walk(items[0]) + WalkItems(items[1..])
  }

  function WalkFields(fields: seq<Field>): seq<Node>
    decreases fields, 0
  {
    if fields == [] then [] else Walk(fields[0].value) + WalkFields(fields[1..])
  }

  // ---- What one event says ------------------------------------------------------------

  datatype Report = Report(failed: bool, content: string)

  datatype Required = Required(tool: string, marker: Option<string>, repr: Json -> string)

  predicate TypeIs(e: Node, name: string) { Get(e, "type") == Some(Str(name)) }

  // AG-UI: {"type": "TOOL_CALL_START", "toolCallName": ..., "toolCallId": ...}
  function StartedCall(e: Node, r: Required): Option<string> {
    if TypeIs(e, "TOOL_CALL_START") && Get(e, "toolCallName") == Some(Str(r.tool)) && GetTruthy(e, "toolCallId")
    then Some(Render(Get(e, "toolCallId").value, r.repr)) else None
  }

  function AnsweredCall(e: Node, r: Required): Option<(string, Report)> {
    if TypeIs(e, "TOOL_CALL_RESULT") && GetTruthy(e, "toolCallId")
    then Some((Render(Get(e, "toolCallId").value, r.repr),
               Report(false, Dumps(GetOr(e, "content", Str("")), Spaced)))) else None
  }

  // Strands: {"toolUse": {"name": ..., "toolUseId": ...}} at any depth.
  function UsedCall(node: Node, r: Required): Option<string> {
    var use := Get(node, "toolUse");
    if use.Some? && use.value.Obj? && Get(use.value.fields, "name") == Some(Str(r.tool))
       && GetTruthy(use.value.fields, "toolUseId")
    then Some(Render(Get(use.value.fields, "toolUseId").value, r.repr)) else None
  }

  predicate SaysFailed(result: Node, r: Required) {
    Lower(Render(GetOr(result, "status", Str("")), r.repr)) == "error" || Get(result, "isError") == Some(Bool(true))
  }

  function ReportedCall(node: Node, r: Required): Option<(string, Report)> {
    var result := Get(node, "toolResult");
    if result.Some? && result.value.Obj? && GetTruthy(result.value.fields, "toolUseId")
    then Some((Render(Get(result.value.fields, "toolUseId").value, r.repr),
               Report(SaysFailed(result.value.fields, r),
                      Dumps(GetOr(result.value.fields, "content", Str("")), Spaced))))
    else None
  }

  function Single<T>(x: Option<T>): set<T> { if x.Some? then {x.value} else {} }

  function NodeCalls(nodes: seq<Node>, r: Required): set<string> {
    if nodes == [] then {} else NodeCalls(nodes[..|nodes| - 1], r) + Single(UsedCall(nodes[|nodes| - 1], r))
  }

  function NodeReports(nodes: seq<Node>, r: Required): set<(string, Report)> {
    if nodes == [] then {} else NodeReports(nodes[..|nodes| - 1], r) + Single(ReportedCall(nodes[|nodes| - 1], r))
  }

  function EventCalls(e: Json, r: Required): set<string> {
    (if e.Obj? then Single(StartedCall(e.fields, r)) else {}) + NodeCalls(Walk(e), r)
  }

  function EventReports(e: Json, r: Required): set<(string, Report)> {
    (if e.Obj? then Single(AnsweredCall(e.fields, r)) else {}) + NodeReports(Walk(e), r)
  }

  function Calls(events: seq<Json>, r: Required): set<string> {
    if events == [] then {} else Calls(events[..|events| - 1], r) + EventCalls(events[|events| - 1], r)
  }

  function Reports(events: seq<Json>, r: Required): set<(string, Report)> {
    if events == [] then {} else Reports(events[..|events| - 1], r) + EventReports(events[|events| - 1], r)
  }

  // ---- The verdict -----------------------------------------------------------------------

  datatype Verdict = Accepted | NotAnObject | NotInvoked | NoResult | Failed | OmittedMarker

  // The loop over events, with its two accumulators. It stops at an event that is
  // not an object, which has no .get.
  method Tally(events: seq<Json>, r: Required)
    returns (objects: bool, callIds: set<string>, results: map<string, seq<Report>>)
    ensures objects <==> forall e :: e in events ==> e.Obj?
    ensures objects ==> callIds == Calls(events, r) && Tabulates(results, Reports(events, r))
  {
    callIds, results := {}, map[];
    var i := 0;
    while i < |events|
      invariant 0 <= i <= |events|
      invariant forall k :: 0 <= k < i ==> events[k].Obj?
      invariant callIds == Calls(events[..i], r)
      invariant Tabulates(results, Reports(events[..i], r))
    {
      if !events[i].Obj? {
        assert events[i] in events;
        return false, callIds, results;
      }
      callIds, results := TallyEvent(events[i], r, callIds, results, Reports(events[..i], r));
      assert events[..i + 1][..i] == events[..i];
      i := i + 1;
    }
    assert events[..|events|] == events;
    objects := true;
  }

  // The whole check: tally, then four tests in order.
  method ValidateToolResult(events: seq<Json>, r: Required) returns (v: Verdict)
    ensures v == Judge(events, r)
  {
    var objects, callIds, results := Tally(events, r);
    if !objects {
      return NotAnObject;
    }
    v := Conclude(callIds, results, Reports(events, r), r.marker);
  }

  // One turn of the loop.
  method TallyEvent(event: Json, r: Required, callIds: set<string>, results: map<string, seq<Report>>,
                    ghost reports: set<(string, Report)>)
    returns (calls: set<string>, table: map<string, seq<Report>>)
    requires event.Obj? && Tabulates(results, reports)
    ensures calls == callIds + EventCalls(event, r)
    ensures Tabulates(table, reports + EventReports(event, r))
  {
    calls, table := callIds, results;
    var started, answered := StartedCall(event.fields, r), AnsweredCall(event.fields, r);
    if started.Some? {
      calls := calls + {started.value};
    } else if answered.Some? {
      table := AddResult(table, reports, answered.value);
    }
    calls, table := TallyNodes(Walk(event), r, calls, table, reports + Single(answered));
    assert reports + Single(answered) + NodeReports(Walk(event), r) == reports + EventReports(event, r);
  }

  // The inner loop, over the objects inside the event.
  method TallyNodes(nodes: seq<Node>, r: Required, callIds: set<string>, results: map<string, seq<Report>>,
                    ghost reports: set<(string, Report)>)
    returns (calls: set<string>, table: map<string, seq<Report>>)
    requires Tabulates(results, reports)
    ensures calls == callIds + NodeCalls(nodes, r)
    ensures Tabulates(table, reports + NodeReports(nodes, r))
  {
    calls, table := callIds, results;
    var j := 0;
    ghost var seen := reports;
    assert nodes[..0] == [];
    while j < |nodes|
      invariant 0 <= j <= |nodes|
      invariant calls == callIds + NodeCalls(nodes[..j], r)
      invariant seen == reports + NodeReports(nodes[..j], r) && Tabulates(table, seen)
    {
      assert nodes[..j + 1][..j] == nodes[..j];
      var used, reported := UsedCall(nodes[j], r), ReportedCall(nodes[j], r);
      if used.Some? {
        calls := calls + {used.value};
      }
      if reported.Some? {
        table := AddResult(table, seen, reported.value);
        seen := seen + {reported.value};
      }
      j := j + 1;
    }
    assert nodes[..|nodes|] == nodes;
  }

  // The checks after the loop.
  method Conclude(callIds: set<string>, results: map<string, seq<Report>>, ghost reports: set<(string, Report)>,
                  marker: Option<string>)
    returns (v: Verdict)
    requires Tabulates(results, reports)
    ensures v == Weigh(callIds, reports, marker)
  {
    if callIds == {} {
      return NotInvoked;
    }
    var matching := set id, x | id in callIds && id in results && x in results[id] :: x;
    assert forall x :: x in matching <==> Matches(callIds, reports, x);
    if matching == {} {
      return NoResult;
    }
    if exists x :: x in matching && x.failed {
      return Failed;
    }
    if marker.Some? && marker.value != "" && !exists x :: x in matching && Occurs(marker.value, x.content) {
      return OmittedMarker;
    }
    assert exists x :: x in matching;
    v := Accepted;
  }

  // The dict of lists holds exactly these reports.
  ghost predicate Tabulates(results: map<string, seq<Report>>, reports: set<(string, Report)>) {
    forall id, x :: (id in results && x in results[id]) <==> (id, x) in reports
  }

  // results.setdefault(id, []).append(report)
  method AddResult(results: map<string, seq<Report>>, ghost reports: set<(string, Report)>, entry: (string, Report))
    returns (more: map<string, seq<Report>>)
    requires Tabulates(results, reports)
    ensures Tabulates(more, reports + {entry})
  {
    var before := if entry.0 in results then results[entry.0] else [];
    more := results[entry.0 := before + [entry.1]];
    forall id, x
      ensures (id in more && x in more[id]) <==> (id, x) in reports + {entry}
    {
      if id == entry.0 {
        assert x in before + [entry.1] <==> x in before || x == entry.1;
      }
    }
  }

  // A result of a call of the required tool.
  ghost predicate Matches(calls: set<string>, reports: set<(string, Report)>, x: Report) {
    exists id :: id in calls && (id, x) in reports
  }

  ghost function Weigh(calls: set<string>, reports: set<(string, Report)>, marker: Option<string>): Verdict {
    if calls == {} then NotInvoked
    else if !exists x :: Matches(calls, reports, x) then NoResult
    else if exists x :: Matches(calls, reports, x) && x.failed then Failed
    else if marker.Some? && marker.value != ""
            && !exists x :: Matches(calls, reports, x) && Occurs(marker.value, x.content) then OmittedMarker
    else Accepted
  }

  ghost function Judge(events: seq<Json>, r: Required): Verdict {
    if exists e :: e in events && !e.Obj? then NotAnObject
    else Weigh(Calls(events, r), Reports(events, r), r.marker)
  }

  // ---- Main results --------------------------------------------------------------------------

  lemma {:induction false} CallsOf(events: seq<Json>, r: Required, id: string)
    ensures id in Calls(events, r) <==> exists e :: e in events && id in EventCalls(e, r)
  {
    if events != [] {
      var init, last := events[..|events| - 1], events[|events| - 1];
      CallsOf(init, r, id);
      assert forall e :: e in events <==> e in init || e == last by {
        assert events == init + [last];
      }
    }
  }

  lemma {:induction false} ReportsOf(events: seq<Json>, r: Required, entry: (string, Report))
    ensures entry in Reports(events, r) <==> exists e :: e in events && entry in EventReports(e, r)
  {
    if events != [] {
      var init, last := events[..|events| - 1], events[|events| - 1];
      ReportsOf(init, r, entry);
      assert forall e :: e in events <==> e in init || e == last by {
        assert events == init + [last];
      }
    }
  }

  lemma {:induction false} NodeCallsOf(nodes: seq<Node>, r: Required, id: string)
    ensures id in NodeCalls(nodes, r) <==> exists n :: n in nodes && UsedCall(n, r) == Some(id)
  {
    if nodes != [] {
      var init, last := nodes[..|nodes| - 1], nodes[|nodes| - 1];
      NodeCallsOf(init, r, id);
      assert forall n :: n in nodes <==> n in init || n == last by {
        assert nodes == init + [last];
      }
    }
  }

  lemma {:induction false} NodeReportsOf(nodes: seq<Node>, r: Required, entry: (string, Report))
    ensures entry in NodeReports(nodes, r) <==> exists n :: n in nodes && ReportedCall(n, r) == Some(entry)
  {
    if nodes != [] {
      var init, last := nodes[..|nodes| - 1], nodes[|nodes| - 1];
      NodeReportsOf(init, r, entry);
      assert forall n :: n in nodes <==> n in init || n == last by {
        assert nodes == init + [last];
      }
    }
  }

  // A call of the tool, anywhere in the stream, under one of its two forms.
  ghost predicate CalledAs(events: seq<Json>, r: Required, id: string) {
    exists e :: e in events
      && ((e.Obj? && StartedCall(e.fields, r) == Some(id)) || exists n :: n in Walk(e) && UsedCall(n, r) == Some(id))
  }

  ghost predicate ReportedAs(events: seq<Json>, r: Required, id: string, x: Report) {
    exists e :: e in events
      && ((e.Obj? && AnsweredCall(e.fields, r) == Some((id, x)))
         || exists n :: n in Walk(e) && ReportedCall(n, r) == Some((id, x)))
  }

  lemma CalledAsMeans(events: seq<Json>, r: Required, id: string)
    ensures CalledAs(events, r, id) <==> id in Calls(events, r)
  {
    CallsOf(events, r, id);
    forall e | e in events
      ensures id in EventCalls(e, r)
              <==> ((e.Obj? && StartedCall(e.fields, r) == Some(id))
                    || exists n :: n in Walk(e) && UsedCall(n, r) == Some(id))
    {
      NodeCallsOf(Walk(e), r, id);
    }
  }

  lemma ReportedAsMeans(events: seq<Json>, r: Required, id: string, x: Report)
    ensures ReportedAs(events, r, id, x) <==> (id, x) in Reports(events, r)
  {
    ReportsOf(events, r, (id, x));
    forall e | e in events
      ensures (id, x) in EventReports(e, r)
              <==> ((e.Obj? && AnsweredCall(e.fields, r) == Some((id, x)))
                    || exists n :: n in Walk(e) && ReportedCall(n, r) == Some((id, x)))
    {
      NodeReportsOf(Walk(e), r, (id, x));
    }
  }

  // x is a result of a call of the tool.
  ghost predicate ToolResult(events: seq<Json>, r: Required, x: Report) {
    exists id :: CalledAs(events, r, id) && ReportedAs(events, r, id, x)
  }

  lemma ToolResultMeans(events: seq<Json>, r: Required, x: Report)
    ensures ToolResult(events, r, x) <==> Matches(Calls(events, r), Reports(events, r), x)
  {
    forall id
      ensures CalledAs(events, r, id) <==> id in Calls(events, r)
      ensures ReportedAs(events, r, id, x) <==> (id, x) in Reports(events, r)
    {
      CalledAsMeans(events, r, id);
      ReportedAsMeans(events, r, id, x);
    }
  }

  lemma WeighAccepts(calls: set<string>, reports: set<(string, Report)>, marker: Option<string>)
    ensures Weigh(calls, reports, marker) == Accepted <==>
            && (exists x :: Matches(calls, reports, x))
            && (forall x :: Matches(calls, reports, x) ==> !x.failed)
            && (marker.Some? && marker.value != "" ==>
                  exists x :: Matches(calls, reports, x) && Occurs(marker.value, x.content))
  {
    if x :| Matches(calls, reports, x) {
      assert calls != {};
    }
  }

  // A stream of objects is accepted exactly when the tool has a result, none of its
  // results failed, and the marker, if one is required, occurs in one of them.
  lemma AcceptedMeans(events: seq<Json>, r: Required)
    requires forall e :: e in events ==> e.Obj?
    ensures Judge(events, r) == Accepted <==>
            && (exists x :: ToolResult(events, r, x))
            && (forall x :: ToolResult(events, r, x) ==> !x.failed)
            && (r.marker.Some? && r.marker.value != "" ==>
                  exists x :: ToolResult(events, r, x) && Occurs(r.marker.value, x.content))
  {
    var calls, reports := Calls(events, r), Reports(events, r);
    WeighAccepts(calls, reports, r.marker);
    forall x
      ensures ToolResult(events, r, x) <==> Matches(calls, reports, x)
    {
      ToolResultMeans(events, r, x);
    }
  }

  ghost predicate Within(a: seq<Json>, b: seq<Json>) { forall e :: e in a ==> e in b }

  lemma Grow(a: seq<Json>, b: seq<Json>, r: Required)
    requires Within(a, b)
    ensures Calls(a, r) <= Calls(b, r) && Reports(a, r) <= Reports(b, r)
  {
    forall id | id in Calls(a, r)
      ensures id in Calls(b, r)
    {
      CallsOf(a, r, id);
      CallsOf(b, r, id);
    }
    forall entry | entry in Reports(a, r)
      ensures entry in Reports(b, r)
    {
      ReportsOf(a, r, entry);
      ReportsOf(b, r, entry);
    }
  }

  // The verdict depends only on which events occur: not on their order, and not
  // on how often each is repeated.
  lemma OrderAndRepetitionDoNotMatter(a: seq<Json>, b: seq<Json>, r: Required)
    requires forall e :: e in a <==> e in b
    ensures Judge(a, r) == Judge(b, r)
  {
    Grow(a, b, r);
    Grow(b, a, r);
    assert Calls(a, r) == Calls(b, r) && Reports(a, r) == Reports(b, r);
  }

  lemma PermutedEventsJudgeAlike(a: seq<Json>, b: seq<Json>, r: Required)
    requires multiset(a) == multiset(b)
    ensures Judge(a, r) == Judge(b, r)
  {
    forall e
      ensures e in a <==> e in b
    {
      assert e in a <==> e in multiset(a);
      assert e in b <==> e in multiset(b);
    }
    OrderAndRepetitionDoNotMatter(a, b, r);
  }

  // An event that neither calls the tool nor reports a result.
  ghost predicate ToolFree(e: Json, r: Required) {
    e.Obj? && EventCalls(e, r) == {} && EventReports(e, r) == {}
  }

  lemma ToolFreeEventsDoNotMatter(a: seq<Json>, b: seq<Json>, r: Required)
    requires Within(a, b) && forall e :: e in b && e !in a ==> ToolFree(e, r)
    ensures Judge(a, r) == Judge(b, r)
  {
    Grow(a, b, r);
    forall id | id in Calls(b, r)
      ensures id in Calls(a, r)
    {
      CallsOf(a, r, id);
      CallsOf(b, r, id);
    }
    forall entry | entry in Reports(b, r)
      ensures entry in Reports(a, r)
    {
      ReportsOf(a, r, entry);
      ReportsOf(b, r, entry);
    }
    assert Calls(a, r) == Calls(b, r) && Reports(a, r) == Reports(b, r);
  }

  // A failed result of the tool cannot be undone by anything later; and what was
  // accepted can only be overturned by a failure.
  lemma FailureIsPermanent(a: seq<Json>, b: seq<Json>, r: Required)
    requires Within(a, b) && forall e :: e in b ==> e.Obj?
    ensures Judge(a, r) == Failed ==> Judge(b, r) == Failed
    ensures Judge(a, r) == Accepted ==> Judge(b, r) == Accepted || Judge(b, r) == Failed
  {
    Grow(a, b, r);
    WeighGrows(Calls(a, r), Reports(a, r), Calls(b, r), Reports(b, r), r.marker);
  }

  lemma WeighGrows(calls: set<string>, reports: set<(string, Report)>,
                   calls': set<string>, reports': set<(string, Report)>, marker: Option<string>)
    requires calls <= calls' && reports <= reports'
    ensures Weigh(calls, reports, marker) == Failed ==> Weigh(calls', reports', marker) == Failed
    ensures Weigh(calls, reports, marker) == Accepted
            ==> Weigh(calls', reports', marker) in {Accepted, Failed}
  {
    forall x | Matches(calls, reports, x)
      ensures Matches(calls', reports', x)
    {
      var id :| id in calls && (id, x) in reports;
      assert id in calls' && (id, x) in reports';
    }
  }

  // ---- Application failures -----------------------------------------------------------------

  // `toInt` is int(value), with None for TypeError and ValueError.
  predicate ReportsFailure(node: Node, repr: Json -> string, toInt: Json -> Option<int>) {
    var status := Lower(Render(GetOr(node, "status", Str("")), repr));
    var code := GetOr(node, "code", Null);
    || status in {"error", "failed", "failure"}
    || (!code.Bool? && toInt(code).Some? && toInt(code).value >= 400 && GetTruthy(node, "error"))
  }

  datatype Health = Healthy | Undecodable | ApplicationFailure

  method ValidateRuntimeSuccess(payloads: seq<Json>, repr: Json -> string, toInt: Json -> Option<int>)
    returns (h: Health)
    ensures h == Undecodable <==> payloads == []
    ensures h == ApplicationFailure <==>
            exists p, n :: p in payloads && n in Walk(p) && ReportsFailure(n, repr, toInt)
  {
    if payloads == [] {
      return Undecodable;
    }
    var i := 0;
    while i < |payloads|
      invariant 0 <= i <= |payloads|
      invariant forall k, n :: 0 <= k < i && n in Walk(payloads[k]) ==> !ReportsFailure(n, repr, toInt)
    {
      var nodes := Walk(payloads[i]);
      var j := 0;
      while j < |nodes|
        invariant 0 <= j <= |nodes|
        invariant forall k :: 0 <= k < j ==> !ReportsFailure(nodes[k], repr, toInt)
      {
        if ReportsFailure(nodes[j], repr, toInt) {
          assert payloads[i] in payloads && nodes[j] in Walk(payloads[i]);
          return ApplicationFailure;
        }
        j := j + 1;
      }
      i := i + 1;
    }
    h := Healthy;
  }
}
