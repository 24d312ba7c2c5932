// The verdicts on a runtime's events read off the decoded objects: which field,
// with which value, at the end of which path.

module VerdictFields {
  import opened Text
  import opened Json
  import opened ToolVerdict

  // ---- Paths --------------------------------------------------------------------------

  datatype Hop = Under(key: string) | At(index: nat)

  ghost predicate Leads(v: Json, path: seq<Hop>, w: Json)
    decreases |path|
  {
    if path == [] then v == w
    else
      match path[0]
      case Under(key) => v.Obj? && exists x :: Field(key, x) in v.fields && Leads(x, path[1..], w)
      case At(i) => v.Arr? && i < |v.items| && Leads(v.items[i], path[1..], w)
  }

  // An object somewhere inside v.
  ghost predicate Inside(node: Node, v: Json) { exists path :: Leads(v, path, Obj(node)) }

  // The walk yields exactly the objects that some path leads to.
  lemma {:induction false} WalkIsEveryPath(v: Json, node: Node)
    ensures node in Walk(v) <==> Inside(node, v)
    decreases v
  {
    if node in Walk(v) {
      WalkedIsInside(v, node);
    }
    if path :| Leads(v, path, Obj(node)) {
      LedIsWalked(v, path, node);
    }
  }

  lemma {:induction false} WalkedIsInside(v: Json, node: Node)
    requires node in Walk(v)
    ensures Inside(node, v)
    decreases v, 0
  {
    if v.Obj? && node == v.fields {
      assert Leads(v, [], Obj(node));
    } else if v.Obj? {
      var f := WalkedField(v.fields, node);
      var path :| Leads(f.value, path, Obj(node));
      assert ([Under(f.key)] + path)[1..] == path;
      assert Leads(v, [Under(f.key)] + path, Obj(node));
    } else {
      var i := WalkedItem(v.items, node);
      var path :| Leads(v.items[i], path, Obj(node));
      assert ([At(i)] + path)[1..] == path;
      assert Leads(v, [At(i)] + path, Obj(node));
    }
  }

  lemma {:induction false} WalkedField(fields: seq<Field>, node: Node) returns (f: Field)
    requires node in WalkFields(fields)
    ensures f in fields && Inside(node, f.value)
    decreases fields, 1
  {
    if node in Walk(fields[0].value) {
      f := fields[0];
      WalkedIsInside(f.value, node);
    } else {
      f := WalkedField(fields[1..], node);
    }
  }

  lemma {:induction false} WalkedItem(items: seq<Json>, node: Node) returns (i: nat)
    requires node in WalkItems(items)
    ensures i < |items| && Inside(node, items[i])
    decreases items, 1
  {
    if node in Walk(items[0]) {
      i := 0;
      WalkedIsInside(items[0], node);
    } else {
      i := WalkedItem(items[1..], node);
      i := i + 1;
    }
  }

  lemma {:induction false} LedIsWalked(v: Json, path: seq<Hop>, node: Node)
    requires Leads(v, path, Obj(node))
    ensures node in Walk(v)
    decreases |path|
  {
    if path != [] {
      match path[0]
      case Under(key) =>
        var x :| Field(key, x) in v.fields && Leads(x, path[1..], Obj(node));
        LedIsWalked(x, path[1..], node);
        FieldIsWalked(v.fields, Field(key, x), node);
      case At(i) =>
        LedIsWalked(v.items[i], path[1..], node);
        ItemIsWalked(v.items, i, node);
    }
  }

  lemma {:induction false} FieldIsWalked(fields: seq<Field>, f: Field, node: Node)
    requires f in fields && node in Walk(f.value)
    ensures node in WalkFields(fields)
  {
    if fields[0] != f {
      FieldIsWalked(fields[1..], f, node);
    }
  }

  lemma {:induction false} ItemIsWalked(items: seq<Json>, i: nat, node: Node)
    requires i < |items| && node in Walk(items[i])
    ensures node in WalkItems(items)
  {
    if i > 0 {
      ItemIsWalked(items[1..], i - 1, node);
    }
  }

  // ---- Fields ----------------------------------------------------------------------------

  // A dict has no key twice.
  ghost predicate OnceEach(node: Node) { forall i, j :: 0 <= i < j < |node| ==> node[i].key != node[j].key }

  lemma {:induction false} GetMeans(node: Node, key: string, v: Json)
    requires OnceEach(node)
    ensures Get(node, key) == Some(v) <==> Field(key, v) in node
  {
    if node != [] {
      GetMeans(node[1..], key, v);
      assert node == [node[0]] + node[1..];
    }
  }

  lemma GetNothing(node: Node, key: string)
    requires OnceEach(node)
    ensures Get(node, key) == None <==> forall v :: Field(key, v) !in node
  {
    if Get(node, key).Some? {
      GetMeans(node, key, Get(node, key).value);
    }
    if v :| Field(key, v) in node {
      GetMeans(node, key, v);
    }
  }

  // What Python takes for true.
  predicate IsTrue(v: Json) {
    && v != Null && v != Bool(false) && v != Str("") && v != Arr([]) && v != Obj([])
    && !(v.Num? && (v.lexeme == "0" || v.lexeme == "0.0" || v.lexeme == "-0.0"))
  }

  function TextOf(v: Json, repr: Json -> string): string { if v.Str? then v.s else repr(v) }

  // The object names this id under the key.
  ghost predicate NamesId(node: Node, key: string, id: string, repr: Json -> string) {
    exists v :: Field(key, v) in node && IsTrue(v) && TextOf(v, repr) == id
  }

  lemma NamesIdMeans(node: Node, key: string, id: string, repr: Json -> string)
    requires OnceEach(node)
    ensures NamesId(node, key, id, repr)
            <==> GetTruthy(node, key) && Render(Get(node, key).value, repr) == id
  {
    if GetTruthy(node, key) {
      GetMeans(node, key, Get(node, key).value);
    }
    if v :| Field(key, v) in node && IsTrue(v) && TextOf(v, repr) == id {
      GetMeans(node, key, v);
    }
  }

  // ---- Calls and results ---------------------------------------------------------------------

  ghost predicate UsesTool(node: Node, r: Required, id: string) {
    exists use :: && Field("toolUse", Obj(use)) in node
                  && Field("name", Str(r.tool)) in use && NamesId(use, "toolUseId", id, r.repr)
  }

  ghost predicate StartsTool(e: Json, r: Required, id: string) {
    && e.Obj? && Field("type", Str("TOOL_CALL_START")) in e.fields
    && Field("toolCallName", Str(r.tool)) in e.fields && NamesId(e.fields, "toolCallId", id, r.repr)
  }

  // The tool was called under this id, by an event or anywhere inside one.
  ghost predicate Called(events: seq<Json>, r: Required, id: string) {
    exists e :: e in events && (StartsTool(e, r, id) || exists n :: Inside(n, e) && UsesTool(n, r, id))
  }

  ghost predicate HasResult(node: Node, r: Required, id: string, result: Node) {
    Field("toolResult", Obj(result)) in node && NamesId(result, "toolUseId", id, r.repr)
  }

  ghost predicate AnswersTool(e: Json, r: Required, id: string) {
    e.Obj? && Field("type", Str("TOOL_CALL_RESULT")) in e.fields && NamesId(e.fields, "toolCallId", id, r.repr)
  }

  // A result object of this id, anywhere inside an event.
  ghost predicate ResultOf(events: seq<Json>, r: Required, id: string, result: Node) {
    exists e, n :: e in events && Inside(n, e) && HasResult(n, r, id, result)
  }

  // A TOOL_CALL_RESULT event of this id.
  ghost predicate AnswerOf(events: seq<Json>, r: Required, id: string, answer: Node) {
    exists e :: e in events && AnswersTool(e, r, id) && answer == e.fields
  }

  // The status reads "error", in any case, or the error flag is set.
  ghost predicate Erroneous(result: Node, repr: Json -> string) {
    || (exists v :: Field("status", v) in result && Lower(TextOf(v, repr)) == "error")
    || Field("isError", Bool(true)) in result
  }

  // The serialised content, or that of an empty string.
  ghost predicate Carries(node: Node, content: string) {
    || (exists v :: Field("content", v) in node && content == Dumps(v, Spaced))
    || ((forall v :: Field("content", v) !in node) && content == Dumps(Str(""), Spaced))
  }

  lemma ErroneousMeans(result: Node, r: Required)
    requires OnceEach(result)
    ensures Erroneous(result, r.repr) <==> SaysFailed(result, r)
  {
    GetMeans(result, "isError", Bool(true));
    GetNothing(result, "status");
    if Get(result, "status").Some? {
      GetMeans(result, "status", Get(result, "status").value);
    }
    if v :| Field("status", v) in result && Lower(TextOf(v, r.repr)) == "error" {
      GetMeans(result, "status", v);
    }
    assert Lower("") != "error";
  }

  lemma CarriesMeans(node: Node, content: string)
    requires OnceEach(node)
    ensures Carries(node, content) <==> content == Dumps(GetOr(node, "content", Str("")), Spaced)
  {
    GetNothing(node, "content");
    if Get(node, "content").Some? {
      GetMeans(node, "content", Get(node, "content").value);
    }
    if v :| Field("content", v) in node && content == Dumps(v, Spaced) {
      GetMeans(node, "content", v);
    }
  }

  // Every object in it is a dict.
  ghost predicate Decoded(v: Json) { forall n :: Inside(n, v) ==> OnceEach(n) }

  lemma InsideField(node: Node, key: string, w: Node, v: Json)
    requires Inside(node, v) && Field(key, Obj(w)) in node
    ensures Inside(w, v)
  {
    var path :| Leads(v, path, Obj(node));
    OneHopMore(v, path, node, key, w);
  }

  lemma {:induction false} OneHopMore(v: Json, path: seq<Hop>, node: Node, key: string, w: Node)
    requires Leads(v, path, Obj(node)) && Field(key, Obj(w)) in node
    ensures Leads(v, path + [Under(key)], Obj(w))
    decreases |path|
  {
    var longer := path + [Under(key)];
    if path == [] {
      assert longer[1..] == [];
      assert Leads(Obj(w), longer[1..], Obj(w));
    } else {
      assert longer[1..] == path[1..] + [Under(key)];
      match path[0]
      case Under(k) =>
        var x :| Field(k, x) in v.fields && Leads(x, path[1..], Obj(node));
        OneHopMore(x, path[1..], node, key, w);
      case At(i) => OneHopMore(v.items[i], path[1..], node, key, w);
    }
  }

  lemma ItselfInside(e: Json)
    requires e.Obj?
    ensures Inside(e.fields, e)
  {
    assert Leads(e, [], Obj(e.fields));
  }

  lemma UsesMeans(e: Json, n: Node, r: Required, id: string)
    requires Decoded(e) && Inside(n, e)
    ensures UsesTool(n, r, id) <==> UsedCall(n, r) == Some(id)
  {
    var use := Get(n, "toolUse");
    if use.Some? && use.value.Obj? {
      UseMeans(e, n, use.value.fields, r, id);
    }
    forall u | Field("toolUse", Obj(u)) in n
      ensures use == Some(Obj(u))
    {
      GetMeans(n, "toolUse", Obj(u));
    }
  }

  lemma UseMeans(e: Json, n: Node, use: Node, r: Required, id: string)
    requires Decoded(e) && Inside(n, e) && Get(n, "toolUse") == Some(Obj(use))
    ensures Field("toolUse", Obj(use)) in n
    ensures Field("name", Str(r.tool)) in use && NamesId(use, "toolUseId", id, r.repr)
            <==> UsedCall(n, r) == Some(id)
  {
    GetMeans(n, "toolUse", Obj(use));
    InsideField(n, "toolUse", use, e);
    GetMeans(use, "name", Str(r.tool));
    NamesIdMeans(use, "toolUseId", id, r.repr);
  }

  lemma StartsMeans(e: Json, r: Required, id: string)
    requires Decoded(e) && e.Obj?
    ensures StartsTool(e, r, id) <==> StartedCall(e.fields, r) == Some(id)
  {
    ItselfInside(e);
    GetMeans(e.fields, "type", Str("TOOL_CALL_START"));
    GetMeans(e.fields, "toolCallName", Str(r.tool));
    NamesIdMeans(e.fields, "toolCallId", id, r.repr);
  }

  lemma CalledMeans(events: seq<Json>, r: Required, id: string)
    requires forall e :: e in events ==> e.Obj? && Decoded(e)
    ensures Called(events, r, id) <==> CalledAs(events, r, id)
  {
    forall e | e in events
      ensures StartsTool(e, r, id) <==> StartedCall(e.fields, r) == Some(id)
    {
      StartsMeans(e, r, id);
    }
    forall e, n | e in events
      ensures Inside(n, e) && UsesTool(n, r, id) <==> n in Walk(e) && UsedCall(n, r) == Some(id)
    {
      WalkIsEveryPath(e, n);
      if Inside(n, e) {
        UsesMeans(e, n, r, id);
      }
    }
  }

  // One report, from one of the two forms of result.
  ghost predicate ReportFields(events: seq<Json>, r: Required, id: string, x: Report) {
    || (exists answer :: AnswerOf(events, r, id, answer) && !x.failed && Carries(answer, x.content))
    || (exists result :: ResultOf(events, r, id, result)
                         && (x.failed <==> Erroneous(result, r.repr)) && Carries(result, x.content))
  }

  lemma AnswersMean(e: Json, r: Required, id: string, x: Report)
    requires Decoded(e) && e.Obj?
    ensures AnswersTool(e, r, id) && !x.failed && Carries(e.fields, x.content)
            <==> AnsweredCall(e.fields, r) == Some((id, x))
  {
    ItselfInside(e);
    GetMeans(e.fields, "type", Str("TOOL_CALL_RESULT"));
    NamesIdMeans(e.fields, "toolCallId", id, r.repr);
    CarriesMeans(e.fields, x.content);
  }

  lemma ResultMeans(e: Json, n: Node, result: Node, r: Required, id: string, x: Report)
    requires Decoded(e) && Inside(n, e) && Get(n, "toolResult") == Some(Obj(result))
    ensures Field("toolResult", Obj(result)) in n
    ensures && HasResult(n, r, id, result)
            && (x.failed <==> Erroneous(result, r.repr)) && Carries(result, x.content)
            <==> ReportedCall(n, r) == Some((id, x))
  {
    GetMeans(n, "toolResult", Obj(result));
    InsideField(n, "toolResult", result, e);
    NamesIdMeans(result, "toolUseId", id, r.repr);
    ErroneousMeans(result, r);
    CarriesMeans(result, x.content);
  }

  lemma ResultsMean(e: Json, n: Node, r: Required, id: string, x: Report)
    requires Decoded(e) && Inside(n, e)
    ensures (exists result :: && HasResult(n, r, id, result)
                              && (x.failed <==> Erroneous(result, r.repr)) && Carries(result, x.content))
            <==> ReportedCall(n, r) == Some((id, x))
  {
    var found := Get(n, "toolResult");
    if found.Some? && found.value.Obj? {
      ResultMeans(e, n, found.value.fields, r, id, x);
    }
    forall u | Field("toolResult", Obj(u)) in n
      ensures found == Some(Obj(u))
    {
      GetMeans(n, "toolResult", Obj(u));
    }
  }

  lemma ReportMeans(events: seq<Json>, r: Required, id: string, x: Report)
    requires forall e :: e in events ==> e.Obj? && Decoded(e)
    ensures ReportFields(events, r, id, x) <==> ReportedAs(events, r, id, x)
  {
    if ReportFields(events, r, id, x) {
      FieldsReport(events, r, id, x);
    }
    if ReportedAs(events, r, id, x) {
      ReportHasFields(events, r, id, x);
    }
  }

  lemma FieldsReport(events: seq<Json>, r: Required, id: string, x: Report)
    requires (forall e :: e in events ==> e.Obj? && Decoded(e)) && ReportFields(events, r, id, x)
    ensures ReportedAs(events, r, id, x)
  {
    if answer :| AnswerOf(events, r, id, answer) && !x.failed && Carries(answer, x.content) {
      var e :| e in events && AnswersTool(e, r, id) && answer == e.fields;
      AnswersMean(e, r, id, x);
    } else {
      var result :| ResultOf(events, r, id, result)
                    && (x.failed <==> Erroneous(result, r.repr)) && Carries(result, x.content);
      var e, n :| e in events && Inside(n, e) && HasResult(n, r, id, result);
      ResultsMean(e, n, r, id, x);
      WalkIsEveryPath(e, n);
    }
  }

  lemma ReportHasFields(events: seq<Json>, r: Required, id: string, x: Report)
    requires (forall e :: e in events ==> e.Obj? && Decoded(e)) && ReportedAs(events, r, id, x)
    ensures ReportFields(events, r, id, x)
  {
    var e :| e in events
             && ((e.Obj? && AnsweredCall(e.fields, r) == Some((id, x)))
                 || exists n :: n in Walk(e) && ReportedCall(n, r) == Some((id, x)));
    if AnsweredCall(e.fields, r) == Some((id, x)) {
      AnswersMean(e, r, id, x);
      assert AnswerOf(events, r, id, e.fields);
    } else {
      var n :| n in Walk(e) && ReportedCall(n, r) == Some((id, x));
      WalkIsEveryPath(e, n);
      ResultsMean(e, n, r, id, x);
      var result :| HasResult(n, r, id, result)
                    && (x.failed <==> Erroneous(result, r.repr)) && Carries(result, x.content);
      assert ResultOf(events, r, id, result);
    }
  }

  // ---- Main results ----------------------------------------------------------------------------

  // A result of a called id: its object, and whether it counts as a failure.
  ghost predicate ToolAnswered(events: seq<Json>, r: Required, node: Node) {
    exists id :: Called(events, r, id) && (AnswerOf(events, r, id, node) || ResultOf(events, r, id, node))
  }

  ghost predicate ToolErred(events: seq<Json>, r: Required) {
    exists id, result :: Called(events, r, id) && ResultOf(events, r, id, result) && Erroneous(result, r.repr)
  }

  ghost predicate MarkerShown(events: seq<Json>, r: Required, marker: string) {
    exists node, content :: ToolAnswered(events, r, node) && Carries(node, content) && Includes(marker, content)
  }

  lemma ToolResultFields(events: seq<Json>, r: Required, x: Report)
    requires forall e :: e in events ==> e.Obj? && Decoded(e)
    ensures ToolResult(events, r, x) <==> exists id :: Called(events, r, id) && ReportFields(events, r, id, x)
  {
    forall id
      ensures Called(events, r, id) && ReportFields(events, r, id, x)
              <==> CalledAs(events, r, id) && ReportedAs(events, r, id, x)
    {
      CalledMeans(events, r, id);
      ReportMeans(events, r, id, x);
    }
  }

  lemma ContentExists(node: Node) returns (content: string)
    ensures Carries(node, content)
  {
    if v :| Field("content", v) in node {
      content := Dumps(v, Spaced);
    } else {
      content := Dumps(Str(""), Spaced);
    }
  }

  lemma SomeResult(events: seq<Json>, r: Required)
    requires forall e :: e in events ==> e.Obj? && Decoded(e)
    ensures (exists x :: ToolResult(events, r, x)) <==> exists node :: ToolAnswered(events, r, node)
  {
    if x :| ToolResult(events, r, x) {
      ToolResultFields(events, r, x);
      var id :| Called(events, r, id) && ReportFields(events, r, id, x);
      if answer :| AnswerOf(events, r, id, answer) && !x.failed && Carries(answer, x.content) {
        assert ToolAnswered(events, r, answer);
      } else {
        var result :| ResultOf(events, r, id, result) && (x.failed <==> Erroneous(result, r.repr));
        assert ToolAnswered(events, r, result);
      }
    }
    if node :| ToolAnswered(events, r, node) {
      var x := AnswerReports(events, r, node);
    }
  }

  lemma AnswerReports(events: seq<Json>, r: Required, node: Node) returns (x: Report)
    requires (forall e :: e in events ==> e.Obj? && Decoded(e)) && ToolAnswered(events, r, node)
    ensures ToolResult(events, r, x) && Carries(node, x.content)
  {
    var content := ContentExists(node);
    x := ReportWith(events, r, node, content);
  }

  lemma ReportWith(events: seq<Json>, r: Required, node: Node, content: string) returns (x: Report)
    requires (forall e :: e in events ==> e.Obj? && Decoded(e)) && ToolAnswered(events, r, node)
    requires Carries(node, content)
    ensures ToolResult(events, r, x) && x.content == content
  {
    var id :| Called(events, r, id) && (AnswerOf(events, r, id, node) || ResultOf(events, r, id, node));
    if AnswerOf(events, r, id, node) {
      x := Report(false, content);
    } else {
      x := Report(Erroneous(node, r.repr), content);
    }
    assert ReportFields(events, r, id, x);
    ToolResultFields(events, r, x);
  }

  lemma SomeFailure(events: seq<Json>, r: Required)
    requires forall e :: e in events ==> e.Obj? && Decoded(e)
    ensures (exists x :: ToolResult(events, r, x) && x.failed) <==> ToolErred(events, r)
  {
    if x :| ToolResult(events, r, x) && x.failed {
      ToolResultFields(events, r, x);
      var id :| Called(events, r, id) && ReportFields(events, r, id, x);
      var result :| ResultOf(events, r, id, result) && (x.failed <==> Erroneous(result, r.repr));
    }
    if id, result :| Called(events, r, id) && ResultOf(events, r, id, result) && Erroneous(result, r.repr) {
      var content := ContentExists(result);
      var x := Report(true, content);
      assert ReportFields(events, r, id, x);
      ToolResultFields(events, r, x);
    }
  }

  lemma SomeMarker(events: seq<Json>, r: Required, marker: string)
    requires forall e :: e in events ==> e.Obj? && Decoded(e)
    ensures (exists x :: ToolResult(events, r, x) && Occurs(marker, x.content)) <==> MarkerShown(events, r, marker)
  {
    if x :| ToolResult(events, r, x) && Occurs(marker, x.content) {
      OccursMeans(marker, x.content);
      ToolResultFields(events, r, x);
      var id :| Called(events, r, id) && ReportFields(events, r, id, x);
      if answer :| AnswerOf(events, r, id, answer) && !x.failed && Carries(answer, x.content) {
        assert ToolAnswered(events, r, answer);
      } else {
        var result :| ResultOf(events, r, id, result) && Carries(result, x.content);
        assert ToolAnswered(events, r, result);
      }
    }
    if node, content :| ToolAnswered(events, r, node) && Carries(node, content) && Includes(marker, content) {
      OccursMeans(marker, content);
      var x := ReportWith(events, r, node, content);
    }
  }

  lemma SomeCall(events: seq<Json>, r: Required)
    requires forall e :: e in events ==> e.Obj? && Decoded(e)
    ensures Calls(events, r) != {} <==> exists id :: Called(events, r, id)
  {
    forall id
      ensures Called(events, r, id) <==> id in Calls(events, r)
    {
      CalledMeans(events, r, id);
      CalledAsMeans(events, r, id);
    }
    if Calls(events, r) != {} {
      var id :| id in Calls(events, r);
      assert Called(events, r, id);
    }
  }

  // What each verdict says of the tool's results.
  lemma VerdictMeans(events: seq<Json>, r: Required)
    requires forall e :: e in events ==> e.Obj?
    ensures var v := Judge(events, r);
            && (v == NotInvoked <==> Calls(events, r) == {})
            && (v == NoResult <==> Calls(events, r) != {} && !exists x :: ToolResult(events, r, x))
            && (v == Failed <==> exists x :: ToolResult(events, r, x) && x.failed)
            && (v == OmittedMarker <==>
                  && (exists x :: ToolResult(events, r, x)) && !(exists x :: ToolResult(events, r, x) && x.failed)
                  && r.marker.Some? && r.marker.value != ""
                  && !exists x :: ToolResult(events, r, x) && Occurs(r.marker.value, x.content))
  {
    forall x
      ensures ToolResult(events, r, x) <==> Matches(Calls(events, r), Reports(events, r), x)
    {
      ToolResultMeans(events, r, x);
    }
  }

  // The verdict on decoded events, one field at a time.
  lemma VerdictInFields(events: seq<Json>, r: Required)
    requires forall e :: e in events ==> e.Obj? && Decoded(e)
    ensures var v := Judge(events, r);
            && (v == NotInvoked <==> !exists id :: Called(events, r, id))
            && (v == NoResult <==>
                  (exists id :: Called(events, r, id)) && !exists node :: ToolAnswered(events, r, node))
            && (v == Failed <==> ToolErred(events, r))
            && (v == OmittedMarker <==>
                  && (exists node :: ToolAnswered(events, r, node)) && !ToolErred(events, r)
                  && r.marker.Some? && r.marker.value != "" && !MarkerShown(events, r, r.marker.value))
  {
    VerdictMeans(events, r);
    SomeCall(events, r);
    SomeResult(events, r);
    SomeFailure(events, r);
    if r.marker.Some? {
      SomeMarker(events, r, r.marker.value);
    }
  }

  // Accepted: it answered, never erred, and showed the marker if one is asked for.
  lemma AcceptedInFields(events: seq<Json>, r: Required)
    requires forall e :: e in events ==> e.Obj? && Decoded(e)
    ensures Judge(events, r) == Accepted <==>
              && (exists node :: ToolAnswered(events, r, node)) && !ToolErred(events, r)
              && (r.marker.Some? && r.marker.value != "" ==> MarkerShown(events, r, r.marker.value))
  {
    AcceptedMeans(events, r);
    SomeResult(events, r);
    SomeFailure(events, r);
    if r.marker.Some? {
      SomeMarker(events, r, r.marker.value);
    }
  }

  // ---- Application failures ----------------------------------------------------------------------

  // The code of a node, None (null) when it has none.
  ghost predicate HasCode(node: Node, v: Json) {
    Field("code", v) in node || (v == Null && forall w :: Field("code", w) !in node)
  }

  ghost predicate ReportsTrouble(node: Node, repr: Json -> string, toInt: Json -> Option<int>) {
    || (exists v :: Field("status", v) in node
                    && (Lower(TextOf(v, repr)) == "error" || Lower(TextOf(v, repr)) == "failed"
                        || Lower(TextOf(v, repr)) == "failure"))
    || (exists v, w :: && HasCode(node, v) && !v.Bool? && toInt(v).Some? && toInt(v).value >= 400
                       && Field("error", w) in node && IsTrue(w))
  }

  lemma TroubleMeans(node: Node, repr: Json -> string, toInt: Json -> Option<int>)
    requires OnceEach(node)
    ensures ReportsTrouble(node, repr, toInt) <==> ReportsFailure(node, repr, toInt)
  {
    GetNothing(node, "status");
    GetNothing(node, "code");
    GetNothing(node, "error");
    forall key: string, v | Field(key, v) in node
      ensures Get(node, key) == Some(v)
    {
      GetMeans(node, key, v);
    }
    forall key: string | Get(node, key).Some?
      ensures Field(key, Get(node, key).value) in node
    {
      GetMeans(node, key, Get(node, key).value);
    }
    assert Lower("") == "" && "" !in {"error", "failed", "failure"};
    if ReportsFailure(node, repr, toInt) {
      var code := GetOr(node, "code", Null);
      assert HasCode(node, code);
    }
  }

  // A runtime's answer is an application failure exactly when some object, at the
  // end of some path, says so.
  lemma TroubleInFields(payloads: seq<Json>, repr: Json -> string, toInt: Json -> Option<int>)
    requires forall p :: p in payloads ==> Decoded(p)
    ensures (exists p, n :: p in payloads && n in Walk(p) && ReportsFailure(n, repr, toInt))
            <==> exists p, n :: p in payloads && Inside(n, p) && ReportsTrouble(n, repr, toInt)
  {
    if p, n :| p in payloads && n in Walk(p) && ReportsFailure(n, repr, toInt) {
      TroubleAt(p, n, repr, toInt);
    }
    if p, n :| p in payloads && Inside(n, p) && ReportsTrouble(n, repr, toInt) {
      TroubleAt(p, n, repr, toInt);
    }
  }

  lemma TroubleAt(p: Json, n: Node, repr: Json -> string, toInt: Json -> Option<int>)
    requires Decoded(p)
    ensures n in Walk(p) && ReportsFailure(n, repr, toInt) <==> Inside(n, p) && ReportsTrouble(n, repr, toInt)
  {
    WalkIsEveryPath(p, n);
    if Inside(n, p) {
      TroubleMeans(n, repr, toInt);
    }
  }
}
