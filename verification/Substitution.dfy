// Replacing <<name>> sentinels in strings and JSON trees, and the laws the
// replacement obeys.

module Substitution {
  import opened Text
  import opened Json
  import opened Tokens
  import opened LeftoverScan

  type Params = map<string, Json>

  // re.sub: leftmost matches, left to right, replacements never rescanned.
  function Sub(s: string, p: Params, repr: Json -> string): string
    decreases |s|
  {
    if s == "" then ""
    else
      var m := Match(s, AnySpace);
      if m.Some? then
        (if m.value.name in p then Render(p[m.value.name], repr) else s[..m.value.len]) + Sub(s[m.value.len..], p, repr)
      else [s[0]] + Sub(s[1..], p, repr)
  }

  // The name, when the string is one token and whitespace.
  function Whole(s: string): Option<string> {
    var t := Strip(s);
    var m := Match(t, AnySpace);
    if m.Some? && m.value.len == |t| then Some(m.value.name) else None
  }

  function SubstString(s: string, p: Params, repr: Json -> string): Json {
    var whole := Whole(s);
    if whole.Some? then (if whole.value in p then p[whole.value] else Str(s))
    else Str(Sub(s, p, repr))
  }

  // Keys are left alone.
  function Subst(v: Json, p: Params, repr: Json -> string): Json
    decreases v, 0
  {
    match v
    case Str(s) => SubstString(s, p, repr)
    case Arr(items) => Arr(SubstItems(items, p, repr))
    case Obj(fields) => Obj(SubstFields(fields, p, repr))
    case _ => v
  }

  function SubstItems(items: seq<Json>, p: Params, repr: Json -> string): (r: seq<Json>)
    decreases items, 0
  {
    if items == [] then [] else [Subst(items[0], p, repr)] + SubstItems(items[1..], p, repr)
  }

  function SubstFields(fields: seq<Field>, p: Params, repr: Json -> string): (r: seq<Field>)
    decreases fields, 0
  {
    if fields == [] then []
    else [Field(fields[0].key, Subst(fields[0].value, p, repr))] + SubstFields(fields[1..], p, repr)
  }

  // ---- Text and values the laws are for ----------------------------------------------------

  predicate Angle(c: char) { c == '<' || c == '>' }

  predicate AngleFree(s: string) { forall i :: 0 <= i < |s| ==> !Angle(s[i]) }

  predicate AllAngleFree(strings: seq<string>) { forall i :: 0 <= i < |strings| ==> AngleFree(strings[i]) }

  // Every angle bracket belongs to a token.
  predicate Clean(s: string)
    decreases |s|
  {
    s == "" ||
    var m := Match(s, AnySpace);
    if m.Some? then Clean(s[m.value.len..]) else !Angle(s[0]) && Clean(s[1..])
  }

  // The text around the tokens the parameters do not cover, once those they do
  // cover are replaced.
  function Rest(s: string, p: Params, repr: Json -> string): string
    decreases |s|
  {
    if s == "" then ""
    else
      var m := Match(s, AnySpace);
      if m.Some? then
        (if m.value.name in p then Render(p[m.value.name], repr) else "") + Rest(s[m.value.len..], p, repr)
      else [s[0]] + Rest(s[1..], p, repr)
  }

  ghost predicate PlainValues(p: Params, repr: Json -> string) {
    forall k :: k in p ==> AngleFree(Render(p[k], repr)) && AllAngleFree(Strings(p[k]))
  }

  ghost predicate SolidValues(p: Params, repr: Json -> string) {
    forall k :: k in p ==> !Blank(Render(p[k], repr))
  }

  // ---- One string ---------------------------------------------------------------------------

  lemma TokenFront(s: string, t: string)
    requires Match(s, AnySpace).Some?
    ensures var n := Match(s, AnySpace).value.len; var u := s[..n] + t;
            Match(u, AnySpace) == Match(s, AnySpace) && u[n..] == t && u[..n] == s[..n] && u != ""
  {
    MatchAgain(s, t, AnySpace);
  }

  lemma PlainHead(c: char, t: string, p: Params, repr: Json -> string)
    requires !Angle(c)
    ensures Sub([c] + t, p, repr) == [c] + Sub(t, p, repr)
    ensures Rest([c] + t, p, repr) == [c] + Rest(t, p, repr)
    ensures Clean([c] + t) == Clean(t)
  {
    assert ([c] + t)[1..] == t && Match([c] + t, AnySpace).None?;
  }

  lemma {:induction false} SubSkips(a: string, t: string, p: Params, repr: Json -> string)
    requires AngleFree(a)
    ensures Sub(a + t, p, repr) == a + Sub(t, p, repr)
  {
    if a == "" {
      assert a + t == t;
    } else {
      assert a == [a[0]] + a[1..];
      Associate(a[0], a[1..], t);
      PlainHead(a[0], a[1..] + t, p, repr);
      SubSkips(a[1..], t, p, repr);
      Associate(a[0], a[1..], Sub(t, p, repr));
    }
  }

  lemma {:induction false} RestSkips(a: string, t: string, p: Params, repr: Json -> string)
    requires AngleFree(a)
    ensures Rest(a + t, p, repr) == a + Rest(t, p, repr) && Clean(a + t) == Clean(t)
  {
    if a == "" {
      assert a + t == t;
    } else {
      assert a == [a[0]] + a[1..];
      Associate(a[0], a[1..], t);
      PlainHead(a[0], a[1..] + t, p, repr);
      RestSkips(a[1..], t, p, repr);
      Associate(a[0], a[1..], Rest(t, p, repr));
    }
  }

  // Substituting p and then q is substituting once, p winning.
  lemma {:induction false} SubThenSub(s: string, p: Params, q: Params, repr: Json -> string)
    requires Clean(s) && PlainValues(p, repr)
    ensures Sub(Sub(s, p, repr), q, repr) == Sub(s, q + p, repr)
    decreases |s|
  {
    if s != "" {
      var m := Match(s, AnySpace);
      if m.Some? {
        var name, n := m.value.name, m.value.len;
        var t := Sub(s[n..], p, repr);
        SubThenSub(s[n..], p, q, repr);
        if name in p {
          SubSkips(Render(p[name], repr), t, q, repr);
        } else {
          TokenFront(s, t);
        }
      } else {
        SubThenSub(s[1..], p, q, repr);
        SubSkips([s[0]], Sub(s[1..], p, repr), q, repr);
      }
    }
  }

  // What a first pass leaves is clean again, and the text around its tokens is
  // known without making the pass.
  lemma {:induction false} RestOfSub(s: string, p: Params, repr: Json -> string)
    requires Clean(s) && PlainValues(p, repr)
    ensures Clean(Sub(s, p, repr)) && Rest(Sub(s, p, repr), map[], repr) == Rest(s, p, repr)
    decreases |s|
  {
    if s != "" {
      var m := Match(s, AnySpace);
      if m.Some? {
        var name, n := m.value.name, m.value.len;
        var t := Sub(s[n..], p, repr);
        RestOfSub(s[n..], p, repr);
        if name in p {
          RestSkips(Render(p[name], repr), t, map[], repr);
        } else {
          TokenFront(s, t);
        }
      } else {
        RestOfSub(s[1..], p, repr);
        RestSkips([s[0]], Sub(s[1..], p, repr), map[], repr);
      }
    }
  }

  function Uncovered(names: seq<string>, p: Params): seq<string> {
    if names == [] then []
    else (if names[0] in p then [] else [names[0]]) + Uncovered(names[1..], p)
  }

  lemma {:induction false} UncoveredConcat(a: seq<string>, b: seq<string>, p: Params)
    ensures Uncovered(a + b, p) == Uncovered(a, p) + Uncovered(b, p)
  {
    if a == [] {
      assert a + b == b;
    } else {
      assert (a + b)[1..] == a[1..] + b && (a + b)[0] == a[0];
      UncoveredConcat(a[1..], b, p);
      if a[0] !in p {
        Associate(a[0], Uncovered(a[1..], p), Uncovered(b, p));
      }
    }
  }

  lemma Associate<T>(x: T, a: seq<T>, b: seq<T>)
    ensures [x] + (a + b) == ([x] + a) + b
  {
  }

  lemma {:induction false} UncoveredEmpty(names: seq<string>, p: Params)
    ensures Uncovered(names, p) == [] <==> forall i :: 0 <= i < |names| ==> names[i] in p
    ensures forall i :: 0 <= i < |Uncovered(names, p)| ==> Uncovered(names, p)[i] !in p
  {
    if names != [] {
      UncoveredEmpty(names[1..], p);
      assert names == [names[0]] + names[1..];
    }
  }

  // A token read with the wide pattern is, for the narrow one, either the same
  // token or nothing at all.
  lemma NarrowToken(s: string, t: string, g: Gaps)
    requires Match(s, AnySpace).Some?
    ensures var f := Match(s, AnySpace).value; var u := s[..f.len] + t;
            FindAll(u, g) == (if Match(s, g).Some? then [f.name] else []) + FindAll(t, g)
  {
    var f := Match(s, AnySpace).value;
    var u := s[..f.len] + t;
    TokenFront(s, t);
    NarrowFront(s, t, g);
    if Match(u, g).None? {
      TokenBody(s);
      assert u[1..] == s[1..f.len] + t;
      InertFront(s[1..f.len], t, g);
    }
  }

  // Past its first bracket a token holds no place where a token can begin.
  ghost predicate Blocked(s: string, i: nat)
    requires i < |s|
  {
    s[i] != '<' || (i + 1 < |s| && s[i + 1] != '<')
  }

  ghost predicate NoFront(s: string) { forall i: nat :: i < |s| ==> Blocked(s, i) }

  lemma TokenBody(s: string)
    requires Match(s, AnySpace).Some?
    ensures NoFront(s[1..Match(s, AnySpace).value.len])
  {
    var n := Match(s, AnySpace).value.len;
    MatchMeans(s, Match(s, AnySpace).value.name, n, AnySpace);
    var a: string, b: string :| AllGap(a, AnySpace) && AllGap(b, AnySpace)
                                && AllWord(Match(s, AnySpace).value.name) && Match(s, AnySpace).value.name != ""
                                && s[..n] == "<<" + a + Match(s, AnySpace).value.name + b + ">>";
    var inner := a + Match(s, AnySpace).value.name + b + ">>";
    assert s[..n] == "<<" + inner;
    forall i | 0 <= i < |inner|
      ensures inner[i] != '<'
    {
    }
    assert s[1..n] == "<" + inner by {
      assert s[1..n] == s[..n][1..];
    }
  }

  lemma {:induction false} InertFront(a: string, t: string, g: Gaps)
    requires NoFront(a)
    ensures FindAll(a + t, g) == FindAll(t, g)
  {
    if a == "" {
      assert a + t == t;
    } else {
      assert (a + t)[1..] == a[1..] + t;
      assert Blocked(a, 0);
      assert Match(a + t, g).None?;
      forall i: nat | i < |a| - 1
        ensures Blocked(a[1..], i)
      {
        assert Blocked(a, i + 1);
      }
      InertFront(a[1..], t, g);
    }
  }

  lemma NarrowFront(s: string, t: string, g: Gaps)
    requires Match(s, AnySpace).Some?
    ensures var f := Match(s, AnySpace).value; var u := s[..f.len] + t;
            && (Match(u, g).Some? <==> Match(s, g).Some?)
            && (Match(s, g).Some? ==> Match(u, g) == Some(f))
  {
    var f := Match(s, AnySpace).value;
    var u := s[..f.len] + t;
    TokenFront(s, t);
    if Match(s, g).Some? {
      Widen(s, g);
      MatchAgain(s, t, g);
    }
    if Match(u, g).Some? {
      Widen(u, g);
      MatchAgain(u, s[f.len..], g);
      assert u[..f.len] + s[f.len..] == s;
    }
  }

  // What substitution leaves is exactly the tokens the parameters do not cover,
  // in their order; so a covering map leaves none.
  lemma {:induction false} SubLeaves(s: string, p: Params, repr: Json -> string, g: Gaps)
    requires Clean(s) && PlainValues(p, repr)
    ensures FindAll(Sub(s, p, repr), g) == Uncovered(FindAll(s, g), p)
    decreases |s|
  {
    if s != "" {
      var m := Match(s, AnySpace);
      if m.Some? {
        SubLeaves(s[m.value.len..], p, repr, g);
        SubLeavesToken(s, p, repr, g);
      } else {
        SubLeaves(s[1..], p, repr, g);
        FindAllSkips([s[0]], Sub(s[1..], p, repr), g);
        FindAllSkips([s[0]], s[1..], g);
        assert [s[0]] + s[1..] == s;
      }
    }
  }

  lemma SubLeavesToken(s: string, p: Params, repr: Json -> string, g: Gaps)
    requires PlainValues(p, repr) && Match(s, AnySpace).Some?
    requires var rest := s[Match(s, AnySpace).value.len..];
             FindAll(Sub(rest, p, repr), g) == Uncovered(FindAll(rest, g), p)
    ensures FindAll(Sub(s, p, repr), g) == Uncovered(FindAll(s, g), p)
  {
    var f := Match(s, AnySpace).value;
    var rest := s[f.len..];
    var t := Sub(rest, p, repr);
    var first := if Match(s, g).Some? then [f.name] else [];
    assert s[..f.len] + rest == s;
    NarrowToken(s, rest, g);
    UncoveredConcat(first, FindAll(rest, g), p);
    if f.name in p {
      FindAllSkips(Render(p[f.name], repr), t, g);
    } else {
      NarrowToken(s, t, g);
    }
    assert [f.name][1..] == [];
  }

  predicate Touches(names: seq<string>, p: Params) { exists i :: 0 <= i < |names| && names[i] in p }

  lemma {:induction false} SubUntouched(s: string, p: Params, repr: Json -> string)
    requires !Touches(FindAll(s, AnySpace), p)
    ensures Sub(s, p, repr) == s
    decreases |s|
  {
    if s != "" {
      var m := Match(s, AnySpace);
      if m.Some? {
        var n := m.value.len;
        Shifted(m.value.name, FindAll(s[n..], AnySpace), p);
        SubUntouched(s[n..], p, repr);
        assert s == s[..n] + s[n..];
      } else {
        SubUntouched(s[1..], p, repr);
        assert s == [s[0]] + s[1..];
      }
    }
  }

  lemma Shifted(x: string, rest: seq<string>, p: Params)
    ensures Touches([x] + rest, p) <==> x in p || Touches(rest, p)
  {
    var all := [x] + rest;
    if x in p {
      assert all[0] in p;
    }
    if i :| 0 <= i < |rest| && rest[i] in p {
      assert all[i + 1] in p;
    }
  }

  // A whole-token string is whitespace, the token, whitespace.
  lemma WholeShape(s: string) returns (a: string, tok: string, b: string)
    requires Whole(s).Some?
    ensures s == a + (tok + b) && Blank(a) && Blank(b)
    ensures Match(tok, AnySpace) == Some(Found(Whole(s).value, |tok|))
  {
    LStripShape(s);
    var l := LStrip(s);
    RStripShape(l);
    tok := RStrip(l);
    a, b := s[..|s| - |l|], l[|tok|..];
    assert l == tok + b && s == a + l;
  }

  lemma BlankAngleFree(s: string)
    requires Blank(s)
    ensures AngleFree(s)
  {
    forall i | 0 <= i < |s|
      ensures !Angle(s[i])
    {
      assert IsSpace(s[i]);
    }
  }

  // A token with text that has no brackets around it, read in three ways.
  lemma PaddedToken(a: string, tok: string, b: string, name: string, p: Params, repr: Json -> string)
    requires Blank(a) && Blank(b) && Match(tok, AnySpace) == Some(Found(name, |tok|))
    ensures var s := a + (tok + b);
            && FindAll(s, AnySpace) == [name] && Rest(s, map[], repr) == a + b
            && Sub(s, p, repr) == a + ((if name in p then Render(p[name], repr) else tok) + b)
  {
    BlankAngleFree(a);
    BlankAngleFree(b);
    FindAllSkips(a, tok + b, AnySpace);
    RestSkips(a, tok + b, map[], repr);
    SubSkips(a, tok + b, p, repr);
    TokenThenText(tok, b, name, p, repr);
  }

  lemma TokenThenText(tok: string, b: string, name: string, p: Params, repr: Json -> string)
    requires AngleFree(b) && Match(tok, AnySpace) == Some(Found(name, |tok|))
    ensures FindAll(tok + b, AnySpace) == [name] && Rest(tok + b, map[], repr) == b
    ensures Sub(tok + b, p, repr) == (if name in p then Render(p[name], repr) else tok) + b
  {
    TokenFront(tok, b);
    assert tok[..|tok|] == tok;
    TextOnly(b, p, repr);
    TextOnly(b, map[], repr);
    assert [name] + [] == [name] && "" + b == b;
  }

  lemma TextOnly(b: string, p: Params, repr: Json -> string)
    requires AngleFree(b)
    ensures FindAll(b, AnySpace) == [] && Rest(b, p, repr) == b && Sub(b, p, repr) == b
  {
    assert b + "" == b;
    FindAllSkips(b, "", AnySpace);
    RestSkips(b, "", p, repr);
    SubSkips(b, "", p, repr);
  }

  // One token with nothing but whitespace around it.
  lemma OneTokenShape(s: string, w: string, repr: Json -> string)
    returns (a: string, tok: string, b: string)
    requires FindAll(s, AnySpace) == [w] && Blank(Rest(s, map[], repr))
    ensures s == a + (tok + b) && Blank(a) && Blank(b) && Match(tok, AnySpace) == Some(Found(w, |tok|))
  {
    var k := FirstToken(s, w, repr);
    var n := Match(s[k..], AnySpace).value.len;
    a, tok, b := s[..k], s[k..][..n], s[k..][n..];
    TokenFront(s[k..], "");
    assert tok + "" == tok;
    assert s == a + s[k..] && s[k..] == tok + b;
  }

  lemma {:induction false} FirstToken(s: string, w: string, repr: Json -> string) returns (k: nat)
    requires FindAll(s, AnySpace) == [w] && Blank(Rest(s, map[], repr))
    ensures k <= |s| && Blank(s[..k])
    ensures var m := Match(s[k..], AnySpace);
            m.Some? && m.value.name == w && Blank(s[k..][m.value.len..])
    decreases |s|
  {
    if Match(s, AnySpace).Some? {
      k := 0;
      assert s[0..] == s && s[..0] == "";
      TokenInFront(s, w, repr);
    } else {
      BlankTail(s[0], Rest(s[1..], map[], repr));
      k := FirstToken(s[1..], w, repr);
      assert s[k + 1..] == s[1..][k..];
      assert s[..k + 1] == [s[0]] + s[1..][..k];
      k := k + 1;
    }
  }

  lemma TokenInFront(s: string, w: string, repr: Json -> string)
    requires FindAll(s, AnySpace) == [w] && Blank(Rest(s, map[], repr)) && Match(s, AnySpace).Some?
    ensures Match(s, AnySpace).value.name == w && Blank(s[Match(s, AnySpace).value.len..])
  {
    var b := s[Match(s, AnySpace).value.len..];
    assert FindAll(s, AnySpace)[0] == Match(s, AnySpace).value.name;
    assert FindAll(s, AnySpace)[1..] == FindAll(b, AnySpace);
    TokenFree(b, repr);
    assert "" + b == b;
  }

  lemma BlankTail(c: char, s: string)
    requires Blank([c] + s)
    ensures IsSpace(c) && Blank(s)
  {
    assert ([c] + s)[0] == c && ([c] + s)[1..] == s;
  }

  lemma {:induction false} TokenFree(s: string, repr: Json -> string)
    requires FindAll(s, AnySpace) == []
    ensures Rest(s, map[], repr) == s
    decreases |s|
  {
    if s != "" {
      TokenFree(s[1..], repr);
    }
  }

  // A string is one whole token exactly when its only token has nothing but
  // whitespace around it.
  lemma WholeIff(s: string, w: string, repr: Json -> string)
    requires Clean(s)
    ensures Whole(s) == Some(w) <==> FindAll(s, AnySpace) == [w] && Blank(Rest(s, map[], repr))
  {
    if Whole(s) == Some(w) {
      var a, tok, b := WholeShape(s);
      PaddedToken(a, tok, b, w, map[], repr);
    }
    if FindAll(s, AnySpace) == [w] && Blank(Rest(s, map[], repr)) {
      var a, tok, b := OneTokenShape(s, w, repr);
      TokenEnds(tok);
      StripPadded(a, tok, b);
    }
  }

  lemma TokenEnds(tok: string)
    requires Match(tok, AnySpace).Some? && Match(tok, AnySpace).value.len == |tok|
    ensures tok[0] == '<' && tok[|tok| - 1] == '>'
  {
    var f := Match(tok, AnySpace).value;
    MatchMeans(tok, f.name, f.len, AnySpace);
    assert tok[..f.len] == tok;
  }

  lemma {:induction false} AngleFreeFacts(s: string)
    requires AngleFree(s)
    ensures FindAll(s, AnySpace) == [] && FindAll(s, SpaceOnly) == [] && Whole(s).None? && Clean(s)
  {
    assert s + "" == s;
    FindAllSkips(s, "", AnySpace);
    FindAllSkips(s, "", SpaceOnly);
    if Whole(s).Some? {
      var a, tok, b := WholeShape(s);
      PaddedToken(a, tok, b, Whole(s).value, map[], v => "");
    }
    if s != "" {
      AngleFreeFacts(s[1..]);
    }
  }

  // ---- Trees -------------------------------------------------------------------------------------

  ghost predicate CleanTree(v: Json)
    decreases v, 0
  {
    match v
    case Str(s) => Clean(s)
    case Arr(items) => forall i :: 0 <= i < |items| ==> CleanTree(items[i])
    case Obj(fields) => forall i :: 0 <= i < |fields| ==> CleanTree(fields[i].value)
    case _ => true
  }

  lemma {:induction false} AngleFreeTreeStays(v: Json, p: Params, repr: Json -> string)
    requires AllAngleFree(Strings(v))
    ensures Subst(v, p, repr) == v
    decreases v, 0
  {
    match v
    case Str(s) =>
      assert Strings(v)[0] == s;
      AngleFreeFacts(s);
      SubUntouched(s, p, repr);
    case Arr(items) => AngleFreeItemsStay(items, p, repr);
    case Obj(fields) => AngleFreeFieldsStay(fields, p, repr);
    case _ =>
  }

  lemma AngleFreeParts(a: seq<string>, b: seq<string>)
    requires AllAngleFree(a + b)
    ensures AllAngleFree(a) && AllAngleFree(b)
  {
    forall i | 0 <= i < |a|
      ensures AngleFree(a[i])
    {
      assert (a + b)[i] == a[i];
    }
    forall i | 0 <= i < |b|
      ensures AngleFree(b[i])
    {
      assert (a + b)[|a| + i] == b[i];
    }
  }

  lemma {:induction false} AngleFreeItemsStay(items: seq<Json>, p: Params, repr: Json -> string)
    requires AllAngleFree(ItemStrings(items))
    ensures SubstItems(items, p, repr) == items
    decreases items, 0
  {
    if items != [] {
      AngleFreeParts(Strings(items[0]), ItemStrings(items[1..]));
      AngleFreeTreeStays(items[0], p, repr);
      AngleFreeItemsStay(items[1..], p, repr);
    }
  }

  lemma {:induction false} AngleFreeFieldsStay(fields: seq<Field>, p: Params, repr: Json -> string)
    requires AllAngleFree(FieldStrings(fields))
    ensures SubstFields(fields, p, repr) == fields
    decreases fields, 0
  {
    if fields != [] {
      AngleFreeParts([fields[0].key] + Strings(fields[0].value), FieldStrings(fields[1..]));
      AngleFreeParts([fields[0].key], Strings(fields[0].value));
      AngleFreeTreeStays(fields[0].value, p, repr);
      AngleFreeFieldsStay(fields[1..], p, repr);
    }
  }

  // The first pass leaves one token with whitespace around it, and the second
  // replaces that by its raw value instead of by text.
  predicate Unmasks(s: string, p: Params, q: Params, repr: Json -> string) {
    var left := Uncovered(FindAll(s, AnySpace), p);
    var around := Rest(s, p, repr);
    && Whole(s).None?
    && |left| == 1 && left[0] in q
    && (forall i :: 0 <= i < |around| ==> IsSpace(around[i]))
    && !(q[left[0]].Str? && around == "")
  }

  lemma StringThenString(s: string, p: Params, q: Params, repr: Json -> string)
    requires Clean(s) && PlainValues(p, repr)
    ensures Subst(SubstString(s, p, repr), q, repr) == SubstString(s, q + p, repr) <==> !Unmasks(s, p, q, repr)
  {
    if Whole(s).Some? {
      if Whole(s).value in p {
        AngleFreeTreeStays(p[Whole(s).value], q, repr);
      }
    } else {
      SubThenSub(s, p, q, repr);
      TextThenString(s, p, q, repr);
    }
  }

  lemma TextThenString(s: string, p: Params, q: Params, repr: Json -> string)
    requires Clean(s) && PlainValues(p, repr) && Whole(s).None?
    ensures SubstString(Sub(s, p, repr), q, repr) == Str(Sub(Sub(s, p, repr), q, repr)) <==> !Unmasks(s, p, q, repr)
  {
    var r := Sub(s, p, repr);
    RestOfSub(s, p, repr);
    SubLeaves(s, p, repr, AnySpace);
    if Whole(r).Some? {
      RawOrText(r, q, repr);
    }
    if Unmasks(s, p, q, repr) {
      WholeIff(r, FindAll(r, AnySpace)[0], repr);
    }
  }

  // A whole token and its text differ unless the value is text and there is
  // nothing around the token.
  lemma RawOrText(r: string, q: Params, repr: Json -> string)
    requires Clean(r) && Whole(r).Some?
    ensures var w := Whole(r).value; var around := Rest(r, map[], repr);
            && FindAll(r, AnySpace) == [w] && Blank(around)
            && (SubstString(r, q, repr) == Str(Sub(r, q, repr)) <==> !(w in q) || (q[w].Str? && around == ""))
  {
    var w := Whole(r).value;
    WholeIff(r, w, repr);
    var a, tok, b := WholeShape(r);
    PaddedToken(a, tok, b, w, q, repr);
    if w in q && q[w].Str? {
      var t := q[w].s;
      assert |Sub(r, q, repr)| == |a| + |t| + |b|;
      if a + b == "" {
        assert a + (t + b) == t;
      }
    }
  }

  // No string leaf is unmasked between the passes.
  ghost predicate Masked(v: Json, p: Params, q: Params, repr: Json -> string)
    decreases v, 0
  {
    match v
    case Str(s) => !Unmasks(s, p, q, repr)
    case Arr(items) => forall i :: 0 <= i < |items| ==> Masked(items[i], p, q, repr)
    case Obj(fields) => forall i :: 0 <= i < |fields| ==> Masked(fields[i].value, p, q, repr)
    case _ => true
  }

  lemma {:induction false} ItemsThenItems(items: seq<Json>, p: Params, q: Params, repr: Json -> string)
    requires PlainValues(p, repr) && forall i :: 0 <= i < |items| ==> CleanTree(items[i])
    ensures SubstItems(SubstItems(items, p, repr), q, repr) == SubstItems(items, q + p, repr)
            <==> forall i :: 0 <= i < |items| ==> Masked(items[i], p, q, repr)
    decreases items, 0
  {
    if items != [] {
      var rest := items[1..];
      var first := SubstItems(items, p, repr);
      SubstTwiceIff(items[0], p, q, repr);
      ItemsThenItems(rest, p, q, repr);
      assert first[1..] == SubstItems(rest, p, repr);
      var a, b := SubstItems(first, q, repr), SubstItems(items, q + p, repr);
      assert a[1..] == SubstItems(first[1..], q, repr) && b[1..] == SubstItems(rest, q + p, repr);
      assert a == b <==> a[0] == b[0] && a[1..] == b[1..] by {
        assert a == [a[0]] + a[1..] && b == [b[0]] + b[1..];
      }
      assert items == [items[0]] + rest;
    }
  }

  lemma {:induction false} FieldsThenFields(fields: seq<Field>, p: Params, q: Params, repr: Json -> string)
    requires PlainValues(p, repr) && forall i :: 0 <= i < |fields| ==> CleanTree(fields[i].value)
    ensures SubstFields(SubstFields(fields, p, repr), q, repr) == SubstFields(fields, q + p, repr)
            <==> forall i :: 0 <= i < |fields| ==> Masked(fields[i].value, p, q, repr)
    decreases fields, 0
  {
    if fields != [] {
      var rest := fields[1..];
      var first := SubstFields(fields, p, repr);
      SubstTwiceIff(fields[0].value, p, q, repr);
      FieldsThenFields(rest, p, q, repr);
      assert first[1..] == SubstFields(rest, p, repr);
      var a, b := SubstFields(first, q, repr), SubstFields(fields, q + p, repr);
      assert a[1..] == SubstFields(first[1..], q, repr) && b[1..] == SubstFields(rest, q + p, repr);
      assert a == b <==> a[0] == b[0] && a[1..] == b[1..] by {
        assert a == [a[0]] + a[1..] && b == [b[0]] + b[1..];
      }
      assert fields == [fields[0]] + rest;
    }
  }

  // ---- Main results ---------------------------------------------------------------------------------

  // On a clean tree and with bracket-free values, substituting p and then q is
  // substituting once, p winning, exactly when no leaf is unmasked.
  lemma {:induction false} SubstTwiceIff(v: Json, p: Params, q: Params, repr: Json -> string)
    requires CleanTree(v) && PlainValues(p, repr)
    ensures Subst(Subst(v, p, repr), q, repr) == Subst(v, q + p, repr) <==> Masked(v, p, q, repr)
    decreases v, 0
  {
    match v
    case Str(s) => StringThenString(s, p, q, repr);
    case Arr(items) => ItemsThenItems(items, p, q, repr);
    case Obj(fields) => FieldsThenFields(fields, p, q, repr);
    case _ =>
  }

  // A second pass with the same parameters changes nothing.
  lemma SubstIdempotent(v: Json, p: Params, repr: Json -> string)
    requires CleanTree(v) && PlainValues(p, repr)
    ensures Subst(Subst(v, p, repr), p, repr) == Subst(v, p, repr)
  {
    SameMasked(v, p, repr);
    SubstTwiceIff(v, p, p, repr);
    assert p + p == p;
  }

  lemma {:induction false} SameMasked(v: Json, p: Params, repr: Json -> string)
    ensures Masked(v, p, p, repr)
    decreases v, 0
  {
    match v
    case Str(s) => UncoveredEmpty(FindAll(s, AnySpace), p);
    case Arr(items) =>
      forall i | 0 <= i < |items|
        ensures Masked(items[i], p, p, repr)
      {
        SameMasked(items[i], p, repr);
      }
    case Obj(fields) =>
      forall i | 0 <= i < |fields|
        ensures Masked(fields[i].value, p, p, repr)
      {
        SameMasked(fields[i].value, p, repr);
      }
    case _ =>
  }

  // Two passes are one, the first map winning, when its values are not blank.
  lemma SubstComposes(v: Json, p: Params, q: Params, repr: Json -> string)
    requires CleanTree(v) && PlainValues(p, repr) && SolidValues(p, repr)
    ensures Subst(Subst(v, p, repr), q, repr) == Subst(v, q + p, repr)
  {
    SolidMasked(v, p, q, repr);
    SubstTwiceIff(v, p, q, repr);
  }

  lemma {:induction false} SolidMasked(v: Json, p: Params, q: Params, repr: Json -> string)
    requires CleanTree(v) && SolidValues(p, repr)
    ensures Masked(v, p, q, repr)
    decreases v, 0
  {
    match v
    case Str(s) =>
      if Unmasks(s, p, q, repr) {
        SolidRest(s, p, repr);
        WholeIff(s, FindAll(s, AnySpace)[0], repr);
      }
    case Arr(items) =>
      forall i | 0 <= i < |items|
        ensures Masked(items[i], p, q, repr)
      {
        SolidMasked(items[i], p, q, repr);
      }
    case Obj(fields) =>
      forall i | 0 <= i < |fields|
        ensures Masked(fields[i].value, p, q, repr)
      {
        SolidMasked(fields[i].value, p, q, repr);
      }
    case _ =>
  }

  // Where nothing but whitespace is left around the tokens, no value that is not
  // blank was put.
  lemma {:induction false} SolidRest(s: string, p: Params, repr: Json -> string)
    requires SolidValues(p, repr) && Blank(Rest(s, p, repr))
    ensures Uncovered(FindAll(s, AnySpace), p) == FindAll(s, AnySpace)
    ensures Rest(s, map[], repr) == Rest(s, p, repr)
    decreases |s|
  {
    if s != "" {
      var m := Match(s, AnySpace);
      var n := if m.Some? then m.value.len else 1;
      var head := if m.None? then [s[0]] else if m.value.name in p then Render(p[m.value.name], repr) else "";
      assert Rest(s, p, repr) == head + Rest(s[n..], p, repr);
      BlankBoth(head, Rest(s[n..], p, repr));
      SolidRest(s[n..], p, repr);
    }
  }

  lemma BlankBoth(a: string, b: string)
    requires Blank(a + b)
    ensures Blank(a) && Blank(b)
  {
    assert forall i :: 0 <= i < |a| ==> (a + b)[i] == a[i];
    assert forall i :: 0 <= i < |b| ==> (a + b)[|a| + i] == b[i];
  }

  function Token(name: string): string { "<<" + name + ">>" }

  lemma TokenMatches(name: string, rest: string)
    requires name != "" && AllWord(name)
    ensures var s := Token(name) + rest;
            && Match(s, AnySpace) == Some(Found(name, |name| + 4))
            && s[|name| + 4..] == rest && s[..|name| + 4] == Token(name)
  {
    var none: string := "";
    assert AllGap(none, AnySpace) && Token(name) == "<<" + none + name + none + ">>";
    assert Spells(Token(name), name, AnySpace);
    SpelledMatches(Token(name), rest, name, AnySpace);
  }

  lemma SubToken(name: string, rest: string, p: Params, repr: Json -> string)
    requires name != "" && AllWord(name)
    ensures Sub(Token(name) + rest, p, repr)
            == (if name in p then Render(p[name], repr) else Token(name)) + Sub(rest, p, repr)
    ensures Clean(Token(name) + rest) == Clean(rest)
  {
    TokenMatches(name, rest);
  }

  lemma WholeToken(name: string, rest: string)
    requires name != "" && AllWord(name) && (rest != "" ==> rest[|rest| - 1] == '>')
    ensures Whole(Token(name) + rest) == if rest == "" then Some(name) else None
  {
    TokenMatches(name, rest);
    assert Trimmed(Token(name) + rest);
    StripTrimmed(Token(name) + rest);
  }

  lemma TwoTokens(x: string, y: string, p: Params, repr: Json -> string)
    requires x != "" && AllWord(x) && y != "" && AllWord(y)
    ensures Clean(Token(x) + Token(y))
    ensures Subst(Str(Token(x) + Token(y)), p, repr)
            == Str((if x in p then Render(p[x], repr) else Token(x))
                   + (if y in p then Render(p[y], repr) else Token(y)))
  {
    WholeToken(x, Token(y));
    assert Token(y) + "" == Token(y);
    SubToken(x, Token(y), p, repr);
    SubToken(y, "", p, repr);
    var last := if y in p then Render(p[y], repr) else Token(y);
    assert last + "" == last;
  }

  lemma OneToken(y: string, p: Params, repr: Json -> string)
    requires y != "" && AllWord(y)
    ensures Subst(Str(Token(y)), p, repr) == if y in p then p[y] else Str(Token(y))
  {
    assert Token(y) + "" == Token(y);
    WholeToken(y, "");
  }

  // A blank value can turn the rest of a string into a whole token, which is then
  // replaced by a raw value instead of its text.
  lemma BlankValuesDoNotCompose(repr: Json -> string)
    ensures var v := Str(Token("x") + Token("y"));
            var p: Params, q: Params := map["x" := Str("")], map["y" := Null];
            && CleanTree(v) && PlainValues(p, repr)
            && Subst(Subst(v, p, repr), q, repr) == Null && Subst(v, q + p, repr) == Str(repr(Null))
  {
    BlankThenRaw("x", "y", map["x" := Str("")], map["y" := Null], repr);
  }

  lemma BlankThenRaw(x: string, y: string, p: Params, q: Params, repr: Json -> string)
    requires x != y && x != "" && AllWord(x) && y != "" && AllWord(y)
    requires x in p && p[x] == Str("") && y !in p && y in q && !q[y].Str?
    ensures var v := Str(Token(x) + Token(y));
            && CleanTree(v)
            && Subst(Subst(v, p, repr), q, repr) == q[y] && Subst(v, q + p, repr) == Str(repr(q[y]))
  {
    BlankGoes(Token(y), Str(""), repr);
    TwoTokens(x, y, p, repr);
    OneToken(y, q, repr);
    BothGo(x, y, q + p, repr);
  }

  lemma BlankGoes(rest: string, v: Json, repr: Json -> string)
    requires v == Str("")
    ensures Render(v, repr) + rest == rest
  {
  }

  lemma BothGo(x: string, y: string, p: Params, repr: Json -> string)
    requires x != "" && AllWord(x) && y != "" && AllWord(y)
    requires x in p && p[x] == Str("") && y in p && !p[y].Str?
    ensures Subst(Str(Token(x) + Token(y)), p, repr) == Str(repr(p[y]))
  {
    TwoTokens(x, y, p, repr);
    BlankGoes(repr(p[y]), p[x], repr);
  }

  // Brackets around a token do not keep it from being replaced.
  lemma StrayBracketsStay(name: string, p: Params, repr: Json -> string)
    requires name != "" && AllWord(name) && name in p
    ensures var s := "<<" + Token(name) + ">>";
            !Clean(s) && Sub(s, p, repr) == "<<" + Render(p[name], repr) + ">>"
  {
    var inner := Token(name) + ">>";
    CloseStays(p, repr);
    SubToken(name, ">>", p, repr);
    assert inner[0] == '<' && inner[1] == '<';
    OpenStays(inner, p, repr);
    OpenStays("<" + inner, p, repr);
    assert "<" + ("<" + inner) == "<<" + Token(name) + ">>";
  }

  lemma CloseStays(p: Params, repr: Json -> string)
    ensures Sub(">>", p, repr) == ">>"
  {
    assert ">>"[1..] == ">" && ">"[1..] == "";
  }

  // A bracket before two more opens nothing.
  lemma OpenStays(s: string, p: Params, repr: Json -> string)
    requires |s| >= 2 && s[0] == '<' && s[1] == '<'
    ensures Sub("<" + s, p, repr) == "<" + Sub(s, p, repr) && !Clean("<" + s)
  {
    var u := "<" + s;
    assert u[1..] == s && u[2..][0] == '<';
    assert Match(u, AnySpace).None?;
  }

  // Any text at all stays as it is exactly when it holds no token that the
  // parameters cover: bracket-free values never spell the token they replace.
  lemma SubFixedIff(s: string, p: Params, repr: Json -> string)
    requires PlainValues(p, repr)
    ensures Sub(s, p, repr) == s <==> !Touches(FindAll(s, AnySpace), p)
  {
    if !Touches(FindAll(s, AnySpace), p) {
      SubUntouched(s, p, repr);
    } else {
      FewerBrackets(s, p, repr);
    }
  }

  function Brackets(s: string): nat {
    if s == "" then 0 else (if Angle(s[0]) then 1 else 0) + Brackets(s[1..])
  }

  lemma {:induction false} BracketsConcat(a: string, b: string)
    ensures Brackets(a + b) == Brackets(a) + Brackets(b)
  {
    if a == "" {
      assert a + b == b;
    } else {
      assert (a + b)[1..] == a[1..] + b;
      BracketsConcat(a[1..], b);
    }
  }

  lemma {:induction false} NoBrackets(s: string)
    requires AngleFree(s)
    ensures Brackets(s) == 0
  {
    if s != "" {
      NoBrackets(s[1..]);
    }
  }

  lemma {:induction false} FewerBrackets(s: string, p: Params, repr: Json -> string)
    requires PlainValues(p, repr)
    ensures Brackets(Sub(s, p, repr)) <= Brackets(s)
    ensures Touches(FindAll(s, AnySpace), p) ==> Brackets(Sub(s, p, repr)) < Brackets(s)
    decreases |s|
  {
    if s != "" {
      var m := Match(s, AnySpace);
      var n := if m.Some? then m.value.len else 1;
      var t := Sub(s[n..], p, repr);
      FewerBrackets(s[n..], p, repr);
      assert s[..n] + s[n..] == s;
      BracketsConcat(s[..n], s[n..]);
      BracketsConcat(s[..n], t);
      if m.Some? {
        Shifted(m.value.name, FindAll(s[n..], AnySpace), p);
        if m.value.name in p {
          NoBrackets(Render(p[m.value.name], repr));
          BracketsConcat(Render(p[m.value.name], repr), t);
          assert Brackets(s[..n]) > 0 by {
            assert s[..n][0] == '<';
          }
        }
      }
    }
  }

  // So a second pass over any text changes nothing exactly when the first leaves
  // no covered token; in clean text it never does.
  lemma SecondPassIff(s: string, p: Params, repr: Json -> string)
    requires PlainValues(p, repr)
    ensures Sub(Sub(s, p, repr), p, repr) == Sub(s, p, repr) <==> !Touches(FindAll(Sub(s, p, repr), AnySpace), p)
    ensures Clean(s) ==> !Touches(FindAll(Sub(s, p, repr), AnySpace), p)
  {
    SubFixedIff(Sub(s, p, repr), p, repr);
    if Clean(s) {
      SubLeaves(s, p, repr, AnySpace);
      UncoveredEmpty(FindAll(s, AnySpace), p);
    }
  }

  lemma SecondValue(y: string, p: Params, repr: Json -> string)
    requires y != "" && AllWord(y) && y in p
    ensures Sub(Token(y), p, repr) == Render(p[y], repr)
  {
    SubToken(y, "", p, repr);
    assert Token(y) + "" == Token(y);
    assert Render(p[y], repr) + "" == Render(p[y], repr);
  }

  // In text whose brackets do not all belong to tokens, a replacement can
  // complete a new token, and the second pass replaces that one too.
  lemma StrayBracketsBreakIdempotence(repr: Json -> string)
    ensures var s := "<<" + Token("x") + ">>"; var p: Params := map["x" := Str("y"), "y" := Str("z")];
            && !Clean(s) && PlainValues(p, repr)
            && Sub(s, p, repr) == Token("y") && Sub(Sub(s, p, repr), p, repr) == "z"
  {
    var x, y := "x", "y";
    var p: Params := map[x := Str(y), y := Str("z")];
    StrayBracketsStay(x, p, repr);
    SecondValue(y, p, repr);
    PairIsPlain(x, y, p, repr);
  }

  lemma PairIsPlain(x: string, y: string, p: Params, repr: Json -> string)
    requires p.Keys == {x, y} && p[x] == Str("y") && p[y] == Str("z")
    ensures PlainValues(p, repr)
  {
  }
}
