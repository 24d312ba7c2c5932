// When a second substitution of the same text changes it. A first pass cuts the
// text into characters, values put for tokens, and tokens kept; a new token is a
// stretch of characters and values that spells one.

module SplicedTokens {
  import opened Text
  import opened Json
  import opened Tokens
  import opened Substitution

  datatype Piece = Char(c: char) | Value(text: string) | Kept(token: string)

  function Pieces(s: string, p: Params, repr: Json -> string): seq<Piece>
    decreases |s|
  {
    if s == "" then []
    else
      var m := Match(s, AnySpace);
      if m.Some? then
        var n := m.value.len;
        [if m.value.name in p then Value(Render(p[m.value.name], repr)) else Kept(s[..n])] + Pieces(s[n..], p, repr)
      else [Char(s[0])] + Pieces(s[1..], p, repr)
  }

  function Spelled(q: Piece): string {
    match q
    case Char(c) => [c]
    case Value(text) => text
    case Kept(token) => token
  }

  function Together(ps: seq<Piece>): string {
    if ps == [] then "" else Spelled(ps[0]) + Together(ps[1..])
  }

  ghost predicate NoneKept(ps: seq<Piece>) { forall i :: 0 <= i < |ps| ==> !ps[i].Kept? }

  // Neighbouring characters and values spell a token that has a parameter.
  ghost predicate SplicesAt(ps: seq<Piece>, p: Params, a: nat, b: nat, name: string) {
    a <= b <= |ps| && name in p && NoneKept(ps[a..b]) && Spells(Together(ps[a..b]), name, AnySpace)
  }

  ghost predicate Splices(s: string, p: Params, repr: Json -> string) {
    exists a, b, name :: SplicesAt(Pieces(s, p, repr), p, a, b, name)
  }

  // ---- What the pieces are -------------------------------------------------------------

  lemma {:induction false} PiecesSpellSub(s: string, p: Params, repr: Json -> string)
    ensures Together(Pieces(s, p, repr)) == Sub(s, p, repr)
    decreases |s|
  {
    if s != "" {
      var m := Match(s, AnySpace);
      var n := if m.Some? then m.value.len else 1;
      PiecesSpellSub(s[n..], p, repr);
      assert Pieces(s, p, repr)[1..] == Pieces(s[n..], p, repr);
    }
  }

  ghost predicate GoodPiece(q: Piece, p: Params) {
    match q
    case Char(_) => true
    case Value(text) => AngleFree(text)
    case Kept(token) =>
      var m := Match(token, AnySpace);
      m.Some? && m.value.len == |token| && m.value.name !in p
  }

  ghost predicate GoodPieces(ps: seq<Piece>, p: Params) { forall i :: 0 <= i < |ps| ==> GoodPiece(ps[i], p) }

  lemma {:induction false} PiecesAreGood(s: string, p: Params, repr: Json -> string)
    requires PlainValues(p, repr)
    ensures GoodPieces(Pieces(s, p, repr), p)
    decreases |s|
  {
    if s != "" {
      var m := Match(s, AnySpace);
      var n := if m.Some? then m.value.len else 1;
      PiecesAreGood(s[n..], p, repr);
      if m.Some? {
        TokenFront(s, "");
        assert s[..n] + "" == s[..n];
      }
      var ps := Pieces(s, p, repr);
      assert ps[1..] == Pieces(s[n..], p, repr);
      GoodCons(ps, p);
    }
  }

  lemma GoodCons(ps: seq<Piece>, p: Params)
    requires ps != [] && GoodPiece(ps[0], p) && GoodPieces(ps[1..], p)
    ensures GoodPieces(ps, p)
  {
    forall i | 0 <= i < |ps|
      ensures GoodPiece(ps[i], p)
    {
      if i > 0 {
        assert ps[1..][i - 1] == ps[i];
      }
    }
  }

  lemma {:induction false} TogetherConcat(a: seq<Piece>, b: seq<Piece>)
    ensures Together(a + b) == Together(a) + Together(b)
  {
    if a == [] {
      assert a + b == b;
    } else {
      assert (a + b)[1..] == a[1..] + b;
      TogetherConcat(a[1..], b);
    }
  }

  // ---- Every occurrence is found ----------------------------------------------------------

  lemma OpensOnce(t: string, k: nat)
    requires Match(t, AnySpace).Some? && 0 < k < Match(t, AnySpace).value.len
    ensures k + 1 < |t| && t[k] == '<' ==> t[k + 1] != '<'
    ensures t[k] == '<' ==> k + 1 < Match(t, AnySpace).value.len
  {
    var n := Match(t, AnySpace).value.len;
    TokenBody(t);
    assert Blocked(t[1..n], k - 1);
  }

  lemma NoTokenInside(s: string, i: nat)
    requires Match(s, AnySpace).Some? && 0 < i < Match(s, AnySpace).value.len
    ensures Match(s[i..], AnySpace).None?
  {
    OpensOnce(s, i);
    assert s[i..][0] == s[i];
    assert i + 1 < |s| ==> s[i..][1] == s[i + 1];
  }

  // Tokens do not overlap, so the scan misses none.
  lemma {:induction false} OccurrenceIsFound(s: string, i: nat)
    requires i <= |s| && Match(s[i..], AnySpace).Some?
    ensures Match(s[i..], AnySpace).value.name in FindAll(s, AnySpace)
    decreases |s|
  {
    var m := Match(s, AnySpace);
    if i == 0 {
      assert s[0..] == s;
      assert FindAll(s, AnySpace)[0] == m.value.name;
    } else {
      var n := if m.Some? then m.value.len else 1;
      if i < n {
        NoTokenInside(s, i);
        assert false;
      }
      assert s[n..][i - n..] == s[i..];
      OccurrenceIsFound(s[n..], i - n);
      FoundLater(s, n, Match(s[i..], AnySpace).value.name);
    }
  }

  lemma FoundLater(s: string, n: nat, name: string)
    requires s != "" && n == (if Match(s, AnySpace).Some? then Match(s, AnySpace).value.len else 1)
    requires name in FindAll(s[n..], AnySpace)
    ensures name in FindAll(s, AnySpace)
  {
  }

  lemma {:induction false} FoundOccurs(s: string, name: string) returns (i: nat)
    requires name in FindAll(s, AnySpace)
    ensures i <= |s| && Match(s[i..], AnySpace).Some? && Match(s[i..], AnySpace).value.name == name
    decreases |s|
  {
    var m := Match(s, AnySpace);
    if m.Some? && m.value.name == name {
      i := 0;
      assert s[0..] == s;
    } else {
      var n := if m.Some? then m.value.len else 1;
      var j := FoundOccurs(s[n..], name);
      i := n + j;
      assert s[n..][j..] == s[i..];
    }
  }

  // ---- An occurrence is a stretch of pieces --------------------------------------------------

  ghost predicate Closes(w: string) { NoFront(w) && (w != "" ==> w[|w| - 1] == '>') }

  lemma ClosesSuffix(w: string, k: nat)
    requires Closes(w) && k <= |w|
    ensures Closes(w[k..])
  {
    forall i: nat | i < |w[k..]|
      ensures Blocked(w[k..], i)
    {
      assert Blocked(w, k + i);
    }
  }

  // What begins no token and ends in a bracket ends where a piece does.
  lemma {:induction false} EndsWithAPiece(ps: seq<Piece>, p: Params, w: string, v: string) returns (b: nat)
    requires GoodPieces(ps, p) && Together(ps) == w + v && Closes(w)
    ensures b <= |ps| && Together(ps[..b]) == w && NoneKept(ps[..b])
  {
    if w == "" {
      b := 0;
    } else {
      var rest := PastTheFirst(ps, p, w, v);
      b := EndsWithAPiece(ps[1..], p, rest, v);
      OneMorePiece(ps, b);
      b := b + 1;
    }
  }

  lemma PastTheFirst(ps: seq<Piece>, p: Params, w: string, v: string) returns (rest: string)
    requires GoodPieces(ps, p) && Together(ps) == w + v && Closes(w) && w != ""
    ensures ps != [] && !ps[0].Kept? && GoodPieces(ps[1..], p)
    ensures w == Spelled(ps[0]) + rest && Together(ps[1..]) == rest + v && Closes(rest)
  {
    FirstFits(ps, p, w, v);
    var t := Spelled(ps[0]);
    rest := w[|t|..];
    ClosesSuffix(w, |t|);
    assert Together(ps)[|t|..] == Together(ps[1..]) && (w + v)[|t|..] == rest + v;
  }

  lemma OneMorePiece(ps: seq<Piece>, b: nat)
    requires ps != [] && b <= |ps[1..]| && NoneKept(ps[1..][..b])
    ensures Together(ps[..b + 1]) == Spelled(ps[0]) + Together(ps[1..][..b])
    ensures !ps[0].Kept? ==> NoneKept(ps[..b + 1])
  {
    assert ps[..b + 1][1..] == ps[1..][..b];
    assert ps[..b + 1] == [ps[0]] + ps[1..][..b];
  }

  lemma KeptOpens(q: Piece, p: Params)
    requires q.Kept? && GoodPiece(q, p)
    ensures |q.token| >= 4 && q.token[0] == '<' && q.token[1] == '<'
  {
  }

  lemma FirstFits(ps: seq<Piece>, p: Params, w: string, v: string)
    requires GoodPieces(ps, p) && Together(ps) == w + v && Closes(w) && w != ""
    ensures ps != [] && !ps[0].Kept? && |Spelled(ps[0])| <= |w| && Spelled(ps[0]) == w[..|Spelled(ps[0])|]
  {
    var t := Spelled(ps[0]);
    assert GoodPiece(ps[0], p);
    if ps[0].Kept? {
      KeptOpens(ps[0], p);
    }
    assert Blocked(w, 0);
    assert Angle(w[|w| - 1]);
    AgreeInFront(t, Together(ps[1..]), w, v);
  }

  lemma AgreeInFront(t: string, r: string, w: string, v: string)
    requires t + r == w + v
    ensures forall i :: 0 <= i < |t| && i < |w| ==> t[i] == w[i]
    ensures |t| <= |w| ==> t == w[..|t|]
  {
    assert forall i :: 0 <= i < |t| ==> (t + r)[i] == t[i];
    assert forall i :: 0 <= i < |w| ==> (w + v)[i] == w[i];
  }

  // A covered token in the text the pieces spell is a stretch of pieces.
  lemma {:induction false} OccurrenceIsAStretch(ps: seq<Piece>, p: Params, u: string, tok: string, v: string,
                                                name: string)
    returns (a: nat, b: nat)
    requires GoodPieces(ps, p) && name in p
    requires Together(ps) == u + (tok + v) && Match(tok, AnySpace) == Some(Found(name, |tok|))
    ensures a <= b <= |ps| && Together(ps[a..b]) == tok && NoneKept(ps[a..b])
  {
    var t := Spelled(ps[0]);
    var rest := Together(ps[1..]);
    assert GoodPieces(ps[1..], p);
    if |u| >= |t| {
      assert rest == u[|t|..] + (tok + v) by {
        assert (t + rest)[|t|..] == rest && (u + (tok + v))[|t|..] == u[|t|..] + (tok + v);
      }
      a, b := OccurrenceIsAStretch(ps[1..], p, u[|t|..], tok, v, name);
      a, b := a + 1, b + 1;
      assert ps[a..b] == ps[1..][a - 1..b - 1];
    } else {
      StartsAtAChar(ps, p, u, tok, v, name);
      assert u + (tok + v) == tok + v;
      a := 0;
      b := StretchFromHere(ps, p, tok, v, name);
      assert ps[0..b] == ps[..b];
    }
  }

  lemma StretchFromHere(ps: seq<Piece>, p: Params, tok: string, v: string, name: string) returns (b: nat)
    requires ps != [] && GoodPieces(ps[1..], p) && Together(ps) == tok + v
    requires Match(tok, AnySpace) == Some(Found(name, |tok|)) && ps[0] == Char(tok[0])
    ensures b <= |ps| && Together(ps[..b]) == tok && NoneKept(ps[..b])
  {
    TokenEnds(tok);
    TokenBody(tok);
    assert tok[1..|tok|] == tok[1..];
    assert Together(ps[1..]) == tok[1..] + v by {
      assert Together(ps)[1..] == Together(ps[1..]) && (tok + v)[1..] == tok[1..] + v;
    }
    b := EndsWithAPiece(ps[1..], p, tok[1..], v);
    OneMorePiece(ps, b);
    b := b + 1;
    assert [tok[0]] + tok[1..] == tok;
  }

  lemma StartsAtAChar(ps: seq<Piece>, p: Params, u: string, tok: string, v: string, name: string)
    requires ps != [] && GoodPieces(ps, p) && name in p && |u| < |Spelled(ps[0])|
    requires Together(ps) == u + (tok + v) && Match(tok, AnySpace) == Some(Found(name, |tok|))
    ensures u == "" && ps[0] == Char(tok[0])
  {
    var t, all := Spelled(ps[0]), u + (tok + v);
    assert GoodPiece(ps[0], p);
    assert forall i :: 0 <= i < |t| ==> t[i] == all[i];
    assert tok[0] == '<' && all[|u|] == tok[0] && all[|u| + 1] == tok[1] == '<';
    if ps[0].Kept? {
      if u == "" {
        KeptIsItself(t, Together(ps[1..]), tok, v);
      } else {
        OpensOnce(t, |u|);
      }
      assert false;
    }
  }

  lemma KeptIsItself(t: string, rest: string, tok: string, v: string)
    requires Match(t, AnySpace).Some? && Match(t, AnySpace).value.len == |t|
    requires Match(tok, AnySpace).Some? && Match(tok, AnySpace).value.len == |tok|
    requires t + rest == tok + v
    ensures Match(t, AnySpace).value.name == Match(tok, AnySpace).value.name
  {
    TokenFront(t, rest);
    TokenFront(tok, v);
    assert t[..|t|] == t && tok[..|tok|] == tok;
  }

  // ---- Main results -----------------------------------------------------------------------------

  // After a first pass over any text, a covered token stands there exactly if
  // neighbouring characters and values of the text spell one.
  lemma CoveredTokenIffSpliced(s: string, p: Params, repr: Json -> string)
    requires PlainValues(p, repr)
    ensures Touches(FindAll(Sub(s, p, repr), AnySpace), p) <==> Splices(s, p, repr)
  {
    var ps, r := Pieces(s, p, repr), Sub(s, p, repr);
    PiecesSpellSub(s, p, repr);
    PiecesAreGood(s, p, repr);
    if Touches(FindAll(r, AnySpace), p) {
      var i :| 0 <= i < |FindAll(r, AnySpace)| && FindAll(r, AnySpace)[i] in p;
      TokenIsSpliced(ps, p, FindAll(r, AnySpace)[i]);
    }
    if a, b, name :| SplicesAt(ps, p, a, b, name) {
      SpliceIsFound(ps, p, a, b, name);
    }
  }

  lemma TokenIsSpliced(ps: seq<Piece>, p: Params, name: string)
    requires GoodPieces(ps, p) && name in p && name in FindAll(Together(ps), AnySpace)
    ensures exists a, b :: SplicesAt(ps, p, a, b, name)
  {
    var u, tok, v := FoundText(Together(ps), name);
    var a, b := OccurrenceIsAStretch(ps, p, u, tok, v, name);
    MatchMeans(tok, name, |tok|, AnySpace);
    assert tok[..|tok|] == tok;
    assert SplicesAt(ps, p, a, b, name);
  }

  lemma FoundText(r: string, name: string) returns (u: string, tok: string, v: string)
    requires name in FindAll(r, AnySpace)
    ensures r == u + (tok + v) && Match(tok, AnySpace) == Some(Found(name, |tok|))
  {
    var k := FoundOccurs(r, name);
    var n := Match(r[k..], AnySpace).value.len;
    u, tok, v := r[..k], r[k..][..n], r[k..][n..];
    TokenFront(r[k..], "");
    assert tok + "" == tok && tok + v == r[k..] && u + r[k..] == r;
  }

  lemma SpliceIsFound(ps: seq<Piece>, p: Params, a: nat, b: nat, name: string)
    requires SplicesAt(ps, p, a, b, name)
    ensures Touches(FindAll(Together(ps), AnySpace), p)
  {
    var u, tok, v := Together(ps[..a]), Together(ps[a..b]), Together(ps[b..]);
    assert ps == ps[..a] + (ps[a..b] + ps[b..]);
    TogetherConcat(ps[..a], ps[a..b] + ps[b..]);
    TogetherConcat(ps[a..b], ps[b..]);
    var r := Together(ps);
    assert r[|u|..] == tok + v;
    SpelledMatches(tok, v, name, AnySpace);
    OccurrenceIsFound(r, |u|);
    var i :| 0 <= i < |FindAll(r, AnySpace)| && FindAll(r, AnySpace)[i] == name;
  }

  // A second pass over any text, brackets and all, changes nothing exactly when
  // nothing is spliced; in clean text nothing is.
  lemma SecondPassIffNotSpliced(s: string, p: Params, repr: Json -> string)
    requires PlainValues(p, repr)
    ensures Sub(Sub(s, p, repr), p, repr) == Sub(s, p, repr) <==> !Splices(s, p, repr)
    ensures Clean(s) ==> !Splices(s, p, repr)
  {
    SecondPassIff(s, p, repr);
    CoveredTokenIffSpliced(s, p, repr);
  }
}
