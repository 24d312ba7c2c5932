// The sentinel pattern <<\s*([A-Za-z0-9_]+)\s*>>.

module Tokens {
  // Matching at the front of a text, searching for it and finding all of its matches
  // anywhere, for the pattern as written and for one that allows only U+0020 between
  // a bracket and the name.

  import opened Text

  predicate IsWord(c: char) {
    'A' <= c <= 'Z' || 'a' <= c <= 'z' || '0' <= c <= '9' || c == '_'
  }

  // By code point: ASCII letters and digits, and the underscore.
  lemma WordMeans(c: char)
    ensures IsWord(c)
            <==> 65 <= c as int < 91 || 97 <= c as int < 123 || 48 <= c as int < 58 || c as int == 95
  {
  }

  // What may stand between a bracket and the name: any whitespace, or only the
  // space character.
  datatype Gaps = AnySpace | SpaceOnly

  predicate IsGap(c: char, g: Gaps) {
    c == ' ' || (g == AnySpace && IsSpace(c))
  }

  datatype Found = Found(name: string, len: nat)

  // The length of \s*>> at the front of s.
  function Trail(s: string, g: Gaps): (r: Option<nat>)
    ensures r.Some? ==> 2 <= r.value <= |s|
  {
    if s != "" && IsGap(s[0], g) then
      var r := Trail(s[1..], g);
      if r.Some? then Some(r.value + 1) else None
    else if |s| >= 2 && s[0] == '>' && s[1] == '>' then Some(2)
    else None
  }

  // The rest of a token whose name has begun.
  function AfterWord(s: string, g: Gaps): (r: Option<Found>)
    ensures r.Some? ==> 2 <= r.value.len <= |s|
  {
    if s != "" && IsWord(s[0]) then
      var r := AfterWord(s[1..], g);
      if r.Some? then Some(Found([s[0]] + r.value.name, r.value.len + 1)) else None
    else
      var t := Trail(s, g);
      if t.Some? then Some(Found("", t.value)) else None
  }

  // The rest of a token whose brackets have opened.
  function AfterOpen(s: string, g: Gaps): (r: Option<Found>)
    ensures r.Some? ==> 2 <= r.value.len <= |s|
  {
    if s != "" && IsGap(s[0], g) then
      var r := AfterOpen(s[1..], g);
      if r.Some? then Some(Found(r.value.name, r.value.len + 1)) else None
    else if s != "" && IsWord(s[0]) then AfterWord(s, g)
    else None
  }

  // A match at the front of s.
  function Match(s: string, g: Gaps): (r: Option<Found>)
    ensures r.Some? ==> 4 <= r.value.len <= |s|
  {
    if |s| >= 2 && s[0] == '<' && s[1] == '<' then
      var r := AfterOpen(s[2..], g);
      if r.Some? then Some(Found(r.value.name, r.value.len + 2)) else None
    else None
  }

  // re.search finds something.
  predicate Search(s: string, g: Gaps) {
    s != "" && (Match(s, g).Some? || Search(s[1..], g))
  }

  // re.findall: the names of the leftmost, non-overlapping matches.
  function FindAll(s: string, g: Gaps): seq<string>
    decreases |s|
  {
    if s == "" then []
    else
      var m := Match(s, g);
      if m.Some? then [m.value.name] + FindAll(s[m.value.len..], g) else FindAll(s[1..], g)
  }

  lemma {:induction false} FindAllFinds(s: string, g: Gaps)
    ensures FindAll(s, g) != [] <==> Search(s, g)
    decreases |s|
  {
    if s != "" && Match(s, g).None? {
      FindAllFinds(s[1..], g);
    }
  }

  lemma {:induction false} SearchSomewhere(s: string, g: Gaps)
    ensures Search(s, g) <==> exists i :: 0 <= i < |s| && Match(s[i..], g).Some?
  {
    if s != "" {
      SearchSomewhere(s[1..], g);
      assert s[0..] == s;
      forall i | 0 <= i < |s| - 1
        ensures s[1..][i..] == s[i + 1..]
      {
      }
      if Search(s[1..], g) {
        var i :| 0 <= i < |s| - 1 && Match(s[1..][i..], g).Some?;
        assert Match(s[i + 1..], g).Some?;
      }
      if i :| 0 < i < |s| && Match(s[i..], g).Some? {
        assert s[1..][i - 1..] == s[i..];
      }
    }
  }

  // ---- What a match means ---------------------------------------------------------

  ghost predicate AllGap(s: string, g: Gaps) { forall i :: 0 <= i < |s| ==> IsGap(s[i], g) }

  ghost predicate AllWord(s: string) { forall i :: 0 <= i < |s| ==> IsWord(s[i]) }

  ghost predicate Spells(t: string, name: string, g: Gaps) {
    exists a: string, b: string :: AllGap(a, g) && AllGap(b, g) && name != "" && AllWord(name)
                                   && t == "<<" + a + name + b + ">>"
  }

  lemma {:induction false} TrailOf(b: string, rest: string, g: Gaps)
    requires AllGap(b, g)
    ensures Trail(b + ">>" + rest, g) == Some(|b| + 2)
  {
    var s := b + ">>" + rest;
    if b != "" {
      TrailOf(b[1..], rest, g);
      assert s[1..] == b[1..] + ">>" + rest;
    }
  }

  lemma {:induction false} AfterWordOf(w: string, b: string, rest: string, g: Gaps)
    requires AllWord(w) && AllGap(b, g)
    ensures AfterWord(w + b + ">>" + rest, g) == Some(Found(w, |w| + |b| + 2))
  {
    var s := w + b + ">>" + rest;
    if w == "" {
      assert s == b + ">>" + rest;
      TrailOf(b, rest, g);
    } else {
      AfterWordOf(w[1..], b, rest, g);
      assert s[1..] == w[1..] + b + ">>" + rest;
      assert w == [w[0]] + w[1..];
    }
  }

  lemma {:induction false} AfterOpenOf(a: string, w: string, b: string, rest: string, g: Gaps)
    requires AllGap(a, g) && AllWord(w) && w != "" && AllGap(b, g)
    ensures AfterOpen(a + w + b + ">>" + rest, g) == Some(Found(w, |a| + |w| + |b| + 2))
  {
    var s := a + w + b + ">>" + rest;
    if a == "" {
      assert s == w + b + ">>" + rest;
      AfterWordOf(w, b, rest, g);
    } else {
      AfterOpenOf(a[1..], w, b, rest, g);
      assert s[1..] == a[1..] + w + b + ">>" + rest;
    }
  }

  lemma {:induction false} TrailSplits(s: string, g: Gaps) returns (b: string)
    requires Trail(s, g).Some?
    ensures AllGap(b, g) && s[..Trail(s, g).value] == b + ">>"
  {
    var n := Trail(s, g).value;
    if IsGap(s[0], g) {
      var c := TrailSplits(s[1..], g);
      b := [s[0]] + c;
      assert s[..n] == [s[0]] + s[1..][..n - 1];
    } else {
      b := "";
      assert s[..2] == ">>";
    }
  }

  lemma {:induction false} AfterWordSplits(s: string, g: Gaps) returns (b: string)
    requires AfterWord(s, g).Some?
    ensures var f := AfterWord(s, g).value;
            AllWord(f.name) && AllGap(b, g) && s[..f.len] == f.name + b + ">>"
  {
    var f := AfterWord(s, g).value;
    if IsWord(s[0]) {
      b := AfterWordSplits(s[1..], g);
      var h := AfterWord(s[1..], g).value;
      assert s[..f.len] == [s[0]] + s[1..][..h.len];
      assert [s[0]] + (h.name + b + ">>") == f.name + b + ">>";
    } else {
      b := TrailSplits(s, g);
      assert f.name + b == b;
    }
  }

  lemma {:induction false} AfterOpenSplits(s: string, g: Gaps) returns (a: string, b: string)
    requires AfterOpen(s, g).Some?
    ensures var f := AfterOpen(s, g).value;
            && AllGap(a, g) && AllWord(f.name) && f.name != "" && AllGap(b, g)
            && s[..f.len] == a + f.name + b + ">>"
  {
    var f := AfterOpen(s, g).value;
    if IsGap(s[0], g) {
      var c;
      c, b := AfterOpenSplits(s[1..], g);
      a := [s[0]] + c;
      var h := AfterOpen(s[1..], g).value;
      assert s[..f.len] == [s[0]] + s[1..][..h.len];
      assert [s[0]] + (c + f.name + b + ">>") == a + f.name + b + ">>";
    } else {
      a := "";
      b := AfterWordSplits(s, g);
      assert a + f.name == f.name;
    }
  }

  // The matcher finds exactly the texts the pattern describes, whatever follows.
  lemma MatchMeans(s: string, name: string, len: nat, g: Gaps)
    ensures Match(s, g) == Some(Found(name, len)) <==> len <= |s| && Spells(s[..len], name, g)
  {
    if Match(s, g) == Some(Found(name, len)) {
      var a, b := AfterOpenSplits(s[2..], g);
      assert s[..len] == "<<" + s[2..][..len - 2];
      assert "<<" + (a + name + b + ">>") == "<<" + a + name + b + ">>";
    }
    if len <= |s| && Spells(s[..len], name, g) {
      SpelledMatches(s[..len], s[len..], name, g);
      assert s[..len] + s[len..] == s;
    }
  }

  lemma SpelledParts(t: string, name: string, g: Gaps) returns (a: string, b: string)
    requires Spells(t, name, g)
    ensures AllGap(a, g) && AllGap(b, g) && name != "" && AllWord(name) && t == "<<" + (a + name + b + ">>")
  {
    a, b :| AllGap(a, g) && AllGap(b, g) && name != "" && AllWord(name) && t == "<<" + a + name + b + ">>";
  }

  lemma SpelledMatches(t: string, rest: string, name: string, g: Gaps)
    requires Spells(t, name, g)
    ensures Match(t + rest, g) == Some(Found(name, |t|))
  {
    var a, b := SpelledParts(t, name, g);
    AfterOpenOf(a, name, b, rest, g);
    PastTheBrackets(a + name + b + ">>", rest);
  }

  lemma PastTheBrackets(inner: string, rest: string)
    ensures var u := ("<<" + inner) + rest;
            |u| >= 2 && u[0] == '<' && u[1] == '<' && u[2..] == inner + rest
  {
  }

  lemma MatchAgain(s: string, rest: string, g: Gaps)
    requires Match(s, g).Some?
    ensures Match(s[..Match(s, g).value.len] + rest, g) == Match(s, g)
  {
    var f := Match(s, g).value;
    MatchMeans(s, f.name, f.len, g);
    SpelledMatches(s[..f.len], rest, f.name, g);
  }

  lemma Widen(s: string, g: Gaps)
    requires Match(s, g).Some?
    ensures Match(s, AnySpace) == Match(s, g)
  {
    var f := Match(s, g).value;
    MatchMeans(s, f.name, f.len, g);
    var a: string, b: string :| AllGap(a, g) && AllGap(b, g) && f.name != "" && AllWord(f.name)
                                && s[..f.len] == "<<" + a + f.name + b + ">>";
    assert AllGap(a, AnySpace) && AllGap(b, AnySpace);
    assert Spells(s[..f.len], f.name, AnySpace);
    MatchMeans(s, f.name, f.len, AnySpace);
  }

  // Some piece of the text is a token of this name.
  ghost predicate Holds(s: string, name: string, g: Gaps) {
    exists i: nat, j: nat :: i <= j <= |s| && Spells(s[i..j], name, g)
  }

  lemma SpelledShape(t: string, name: string, g: Gaps)
    requires Spells(t, name, g)
    ensures |t| >= 5 && t[0] == '<' && t[1] == '<' && forall i :: 2 <= i < |t| ==> t[i] != '<'
  {
    var a: string, b: string :| AllGap(a, g) && AllGap(b, g) && name != "" && AllWord(name)
                                && t == "<<" + a + name + b + ">>";
    var inner := a + name + b + ">>";
    assert t == "<<" + inner && forall i :: 0 <= i < |inner| ==> inner[i] != '<';
  }

  // No token begins inside another.
  lemma NoneInside(s: string, len: nat, name: string, i: nat, j: nat, other: string, g: Gaps)
    requires len <= |s| && Spells(s[..len], name, g) && 0 < i <= j <= |s| && Spells(s[i..j], other, g)
    ensures i >= len
  {
    SpelledShape(s[..len], name, g);
    SpelledShape(s[i..j], other, g);
    assert s[i..j][0] == s[i] && s[i..j][1] == s[i + 1];
  }

  lemma HoldsLater(s: string, k: nat, name: string, g: Gaps)
    requires k <= |s|
    ensures Holds(s[k..], name, g) <==> exists i: nat, j: nat :: k <= i <= j <= |s| && Spells(s[i..j], name, g)
  {
    if Holds(s[k..], name, g) {
      var i: nat, j: nat :| i <= j <= |s| - k && Spells(s[k..][i..j], name, g);
      assert s[k..][i..j] == s[k + i..k + j];
    }
    if i: nat, j: nat :| k <= i <= j <= |s| && Spells(s[i..j], name, g) {
      assert s[k..][i - k..j - k] == s[i..j];
    }
  }

  // findall gives the names of all the tokens in the text, wherever they stand.
  lemma {:induction false} FindAllMeans(s: string, name: string, g: Gaps)
    ensures name in FindAll(s, g) <==> Holds(s, name, g)
    decreases |s|
  {
    if s != "" {
      var m := Match(s, g);
      var n := if m.Some? then m.value.len else 1;
      FindAllMeans(s[n..], name, g);
      HoldsLater(s, n, name, g);
      FrontOrLater(s, name, g);
    }
  }

  lemma FrontOrLater(s: string, name: string, g: Gaps)
    requires s != ""
    ensures var m := Match(s, g);
            var n := if m.Some? then m.value.len else 1;
            Holds(s, name, g) <==> (m.Some? && m.value.name == name)
                                   || exists i: nat, j: nat :: n <= i <= j <= |s| && Spells(s[i..j], name, g)
  {
    var m := Match(s, g);
    if m.Some? {
      MatchMeans(s, m.value.name, m.value.len, g);
      assert s[0..m.value.len] == s[..m.value.len];
    }
    if Holds(s, name, g) {
      var i: nat, j: nat :| i <= j <= |s| && Spells(s[i..j], name, g);
      if i == 0 {
        assert s[0..j] == s[..j];
        MatchMeans(s, name, j, g);
      } else if m.Some? {
        NoneInside(s, m.value.len, m.value.name, i, j, name, g);
      }
    }
  }

  // ---- Texts side by side ------------------------------------------------------------

  // A character no token holds.
  predicate Barrier(c: char, g: Gaps) { c != '<' && c != '>' && !IsWord(c) && !IsGap(c, g) }

  ghost predicate Apart(t: string, g: Gaps) { t == "" || Barrier(t[0], g) }

  lemma {:induction false} TrailStops(s: string, t: string, g: Gaps)
    requires Apart(t, g)
    ensures Trail(s + t, g) == Trail(s, g)
  {
    if s == "" {
      assert s + t == t;
    } else {
      assert (s + t)[1..] == s[1..] + t;
      TrailStops(s[1..], t, g);
    }
  }

  lemma {:induction false} AfterWordStops(s: string, t: string, g: Gaps)
    requires Apart(t, g)
    ensures AfterWord(s + t, g) == AfterWord(s, g)
  {
    if s != "" && IsWord(s[0]) {
      assert (s + t)[1..] == s[1..] + t;
      AfterWordStops(s[1..], t, g);
    } else {
      TrailStops(s, t, g);
      assert s == "" ==> s + t == t;
    }
  }

  lemma {:induction false} AfterOpenStops(s: string, t: string, g: Gaps)
    requires Apart(t, g)
    ensures AfterOpen(s + t, g) == AfterOpen(s, g)
  {
    if s == "" {
      assert s + t == t;
    } else if IsGap(s[0], g) {
      assert (s + t)[1..] == s[1..] + t;
      AfterOpenStops(s[1..], t, g);
    } else {
      AfterWordStops(s, t, g);
    }
  }

  lemma MatchStops(s: string, t: string, g: Gaps)
    requires Apart(t, g)
    ensures Match(s + t, g) == Match(s, g)
  {
    if |s| >= 2 {
      assert (s + t)[2..] == s[2..] + t;
      AfterOpenStops(s[2..], t, g);
    } else if |s| == 1 && t != "" {
      assert (s + t)[1] == t[0];
    }
  }

  // No token reaches across such a boundary.
  lemma {:induction false} FindAllApart(s: string, t: string, g: Gaps)
    requires Apart(t, g)
    ensures FindAll(s + t, g) == FindAll(s, g) + FindAll(t, g)
    decreases |s|
  {
    if s == "" {
      assert s + t == t;
    } else {
      MatchStops(s, t, g);
      var m := Match(s, g);
      var n := if m.Some? then m.value.len else 1;
      assert (s + t)[n..] == s[n..] + t;
      FindAllApart(s[n..], t, g);
    }
  }

  // Nothing begins without an opening bracket.
  lemma {:induction false} FindAllSkips(a: string, t: string, g: Gaps)
    requires '<' !in a
    ensures FindAll(a + t, g) == FindAll(t, g)
  {
    if a == "" {
      assert a + t == t;
    } else {
      assert (a + t)[1..] == a[1..] + t;
      FindAllSkips(a[1..], t, g);
    }
  }
}
