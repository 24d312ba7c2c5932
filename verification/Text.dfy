// Python string operations the rest of the model needs: strip, lower, split and
// join on one character, substring search and decimal numbers. A string is a
// sequence of Unicode scalar values, so a lone surrogate is not a string here;
// the white space that strip removes is listed character by character.

module Text {

  datatype Option<+T> = None | Some(value: T)

  // str.isspace, which is also what \s matches in a str pattern.
  predicate IsSpace(c: char) {
    || c in {' ', '\t', '\n', '\r', '\U{B}', '\U{C}', '\U{1C}', '\U{1D}', '\U{1E}', '\U{1F}'}
    || c in {'\U{85}', '\U{A0}', '\U{1680}', '\U{2028}', '\U{2029}', '\U{202F}', '\U{205F}', '\U{3000}'}
    || '\U{2000}' <= c <= '\U{200A}'
  }

  // By code point.
  lemma SpaceMeans(c: char)
    ensures IsSpace(c)
            <==> c as int in {9, 10, 11, 12, 13, 28, 29, 30, 31, 32, 133, 160, 5760, 8192, 8193, 8194, 8195, 8196,
                              8197, 8198, 8199, 8200, 8201, 8202, 8232, 8233, 8239, 8287, 12288}
  {
  }

  ghost predicate Blank(s: string) {
    forall i :: 0 <= i < |s| ==> IsSpace(s[i])
  }

  function LStrip(s: string): string {
    if s != "" && IsSpace(s[0]) then LStrip(s[1..]) else s
  }

  function RStrip(s: string): string {
    if s != "" && IsSpace(s[|s| - 1]) then RStrip(s[..|s| - 1]) else s
  }

  function Strip(s: string): string { RStrip(LStrip(s)) }

  ghost predicate Trimmed(s: string) {
    s != "" ==> !IsSpace(s[0]) && !IsSpace(s[|s| - 1])
  }

  lemma {:induction false} LStripShape(s: string)
    ensures var r := LStrip(s);
            && |r| <= |s| && s[|s| - |r|..] == r && Blank(s[..|s| - |r|])
            && (r != "" ==> !IsSpace(r[0]))
  {
    if s != "" && IsSpace(s[0]) {
      LStripShape(s[1..]);
      var r := LStrip(s[1..]);
      assert s[..|s| - |r|] == [s[0]] + s[1..][..|s| - 1 - |r|];
    } else {
      assert s[..0] == "";
    }
  }

  lemma {:induction false} RStripShape(s: string)
    ensures var r := RStrip(s);
            && |r| <= |s| && s[..|r|] == r && Blank(s[|r|..])
            && (r != "" ==> !IsSpace(r[|r| - 1]))
  {
    if s != "" && IsSpace(s[|s| - 1]) {
      RStripShape(s[..|s| - 1]);
      var r := RStrip(s[..|s| - 1]);
      assert s[|r|..] == s[..|s| - 1][|r|..] + [s[|s| - 1]];
    } else {
      assert s[|s|..] == "";
    }
  }

  lemma StripTrimmed(s: string)
    requires Trimmed(s)
    ensures Strip(s) == s
  {
  }

  lemma StripPadded(a: string, t: string, b: string)
    requires Blank(a) && Blank(b) && t != "" && !IsSpace(t[0]) && !IsSpace(t[|t| - 1])
    ensures Strip(a + (t + b)) == t
  {
    LStripPadded(a, t + b);
    RStripPadded(t, b);
  }

  lemma {:induction false} LStripPadded(a: string, t: string)
    requires Blank(a) && t != "" && !IsSpace(t[0])
    ensures LStrip(a + t) == t
  {
    if a == "" {
      assert a + t == t;
    } else {
      assert (a + t)[1..] == a[1..] + t;
      LStripPadded(a[1..], t);
    }
  }

  lemma {:induction false} RStripPadded(t: string, b: string)
    requires Blank(b) && t != "" && !IsSpace(t[|t| - 1])
    ensures RStrip(t + b) == t
    decreases |b|
  {
    var n := |b| - 1;
    if n < 0 {
      assert t + b == t;
    } else {
      assert (t + b)[..|t + b| - 1] == t + b[..n];
      RStripPadded(t, b[..n]);
    }
  }

  lemma StripBlank(s: string)
    requires Blank(s)
    ensures Strip(s) == ""
  {
    LStripShape(s);
  }

  // Strip takes off whitespace, and all of it.
  lemma StripShape(s: string) returns (a: string, b: string)
    ensures s == a + Strip(s) + b && Blank(a) && Blank(b) && Trimmed(Strip(s)) && Strip(Strip(s)) == Strip(s)
  {
    LStripShape(s);
    var l := LStrip(s);
    RStripShape(l);
    a, b := s[..|s| - |l|], l[|Strip(s)|..];
    assert l == Strip(s) + b && s == a + l;
    StripTrimmed(Strip(s));
  }

  // Python's str.split on one character: always at least one piece.
  function Split(s: string, sep: char): (pieces: seq<string>)
    ensures pieces != []
  {
    if s == "" then [""]
    else if s[0] == sep then [""] + Split(s[1..], sep)
    else
      var rest := Split(s[1..], sep);
      [[s[0]] + rest[0]] + rest[1..]
  }

  function Join(pieces: seq<string>, sep: string): string {
    if pieces == [] then ""
    else if |pieces| == 1 then pieces[0]
    else pieces[0] + sep + Join(pieces[1..], sep)
  }

  lemma {:induction false} SplitPiecesLackSeparator(s: string, sep: char)
    ensures forall p :: p in Split(s, sep) ==> sep !in p
  {
    if s != "" {
      SplitPiecesLackSeparator(s[1..], sep);
    }
  }

  lemma {:induction false} SplitSingle(s: string, sep: char)
    requires sep !in s
    ensures Split(s, sep) == [s]
  {
    if s != "" {
      SplitSingle(s[1..], sep);
      assert s == [s[0]] + s[1..];
    }
  }

  lemma {:induction false} SplitAt(a: string, b: string, sep: char)
    requires sep !in a
    ensures Split(a + [sep] + b, sep) == [a] + Split(b, sep)
  {
    if a == "" {
      assert ([sep] + b)[1..] == b;
      assert a + [sep] + b == [sep] + b;
    } else {
      SplitAt(a[1..], b, sep);
      assert (a + [sep] + b)[1..] == a[1..] + [sep] + b;
      assert [a[0]] + a[1..] == a;
    }
  }

  // Splitting what a join wrote returns the pieces, when no piece holds the
  // separator and there is at least one.
  lemma {:induction false} SplitJoin(pieces: seq<string>, sep: char)
    requires pieces != [] && forall p :: p in pieces ==> sep !in p
    ensures Split(Join(pieces, [sep]), sep) == pieces
  {
    if |pieces| == 1 {
      SplitSingle(pieces[0], sep);
    } else {
      var first, rest := pieces[0], pieces[1..];
      assert pieces == [first] + rest;
      SplitJoin(rest, sep);
      SplitAt(first, Join(rest, [sep]), sep);
      assert Join(pieces, [sep]) == first + [sep] + Join(rest, [sep]);
    }
  }

  lemma {:induction false} JoinSplit(s: string, sep: char)
    ensures Join(Split(s, sep), [sep]) == s
  {
    if s != "" {
      JoinSplit(s[1..], sep);
      var rest := Split(s[1..], sep);
      assert s == [s[0]] + s[1..];
      if s[0] == sep {
        assert Split(s, sep)[1..] == rest;
      } else {
        assert Split(s, sep)[1..] == rest[1..];
      }
    }
  }

  // Python's `part in whole`.
  predicate Occurs(part: string, whole: string) {
    part <= whole || (whole != "" && Occurs(part, whole[1..]))
  }

  ghost predicate Includes(part: string, whole: string) { exists a: string, b: string :: whole == a + (part + b) }

  lemma {:induction false} OccursMeans(part: string, whole: string)
    ensures Occurs(part, whole) <==> Includes(part, whole)
  {
    if part <= whole {
      assert whole == "" + (part + whole[|part|..]);
    } else if whole != "" {
      OccursMeans(part, whole[1..]);
      if Includes(part, whole[1..]) {
        var a: string, b: string :| whole[1..] == a + (part + b);
        assert whole == ([whole[0]] + a) + (part + b);
      }
      if a: string, b: string :| whole == a + (part + b) {
        assert a == "" ==> part <= whole;
        assert whole[1..] == a[1..] + (part + b);
      }
    }
  }

  // Lower case on ASCII letters.
  function LowerChar(c: char): char {
    if 'A' <= c <= 'Z' then (c as int + 32) as char else c
  }

  function Lower(s: string): (r: string)
    ensures |r| == |s| && forall i :: 0 <= i < |s| ==> r[i] == LowerChar(s[i])
  {
    seq(|s|, i requires 0 <= i < |s| => LowerChar(s[i]))
  }

  lemma LowerMeans(c: char)
    ensures LowerChar(c) as int == if 65 <= c as int < 91 then c as int + 32 else c as int
  {
  }

  // str(int).
  function Digit(d: nat): char
    requires d < 10
  {
    ('0' as int + d) as char
  }

  function Decimal(n: nat): (s: string)
    ensures s != "" && forall i :: 0 <= i < |s| ==> '0' <= s[i] <= '9'
  {
    if n < 10 then [Digit(n)] else Decimal(n / 10) + [Digit(n % 10)]
  }

  function Number(n: int): string {
    if n < 0 then "-" + Decimal(-n) else Decimal(n)
  }

  lemma {:induction false} DecimalInjective(m: nat, n: nat)
    requires Decimal(m) == Decimal(n)
    ensures m == n
  {
    var a, b := Decimal(m), Decimal(n);
    assert a[|a| - 1] == Digit(m % 10) && b[|b| - 1] == Digit(n % 10);
    if m >= 10 && n >= 10 {
      assert a[..|a| - 1] == Decimal(m / 10) && b[..|b| - 1] == Decimal(n / 10);
      DecimalInjective(m / 10, n / 10);
    }
  }

  lemma NumberInjective(m: int, n: int)
    requires Number(m) == Number(n)
    ensures m == n
  {
    assert m < 0 <==> Number(m)[0] == '-';
    assert n < 0 <==> Number(n)[0] == '-';
    if m < 0 {
      assert Number(m)[1..] == Decimal(-m) && Number(n)[1..] == Decimal(-n);
      DecimalInjective(-m, -n);
    } else {
      DecimalInjective(m, n);
    }
  }
}
