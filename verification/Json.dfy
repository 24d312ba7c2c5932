// JSON values and Python's json.dumps (ensure_ascii), with the strings of
// section 7 of RFC 8259. A number is kept as the lexeme that str()/repr() gives
// it; an object keeps its fields in insertion order, as a dict does.

module Json {
  import opened Text
  import opened Sorting

  predicate Delimiter(c: char) { c == ',' || c == ']' || c == '}' }

  // What int.__repr__ and float.__repr__ can print, as far as parsing needs.
  predicate NumLexeme(l: string) {
    && l != "" && ('0' <= l[0] <= '9' || l[0] in {'-', 'N', 'I'})
    && forall i :: 0 <= i < |l| ==> !Delimiter(l[i]) && Plain(l[i]) && l[i] !in {' ', '<'}
  }

  type Lexeme = l: string | NumLexeme(l) witness "0"

  datatype Json =
    | Null
    | Bool(b: bool)
    | Num(lexeme: Lexeme)
    | Str(s: string)
    | Arr(items: seq<Json>)
    | Obj(fields: seq<Field>)

  datatype Field = Field(key: string, value: Json)

  datatype Style = Style(item: string, colon: string)

  const Spaced: Style := Style(", ", ": ")
  const Compact: Style := Style(",", ":")

  // str(value); `repr` renders whatever is not a string.
  function Render(v: Json, repr: Json -> string): string {
    if v.Str? then v.s else repr(v)
  }

  function IntNum(n: int): Json { Num(Number(n)) }

  // ---- Serialising -------------------------------------------------------

  function HexDigit(d: nat): char
    requires d < 16
  {
    if d < 10 then (d + '0' as int) as char else (d - 10 + 'a' as int) as char
  }

  function Hex4(n: nat): (s: string)
    requires n < 0x10000
    ensures |s| == 4
  {
    [HexDigit(n / 4096), HexDigit(n / 256 % 16), HexDigit(n / 16 % 16), HexDigit(n % 16)]
  }

  function ShortEscape(c: char): Option<char> {
    match c
    case '\"' => Some('\"')
    case '\\' => Some('\\')
    case '\n' => Some('n')
    case '\r' => Some('r')
    case '\t' => Some('t')
    case '\U{8}' => Some('b')
    case '\U{C}' => Some('f')
    case _ => None
  }

  predicate Plain(c: char) { ' ' <= c <= '~' && c != '\"' && c != '\\' }

  function Escape(c: char): (s: string)
    ensures s != ""
  {
    if Plain(c) then [c]
    else if ShortEscape(c).Some? then ['\\', ShortEscape(c).value]
    else if c as int < 0x10000 then "\\u" + Hex4(c as int)
    else
      var n := c as int - 0x10000;
      "\\u" + Hex4(0xD800 + n / 1024) + "\\u" + Hex4(0xDC00 + n % 1024)
  }

  // What four hexadecimal digits stand for.
  function DigitValue(c: char): int { if 48 <= c as int < 58 then c as int - 48 else c as int - 87 }

  function Unit(h: string): int
    requires |h| == 4
  {
    ((DigitValue(h[0]) * 16 + DigitValue(h[1])) * 16 + DigitValue(h[2])) * 16 + DigitValue(h[3])
  }

  lemma HexDigitMeans(d: nat)
    requires d < 16
    ensures DigitValue(HexDigit(d)) == d
    ensures 48 <= HexDigit(d) as int < 58 || 97 <= HexDigit(d) as int < 103
  {
  }

  lemma Hex4Means(n: nat)
    requires n < 0x10000
    ensures Unit(Hex4(n)) == n
  {
    HexDigitMeans(n / 4096);
    HexDigitMeans(n / 256 % 16);
    HexDigitMeans(n / 16 % 16);
    HexDigitMeans(n % 16);
    assert n / 256 == n / 4096 * 16 + n / 256 % 16;
    assert n / 16 == n / 256 * 16 + n / 16 % 16;
    assert n == n / 16 * 16 + n % 16;
  }

  // b, t, n, f and r; a quote or a backslash stands for itself.
  function Letter(n: int): int {
    match n
    case 8 => 98
    case 9 => 116
    case 10 => 110
    case 12 => 102
    case 13 => 114
    case _ => n
  }

  // By code point: the two-character escapes, printable ASCII as it is, and the rest
  // as one code unit of UTF-16 or a pair of surrogates.
  lemma EscapeMeans(c: char)
    ensures var n, e := c as int, Escape(c);
            if n in {34, 92, 10, 13, 9, 8, 12} then
              |e| == 2 && e[0] == '\\' && e[1] as int == Letter(n)
            else if 32 <= n < 127 then e == [c]
            else if n < 0x10000 then |e| == 6 && e[..2] == "\\u" && Unit(e[2..]) == n
            else
              && |e| == 12 && e[..2] == "\\u" && e[6..8] == "\\u"
              && 0xD800 <= Unit(e[2..6]) < 0xDC00 && 0xDC00 <= Unit(e[8..]) < 0xE000
              && n == 0x10000 + (Unit(e[2..6]) - 0xD800) * 0x400 + (Unit(e[8..]) - 0xDC00)
  {
    if !Plain(c) && ShortEscape(c).None? {
      LongEscapeMeans(c);
    }
  }

  lemma LongEscapeMeans(c: char)
    requires !Plain(c) && ShortEscape(c).None?
    ensures var n, e := c as int, Escape(c);
            if n < 0x10000 then |e| == 6 && e[..2] == "\\u" && Unit(e[2..]) == n
            else
              && |e| == 12 && e[..2] == "\\u" && e[6..8] == "\\u"
              && 0xD800 <= Unit(e[2..6]) < 0xDC00 && 0xDC00 <= Unit(e[8..]) < 0xE000
              && n == 0x10000 + (Unit(e[2..6]) - 0xD800) * 0x400 + (Unit(e[8..]) - 0xDC00)
  {
    var n, e := c as int, Escape(c);
    if n < 0x10000 {
      Hex4Means(n);
      assert e[2..] == Hex4(n);
    } else {
      var m := n - 0x10000;
      var high, low := Hex4(0xD800 + m / 1024), Hex4(0xDC00 + m % 1024);
      Hex4Means(0xD800 + m / 1024);
      Hex4Means(0xDC00 + m % 1024);
      assert e == "\\u" + high + "\\u" + low && e[2..6] == high && e[8..] == low;
    }
  }

  function EscapeAll(s: string): string {
    if s == "" then "" else Escape(s[0]) + EscapeAll(s[1..])
  }

  function Quote(s: string): string { "\"" + EscapeAll(s) + "\"" }

  function Dumps(v: Json, st: Style): string
    decreases v, 0
  {
    match v
    case Null => "null"
    case Bool(b) => if b then "true" else "false"
    case Num(lexeme) => lexeme
    case Str(s) => Quote(s)
    case Arr(items) =>
      "[" + (if items == [] then "" else Dumps(items[0], st) + DumpMore(items[1..], st)) + "]"
    case Obj(fields) =>
      "{" + (if fields == [] then "" else DumpField(fields[0], st) + DumpMoreFields(fields[1..], st)) + "}"
  }

  function DumpMore(items: seq<Json>, st: Style): string
    decreases items, 0
  {
    if items == [] then "" else st.item + Dumps(items[0], st) + DumpMore(items[1..], st)
  }

  function DumpField(f: Field, st: Style): string
    decreases f, 1
  {
    Quote(f.key) + st.colon + Dumps(f.value, st)
  }

  function DumpMoreFields(fields: seq<Field>, st: Style): string
    decreases fields, 0
  {
    if fields == [] then "" else st.item + DumpField(fields[0], st) + DumpMoreFields(fields[1..], st)
  }

  // ---- Serialising loses nothing ------------------------------------------

  lemma Hex4Injective(m: nat, n: nat)
    requires m < 0x10000 && n < 0x10000 && Hex4(m) == Hex4(n)
    ensures m == n
  {
    Hex4Means(m);
    Hex4Means(n);
  }

  // Escapes form a prefix code.
  lemma EscapePrefixFree(c: char, d: char, s: string, t: string)
    requires Escape(c) + s == Escape(d) + t
    ensures c == d && s == t
  {
    var u, w := Escape(c) + s, Escape(d) + t;
    assert u[0] == Escape(c)[0] && w[0] == Escape(d)[0];
    if Plain(c) {
      assert u[1..] == s && w[1..] == t;
    } else {
      assert u[1] == Escape(c)[1] && w[1] == Escape(d)[1];
      if ShortEscape(c).Some? {
        assert u[2..] == s && w[2..] == t;
      } else {
        LongEscapePrefixFree(c, d, s, t);
      }
    }
  }

  lemma LongEscapePrefixFree(c: char, d: char, s: string, t: string)
    requires Escape(c) + s == Escape(d) + t
    requires !Plain(c) && ShortEscape(c).None? && !Plain(d) && ShortEscape(d).None?
    ensures c == d && s == t
  {
    SameFirstUnit(c, d, s, t);
    if c as int < 0x10000 {
      CutSame(Escape(c), Escape(d), s, t);
    } else {
      SameSecondUnit(c, d, s, t);
      CutSame(Escape(c), Escape(d), s, t);
    }
  }

  function FirstUnit(c: char): nat {
    if c as int < 0x10000 then c as int else 0xD800 + (c as int - 0x10000) / 1024
  }

  lemma SameFirstUnit(c: char, d: char, s: string, t: string)
    requires Escape(c) + s == Escape(d) + t
    requires !Plain(c) && ShortEscape(c).None? && !Plain(d) && ShortEscape(d).None?
    ensures FirstUnit(c) == FirstUnit(d) < 0x10000
    ensures c as int < 0x10000 ==> c == d
    ensures (c as int < 0x10000) == (d as int < 0x10000)
  {
    assert (Escape(c) + s)[2..6] == Hex4(FirstUnit(c)) && (Escape(d) + t)[2..6] == Hex4(FirstUnit(d));
    Hex4Injective(FirstUnit(c), FirstUnit(d));
  }

  lemma SameSecondUnit(c: char, d: char, s: string, t: string)
    requires Escape(c) + s == Escape(d) + t
    requires c as int >= 0x10000 && d as int >= 0x10000 && FirstUnit(c) == FirstUnit(d)
    ensures c == d
  {
    var k, l := (c as int - 0x10000) % 1024, (d as int - 0x10000) % 1024;
    assert (Escape(c) + s)[8..12] == Hex4(0xDC00 + k) && (Escape(d) + t)[8..12] == Hex4(0xDC00 + l);
    Hex4Injective(0xDC00 + k, 0xDC00 + l);
  }

  lemma CutSame(p: string, q: string, s: string, t: string)
    requires |p| == |q| && p + s == q + t
    ensures p == q && s == t
  {
    assert (p + s)[..|p|] == p && (q + t)[..|p|] == q;
    assert (p + s)[|p|..] == s && (q + t)[|p|..] == t;
  }

  lemma UnfoldQuoted(a: string, s: string)
    requires a != ""
    ensures EscapeAll(a) + "\"" + s == Escape(a[0]) + (EscapeAll(a[1..]) + "\"" + s)
  {
  }

  // An escape never begins with the closing quote.
  lemma QuotedLead(a: string, s: string)
    ensures var u := EscapeAll(a) + "\"" + s; (u[0] == '\"') == (a == "")
  {
  }

  lemma {:induction false} QuotedUnique(a: string, b: string, s: string, t: string)
    requires EscapeAll(a) + "\"" + s == EscapeAll(b) + "\"" + t
    ensures a == b && s == t
  {
    QuotedLead(a, s);
    QuotedLead(b, t);
    if a == "" {
      assert EscapeAll(a) + "\"" == "\"" && EscapeAll(b) + "\"" == "\"";
      CutSame("\"", "\"", s, t);
    } else {
      UnfoldQuoted(a, s);
      UnfoldQuoted(b, t);
      EscapePrefixFree(a[0], b[0], EscapeAll(a[1..]) + "\"" + s, EscapeAll(b[1..]) + "\"" + t);
      QuotedUnique(a[1..], b[1..], s, t);
      assert a == [a[0]] + a[1..] && b == [b[0]] + b[1..];
    }
  }

  ghost predicate Ends(s: string) { s == "" || Delimiter(s[0]) }

  function UpToDelimiter(s: string): string {
    if s == "" || Delimiter(s[0]) then "" else [s[0]] + UpToDelimiter(s[1..])
  }

  lemma {:induction false} LexemeEnds(l: string, s: string)
    requires (forall i :: 0 <= i < |l| ==> !Delimiter(l[i])) && Ends(s)
    ensures UpToDelimiter(l + s) == l
  {
    if l == "" {
      assert l + s == s;
    } else {
      assert (l + s)[1..] == l[1..] + s;
      LexemeEnds(l[1..], s);
    }
  }

  lemma LexemeUnique(l: string, m: string, s: string, t: string)
    requires NumLexeme(l) && NumLexeme(m) && Ends(s) && Ends(t) && l + s == m + t
    ensures l == m && s == t
  {
    LexemeEnds(l, s);
    LexemeEnds(m, t);
    CutSame(l, m, s, t);
  }

  datatype Kind = KNull | KBool | KNum | KStr | KArr | KObj

  function KindOf(v: Json): Kind {
    match v
    case Null => KNull
    case Bool(_) => KBool
    case Num(_) => KNum
    case Str(_) => KStr
    case Arr(_) => KArr
    case Obj(_) => KObj
  }

  function KindOfLead(c: char): Kind {
    if c == 'n' then KNull
    else if c == 't' || c == 'f' then KBool
    else if c == '\"' then KStr
    else if c == '[' then KArr
    else if c == '{' then KObj
    else KNum
  }

  lemma LeadTellsKind(v: Json, st: Style)
    ensures Dumps(v, st) != "" && KindOfLead(Dumps(v, st)[0]) == KindOf(v)
    ensures !Delimiter(Dumps(v, st)[0])
  {
  }

  ghost predicate GoodStyle(st: Style) { st.item != "" && st.item[0] == ',' }

  // No serialised value is a proper prefix of another in a context that ends it.
  lemma {:induction false} DumpsUnique(a: Json, b: Json, s: string, t: string, st: Style)
    requires GoodStyle(st)
    requires Ends(s) && Ends(t) && Dumps(a, st) + s == Dumps(b, st) + t
    ensures a == b && s == t
    decreases a, 0
  {
    var u, w := Dumps(a, st) + s, Dumps(b, st) + t;
    LeadTellsKind(a, st);
    LeadTellsKind(b, st);
    assert u[0] == Dumps(a, st)[0] && w[0] == Dumps(b, st)[0];
    match a
    case Null =>
      CutSame("null", "null", s, t);
    case Bool(x) =>
      BoolUnique(x, b.b, s, t);
    case Num(l) =>
      LexemeUnique(l, b.lexeme, s, t);
    case Str(x) =>
      StringUnique(x, b.s, s, t);
    case Arr(xs) =>
      ArrayUnique(xs, b.items, s, t, st);
    case Obj(fs) =>
      ObjectUnique(fs, b.fields, s, t, st);
  }

  lemma StringUnique(a: string, b: string, s: string, t: string)
    requires Quote(a) + s == Quote(b) + t
    ensures a == b && s == t
  {
    var p, q := EscapeAll(a) + "\"" + s, EscapeAll(b) + "\"" + t;
    assert Quote(a) + s == "\"" + p && Quote(b) + t == "\"" + q;
    CutSame("\"", "\"", p, q);
    QuotedUnique(a, b, s, t);
  }

  lemma BoolUnique(x: bool, y: bool, s: string, t: string)
    requires (if x then "true" else "false") + s == (if y then "true" else "false") + t
    ensures x == y && s == t
  {
    var u, w := (if x then "true" else "false") + s, (if y then "true" else "false") + t;
    assert u[0] == (if x then 't' else 'f') && w[0] == (if y then 't' else 'f');
    assert s == u[if x then 4 else 5..] && t == w[if y then 4 else 5..];
  }

  lemma {:induction false} ArrayUnique(xs: seq<Json>, ys: seq<Json>, s: string, t: string, st: Style)
    requires GoodStyle(st)
    requires Dumps(Arr(xs), st) + s == Dumps(Arr(ys), st) + t
    ensures xs == ys && s == t
    decreases xs, 1
  {
    var u, w := Dumps(Arr(xs), st) + s, Dumps(Arr(ys), st) + t;
    if xs == [] || ys == [] {
      EmptyArrayUnique(xs, ys, s, t, st);
    } else {
      var p, q := DumpMore(xs[1..], st) + "]" + s, DumpMore(ys[1..], st) + "]" + t;
      assert u == "[" + (Dumps(xs[0], st) + p) && w == "[" + (Dumps(ys[0], st) + q);
      assert u[1..] == Dumps(xs[0], st) + p && w[1..] == Dumps(ys[0], st) + q;
      DumpMoreEnds(xs[1..], s, st);
      DumpMoreEnds(ys[1..], t, st);
      DumpsUnique(xs[0], ys[0], p, q, st);
      DumpMoreUnique(xs[1..], ys[1..], s, t, st);
      assert xs == [xs[0]] + xs[1..] && ys == [ys[0]] + ys[1..];
    }
  }

  lemma EmptyArrayUnique(xs: seq<Json>, ys: seq<Json>, s: string, t: string, st: Style)
    requires GoodStyle(st)
    requires Dumps(Arr(xs), st) + s == Dumps(Arr(ys), st) + t
    requires xs == [] || ys == []
    ensures xs == ys && s == t
  {
    var u, w := Dumps(Arr(xs), st) + s, Dumps(Arr(ys), st) + t;
    ArrayLead(xs, s, st);
    ArrayLead(ys, t, st);
    assert xs == [] && ys == [];
    assert Dumps(Arr([]), st) == "[]";
    CutSame("[]", "[]", s, t);
  }

  lemma ArrayLead(xs: seq<Json>, s: string, st: Style)
    ensures var u := Dumps(Arr(xs), st) + s;
            |u| >= 2 && (u[1] == ']') == (xs == [])
  {
    if xs != [] {
      LeadTellsKind(xs[0], st);
      assert Dumps(Arr(xs), st)[1] == Dumps(xs[0], st)[0];
    }
  }

  lemma DumpMoreEnds(xs: seq<Json>, s: string, st: Style)
    requires GoodStyle(st)
    ensures var u := DumpMore(xs, st) + "]" + s;
            u != "" && u[0] == (if xs == [] then ']' else ',')
  {
  }

  lemma UnfoldMore(xs: seq<Json>, s: string, st: Style)
    requires xs != []
    ensures DumpMore(xs, st) + "]" + s == st.item + (Dumps(xs[0], st) + (DumpMore(xs[1..], st) + "]" + s))
  {
    Regroup(st.item, Dumps(xs[0], st), DumpMore(xs[1..], st), "]", s);
  }

  lemma {:induction false} DumpMoreUnique(xs: seq<Json>, ys: seq<Json>, s: string, t: string, st: Style)
    requires GoodStyle(st)
    requires DumpMore(xs, st) + "]" + s == DumpMore(ys, st) + "]" + t
    ensures xs == ys && s == t
    decreases xs, 0
  {
    DumpMoreEnds(xs, s, st);
    DumpMoreEnds(ys, t, st);
    if xs == [] {
      assert DumpMore([], st) + "]" == "]";
      CutSame("]", "]", s, t);
    } else {
      UnfoldMore(xs, s, st);
      UnfoldMore(ys, t, st);
      var p, q := DumpMore(xs[1..], st) + "]" + s, DumpMore(ys[1..], st) + "]" + t;
      CutSame(st.item, st.item, Dumps(xs[0], st) + p, Dumps(ys[0], st) + q);
      DumpMoreEnds(xs[1..], s, st);
      DumpMoreEnds(ys[1..], t, st);
      DumpsUnique(xs[0], ys[0], p, q, st);
      DumpMoreUnique(xs[1..], ys[1..], s, t, st);
      assert xs == [xs[0]] + xs[1..] && ys == [ys[0]] + ys[1..];
    }
  }

  lemma UnfoldField(f: Field, s: string, st: Style)
    ensures DumpField(f, st) + s == Quote(f.key) + (st.colon + (Dumps(f.value, st) + s))
  {
    assert DumpField(f, st) + s == Quote(f.key) + st.colon + Dumps(f.value, st) + s;
  }

  lemma {:induction false} FieldUnique(f: Field, g: Field, s: string, t: string, st: Style)
    requires GoodStyle(st) && Ends(s) && Ends(t)
    requires DumpField(f, st) + s == DumpField(g, st) + t
    ensures f == g && s == t
    decreases f, 1
  {
    UnfoldField(f, s, st);
    UnfoldField(g, t, st);
    var p, q := Dumps(f.value, st) + s, Dumps(g.value, st) + t;
    StringUnique(f.key, g.key, st.colon + p, st.colon + q);
    CutSame(st.colon, st.colon, p, q);
    DumpsUnique(f.value, g.value, s, t, st);
  }

  lemma ObjectLead(fs: seq<Field>, s: string, st: Style)
    ensures var u := Dumps(Obj(fs), st) + s;
            |u| >= 2 && u[1] == (if fs == [] then '}' else '\"')
  {
    if fs != [] {
      assert DumpField(fs[0], st)[0] == '\"';
      assert Dumps(Obj(fs), st)[1] == DumpField(fs[0], st)[0];
    }
  }

  lemma UnfoldObject(fs: seq<Field>, s: string, st: Style)
    requires fs != []
    ensures Dumps(Obj(fs), st) + s == "{" + (DumpField(fs[0], st) + (DumpMoreFields(fs[1..], st) + "}" + s))
  {
  }

  lemma {:induction false} ObjectUnique(fs: seq<Field>, gs: seq<Field>, s: string, t: string, st: Style)
    requires GoodStyle(st)
    requires Dumps(Obj(fs), st) + s == Dumps(Obj(gs), st) + t
    ensures fs == gs && s == t
    decreases fs, 3
  {
    ObjectLead(fs, s, st);
    ObjectLead(gs, t, st);
    if fs == [] {
      assert Dumps(Obj([]), st) == "{}";
      CutSame("{}", "{}", s, t);
    } else {
      UnfoldObject(fs, s, st);
      UnfoldObject(gs, t, st);
      var p, q := DumpMoreFields(fs[1..], st) + "}" + s, DumpMoreFields(gs[1..], st) + "}" + t;
      CutSame("{", "{", DumpField(fs[0], st) + p, DumpField(gs[0], st) + q);
      DumpMoreFieldsEnds(fs[1..], s, st);
      DumpMoreFieldsEnds(gs[1..], t, st);
      FieldUnique(fs[0], gs[0], p, q, st);
      DumpMoreFieldsUnique(fs[1..], gs[1..], s, t, st);
      assert fs == [fs[0]] + fs[1..] && gs == [gs[0]] + gs[1..];
    }
  }

  lemma DumpMoreFieldsEnds(fs: seq<Field>, s: string, st: Style)
    requires GoodStyle(st)
    ensures var u := DumpMoreFields(fs, st) + "}" + s;
            u != "" && u[0] == (if fs == [] then '}' else ',')
  {
  }

  lemma UnfoldMoreFields(fs: seq<Field>, s: string, st: Style)
    requires fs != []
    ensures DumpMoreFields(fs, st) + "}" + s
            == st.item + (DumpField(fs[0], st) + (DumpMoreFields(fs[1..], st) + "}" + s))
  {
    var a, b := DumpField(fs[0], st), DumpMoreFields(fs[1..], st);
    Regroup(st.item, a, b, "}", s);
  }

  lemma Regroup(a: string, b: string, c: string, d: string, e: string)
    ensures a + b + c + d + e == a + (b + (c + d + e))
  {
  }

  lemma {:induction false} DumpMoreFieldsUnique(fs: seq<Field>, gs: seq<Field>, s: string, t: string, st: Style)
    requires GoodStyle(st)
    requires DumpMoreFields(fs, st) + "}" + s == DumpMoreFields(gs, st) + "}" + t
    ensures fs == gs && s == t
    decreases fs, 2
  {
    DumpMoreFieldsEnds(fs, s, st);
    DumpMoreFieldsEnds(gs, t, st);
    if fs == [] {
      assert DumpMoreFields([], st) + "}" == "}";
      CutSame("}", "}", s, t);
    } else {
      UnfoldMoreFields(fs, s, st);
      UnfoldMoreFields(gs, t, st);
      var p, q := DumpMoreFields(fs[1..], st) + "}" + s, DumpMoreFields(gs[1..], st) + "}" + t;
      CutSame(st.item, st.item, DumpField(fs[0], st) + p, DumpField(gs[0], st) + q);
      DumpMoreFieldsEnds(fs[1..], s, st);
      DumpMoreFieldsEnds(gs[1..], t, st);
      FieldUnique(fs[0], gs[0], p, q, st);
      DumpMoreFieldsUnique(fs[1..], gs[1..], s, t, st);
      assert fs == [fs[0]] + fs[1..] && gs == [gs[0]] + gs[1..];
    }
  }

  // json.dumps is injective on values, in either style.
  lemma DumpsInjective(a: Json, b: Json, st: Style)
    requires GoodStyle(st) && Dumps(a, st) == Dumps(b, st)
    ensures a == b
  {
    assert Dumps(a, st) + "" == Dumps(a, st) && Dumps(b, st) + "" == Dumps(b, st);
    DumpsUnique(a, b, "", "", st);
  }
}
