// The leftover check on a loaded document.

module LeftoverScan {
  // The pattern is searched for in json.dumps of the whole document, not in its
  // strings. Quotes, escapes and separators are places no token reaches across, so
  // what is found there is what each string holds, in order, and nothing else.

  import opened Text
  import opened Json
  import opened Tokens

  // Every key and every string leaf of a document.
  function Strings(v: Json): seq<string>
    decreases v, 0
  {
    match v
    case Str(s) => [s]
    case Arr(items) => ItemStrings(items)
    case Obj(fields) => FieldStrings(fields)
    case _ => []
  }

  function ItemStrings(items: seq<Json>): seq<string>
    decreases items, 0
  {
    if items == [] then [] else Strings(items[0]) + ItemStrings(items[1..])
  }

  function FieldStrings(fields: seq<Field>): seq<string>
    decreases fields, 0
  {
    if fields == [] then [] else [fields[0].key] + Strings(fields[0].value) + FieldStrings(fields[1..])
  }

  // Some string holds a token, with any whitespace inside its brackets or with
  // U+0020 only.
  predicate Found(strings: seq<string>, g: Gaps) {
    exists i :: 0 <= i < |strings| && Search(strings[i], g)
  }

  lemma FoundConcat(a: seq<string>, b: seq<string>, g: Gaps)
    ensures Found(a + b, g) <==> Found(a, g) || Found(b, g)
  {
    if i :| 0 <= i < |a| && Search(a[i], g) {
      assert (a + b)[i] == a[i];
    }
    if i :| 0 <= i < |b| && Search(b[i], g) {
      assert (a + b)[|a| + i] == b[i];
    }
  }

  // What re.findall finds in each string, one after the other.
  function NamesIn(strings: seq<string>, g: Gaps): seq<string> {
    if strings == [] then [] else FindAll(strings[0], g) + NamesIn(strings[1..], g)
  }

  lemma {:induction false} NamesConcat(a: seq<string>, b: seq<string>, g: Gaps)
    ensures NamesIn(a + b, g) == NamesIn(a, g) + NamesIn(b, g)
  {
    if a == [] {
      assert a + b == b;
    } else {
      assert (a + b)[1..] == a[1..] + b;
      NamesConcat(a[1..], b, g);
    }
  }

  lemma NamesOne(s: string, g: Gaps)
    ensures NamesIn([s], g) == FindAll(s, g)
  {
    assert [s][1..] == [];
  }

  lemma {:induction false} NamesFound(strings: seq<string>, g: Gaps)
    ensures NamesIn(strings, g) != [] <==> Found(strings, g)
  {
    if strings != [] {
      NamesFound(strings[1..], g);
      FindAllFinds(strings[0], g);
      assert strings == [strings[0]] + strings[1..];
      FoundConcat([strings[0]], strings[1..], g);
      assert [strings[0]][0] == strings[0];
    }
  }

  // ---- Escaping blocks every gap but the space ----------------------------------------

  lemma HexInert(n: nat)
    requires n < 0x10000
    ensures '<' !in Hex4(n)
  {
  }

  lemma EscapeInert(c: char)
    requires !Plain(c)
    ensures Escape(c)[0] == '\\' && '<' !in Escape(c)
  {
    if ShortEscape(c).None? {
      if c as int < 0x10000 {
        HexInert(c as int);
      } else {
        var n := c as int - 0x10000;
        HexInert(0xD800 + n / 1024);
        HexInert(0xDC00 + n % 1024);
      }
    }
  }

  ghost predicate AllPlain(s: string) { forall i :: 0 <= i < |s| ==> Plain(s[i]) }

  // Among printable ASCII the only gap is the space.
  lemma PlainMatch(s: string)
    requires AllPlain(s)
    ensures Match(s, AnySpace) == Match(s, SpaceOnly)
  {
    if Match(s, SpaceOnly).Some? {
      Widen(s, SpaceOnly);
    }
    if Match(s, AnySpace).Some? {
      var f := Match(s, AnySpace).value;
      MatchMeans(s, f.name, f.len, AnySpace);
      var a: string, b: string :| AllGap(a, AnySpace) && AllGap(b, AnySpace) && f.name != "" && AllWord(f.name)
                                  && s[..f.len] == "<<" + a + f.name + b + ">>";
      PlainGap(s[..f.len], "<<", a, f.name + b + ">>");
      PlainGap(s[..f.len], "<<" + a + f.name, b, ">>");
      MatchMeans(s, f.name, f.len, SpaceOnly);
    }
  }

  lemma PlainGap(t: string, front: string, gap: string, back: string)
    requires AllPlain(t) && t == front + gap + back && AllGap(gap, AnySpace)
    ensures AllGap(gap, SpaceOnly)
  {
    forall i | 0 <= i < |gap|
      ensures IsGap(gap[i], SpaceOnly)
    {
      assert t[|front| + i] == gap[i];
    }
  }

  lemma {:induction false} PlainNames(s: string)
    requires AllPlain(s)
    ensures FindAll(s, AnySpace) == FindAll(s, SpaceOnly)
    decreases |s|
  {
    if s != "" {
      PlainMatch(s);
      var m := Match(s, AnySpace);
      PlainNames(s[if m.Some? then m.value.len else 1..]);
    }
  }

  lemma EscapedChar(c: char, rest: string)
    requires !Plain(c)
    ensures Apart(Escape(c) + EscapeAll(rest), AnySpace) && Apart([c] + rest, SpaceOnly)
    ensures FindAll(Escape(c) + EscapeAll(rest), AnySpace) == FindAll(EscapeAll(rest), AnySpace)
    ensures FindAll([c] + rest, SpaceOnly) == FindAll(rest, SpaceOnly)
  {
    EscapeInert(c);
    FindAllSkips(Escape(c), EscapeAll(rest), AnySpace);
    FindAllSkips([c], rest, SpaceOnly);
  }

  // What is found in a string once it is escaped, after text that needs no escape.
  lemma {:induction false} EscapedNames(p: string, s: string)
    requires AllPlain(p)
    ensures FindAll(p + EscapeAll(s), AnySpace) == FindAll(p + s, SpaceOnly)
    decreases |s|
  {
    if s == "" {
      assert p + s == p && p + EscapeAll(s) == p;
      PlainNames(p);
    } else {
      var c, rest := s[0], s[1..];
      assert s == [c] + rest && EscapeAll(s) == Escape(c) + EscapeAll(rest);
      if Plain(c) {
        Regroup(p, [c], EscapeAll(rest));
        Regroup(p, [c], rest);
        EscapedNames(p + [c], rest);
      } else {
        EscapedNames("", rest);
        assert "" + EscapeAll(rest) == EscapeAll(rest) && "" + rest == rest;
        EscapeBetween(p, c, rest);
      }
    }
  }

  lemma Regroup(a: string, b: string, c: string)
    ensures a + (b + c) == (a + b) + c
  {
  }

  // An escape is no part of a token, as its character is not.
  lemma EscapeBetween(p: string, c: char, rest: string)
    requires AllPlain(p) && !Plain(c) && FindAll(EscapeAll(rest), AnySpace) == FindAll(rest, SpaceOnly)
    ensures FindAll(p + (Escape(c) + EscapeAll(rest)), AnySpace) == FindAll(p + ([c] + rest), SpaceOnly)
  {
    EscapedChar(c, rest);
    FindAllApart(p, Escape(c) + EscapeAll(rest), AnySpace);
    FindAllApart(p, [c] + rest, SpaceOnly);
    PlainNames(p);
  }

  lemma QuotedNames(s: string)
    ensures FindAll(Quote(s), AnySpace) == FindAll(s, SpaceOnly)
  {
    var e := EscapeAll(s);
    EscapedNames("", s);
    assert "" + e == e && "" + s == s;
    assert Quote(s) == "\"" + (e + "\"");
    FindAllSkips("\"", e + "\"", AnySpace);
    FindAllApart(e, "\"", AnySpace);
    NothingIn("\"");
  }

  lemma NothingIn(s: string)
    requires '<' !in s
    ensures FindAll(s, AnySpace) == []
  {
    FindAllSkips(s, "", AnySpace);
    assert s + "" == s;
  }

  // ---- The whole document ----------------------------------------------------------------

  lemma Enclosed(open: string, s: string, close: string)
    requires '<' !in open && '<' !in close && Apart(close, AnySpace)
    ensures FindAll(open + s + close, AnySpace) == FindAll(s, AnySpace)
  {
    FindAllApart(open + s, close, AnySpace);
    FindAllSkips(open, s, AnySpace);
    NothingIn(close);
  }

  // A value, then what a comma separates from it.
  lemma Listed(first: string, more: string)
    requires Apart(more, AnySpace)
    ensures FindAll(first + more, AnySpace) == FindAll(first, AnySpace) + FindAll(more, AnySpace)
  {
    FindAllApart(first, more, AnySpace);
  }

  lemma Comma(s: string)
    ensures Apart(Spaced.item + s, AnySpace) && FindAll(Spaced.item + s, AnySpace) == FindAll(s, AnySpace)
  {
    FindAllSkips(Spaced.item, s, AnySpace);
  }

  // Serialise-then-scan is scan-every-string, key by key and leaf by leaf, for
  // tokens whose inner whitespace is only U+0020: nothing forms across strings, and
  // every other whitespace character hides the token it stands in.
  lemma {:induction false} ScanFindsPerString(v: Json)
    ensures FindAll(Dumps(v, Spaced), AnySpace) == NamesIn(Strings(v), SpaceOnly)
    decreases v, 0
  {
    match v
    case Null => NothingIn("null");
    case Bool(b) =>
      NothingIn("true");
      NothingIn("false");
    case Num(l) => NothingIn(l);
    case Str(s) =>
      QuotedNames(s);
      NamesOne(s, SpaceOnly);
    case Arr(items) => ArrayNames(items);
    case Obj(fields) => ObjectNames(fields);
  }

  lemma {:induction false} ArrayNames(items: seq<Json>)
    ensures FindAll(Dumps(Arr(items), Spaced), AnySpace) == NamesIn(ItemStrings(items), SpaceOnly)
    decreases items, 2
  {
    if items == [] {
      NothingIn("[" + "" + "]");
    } else {
      ScanFindsPerString(items[0]);
      MoreNames(items[1..]);
      NamesConcat(Strings(items[0]), ItemStrings(items[1..]), SpaceOnly);
      Listed(Dumps(items[0], Spaced), DumpMore(items[1..], Spaced));
      Enclosed("[", Dumps(items[0], Spaced) + DumpMore(items[1..], Spaced), "]");
    }
  }

  lemma {:induction false} MoreNames(items: seq<Json>)
    ensures Apart(DumpMore(items, Spaced), AnySpace)
    ensures FindAll(DumpMore(items, Spaced), AnySpace) == NamesIn(ItemStrings(items), SpaceOnly)
    decreases items, 0
  {
    if items != [] {
      var d, more := Dumps(items[0], Spaced), DumpMore(items[1..], Spaced);
      ScanFindsPerString(items[0]);
      MoreNames(items[1..]);
      NamesConcat(Strings(items[0]), ItemStrings(items[1..]), SpaceOnly);
      Comma(d);
      FindAllApart(Spaced.item + d, more, AnySpace);
    }
  }

  lemma {:induction false} ObjectNames(fields: seq<Field>)
    ensures FindAll(Dumps(Obj(fields), Spaced), AnySpace) == NamesIn(FieldStrings(fields), SpaceOnly)
    decreases fields, 2
  {
    if fields == [] {
      NothingIn("{" + "" + "}");
    } else {
      var d, more := DumpField(fields[0], Spaced), DumpMoreFields(fields[1..], Spaced);
      FieldNames(fields[0]);
      MoreFieldNames(fields[1..]);
      NamesConcat([fields[0].key] + Strings(fields[0].value), FieldStrings(fields[1..]), SpaceOnly);
      Listed(d, more);
      Enclosed("{", d + more, "}");
    }
  }

  lemma {:induction false} FieldNames(f: Field)
    ensures FindAll(DumpField(f, Spaced), AnySpace) == NamesIn([f.key] + Strings(f.value), SpaceOnly)
    decreases f, 1
  {
    var q, d := Quote(f.key), Dumps(f.value, Spaced);
    QuotedNames(f.key);
    NamesOne(f.key, SpaceOnly);
    ScanFindsPerString(f.value);
    NamesConcat([f.key], Strings(f.value), SpaceOnly);
    assert q + Spaced.colon + d == q + (Spaced.colon + d);
    FindAllApart(q, Spaced.colon + d, AnySpace);
    FindAllSkips(Spaced.colon, d, AnySpace);
  }

  lemma {:induction false} MoreFieldNames(fields: seq<Field>)
    ensures Apart(DumpMoreFields(fields, Spaced), AnySpace)
    ensures FindAll(DumpMoreFields(fields, Spaced), AnySpace) == NamesIn(FieldStrings(fields), SpaceOnly)
    decreases fields, 0
  {
    if fields != [] {
      var d, more := DumpField(fields[0], Spaced), DumpMoreFields(fields[1..], Spaced);
      FieldNames(fields[0]);
      MoreFieldNames(fields[1..]);
      NamesConcat([fields[0].key] + Strings(fields[0].value), FieldStrings(fields[1..]), SpaceOnly);
      Comma(d);
      FindAllApart(Spaced.item + d, more, AnySpace);
    }
  }

  // ---- Main result ---------------------------------------------------------------------

  // So the check fires exactly when some string holds such a token.
  lemma ScanIsPerString(doc: Json)
    ensures FindAll(Dumps(doc, Spaced), AnySpace) != []
            <==> Found(Strings(doc), SpaceOnly)
  {
    ScanFindsPerString(doc);
    NamesFound(Strings(doc), SpaceOnly);
  }
}
