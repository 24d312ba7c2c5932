// The edited manifest, spelled out: for each way a text can be laid out, every
// line of the text that results.

module ManifestCases {
  import opened Text
  import opened ManifestEdit

  ghost predicate Blanks(s: string) { forall i :: 0 <= i < |s| ==> s[i] == ' ' || s[i] == '\t' }

  ghost predicate Remark(c: string) { c == "" || c[0] == '#' }

  // A key line with nothing under the key, or an empty mapping.
  function HeaderText(a: string, braces: bool, b: string, c: string): string {
    "use_cases:" + (a + ((if braces then "{}" else "") + (b + c)))
  }

  ghost predicate IsHeader(l: string) {
    exists a: string, braces: bool, b: string, c: string ::
      Blanks(a) && Blanks(b) && Remark(c) && l == HeaderText(a, braces, b, c)
  }

  lemma {:induction false} BlanksSkipped(a: string, t: string)
    requires Blanks(a) && (t == "" || (t[0] != ' ' && t[0] != '\t'))
    ensures SkipBlanks(a + t) == t
  {
    if a == "" {
      assert a + t == t;
    } else {
      assert (a + t)[1..] == a[1..] + t;
      BlanksSkipped(a[1..], t);
    }
  }

  lemma {:induction false} BlanksBefore(s: string) returns (a: string)
    ensures Blanks(a) && s == a + SkipBlanks(s)
    ensures SkipBlanks(s) != "" ==> SkipBlanks(s)[0] != ' ' && SkipBlanks(s)[0] != '\t'
  {
    if s != "" && (s[0] == ' ' || s[0] == '\t') {
      var rest := BlanksBefore(s[1..]);
      a := [s[0]] + rest;
      assert s == [s[0]] + s[1..];
    } else {
      a := "";
      assert s == "" + s;
    }
  }

  lemma HeaderIsRead(a: string, braces: bool, b: string, c: string)
    requires Blanks(a) && Blanks(b) && Remark(c)
    ensures HeaderOf(HeaderText(a, braces, b, c)) == Some(Header(braces, c))
  {
    var l := HeaderText(a, braces, b, c);
    var rest := (if braces then "{}" else "") + (b + c);
    assert l[|KEY|..] == a + rest;
    BlanksSkipped(b, c);
    if braces {
      assert rest == "{}" + (b + c) && rest[2..] == b + c;
      BlanksSkipped(a, rest);
      assert "{}" <= rest;
    } else {
      assert a + rest == (a + b) + c;
      BlanksSkipped(a + b, c);
      BlanksSkipped("", c);
    }
  }

  lemma HeaderShape(l: string) returns (a: string, braces: bool, b: string, c: string)
    requires HeaderOf(l).Some?
    ensures Blanks(a) && Blanks(b) && Remark(c) && l == HeaderText(a, braces, b, c)
    ensures HeaderOf(l) == Some(Header(braces, c))
  {
    var t := l[|KEY|..];
    a := BlanksBefore(t);
    var r := SkipBlanks(t);
    braces := "{}" <= r;
    var u := if braces then r[2..] else r;
    b := BlanksBefore(u);
    c := SkipBlanks(u);
    assert l == KEY + t && r == (if braces then "{}" else "") + u;
  }

  lemma HeaderMeans(l: string)
    ensures HeaderOf(l).Some? <==> IsHeader(l)
  {
    if HeaderOf(l).Some? {
      var a, braces, b, c := HeaderShape(l);
      assert l == HeaderText(a, braces, b, c);
    }
    if a: string, braces: bool, b: string, c: string :|
        Blanks(a) && Blanks(b) && Remark(c) && l == HeaderText(a, braces, b, c) {
      HeaderIsRead(a, braces, b, c);
    }
  }

  // ---- Already there ----------------------------------------------------------------------

  // An indented `name:`, the indentation being on its own line or a blank line above.
  ghost predicate NamedOn(name: string, pieces: seq<string>, j: nat)
    requires j < |pieces|
  {
    exists w: string, r: string ::
      Blank(w) && pieces[j] == w + (name + ":" + r) && (w != "" || (j > 0 && Blank(pieces[j - 1])))
  }

  lemma NamedMeans(name: string, pieces: seq<string>)
    requires GoodName(name)
    ensures Named(name, pieces) <==> exists j: nat :: j < |pieces| && NamedOn(name, pieces, j)
  {
    forall j: nat | j < |pieces|
      ensures NamedAt(name, pieces, j) <==> NamedOn(name, pieces, j)
    {
      if NamedAt(name, pieces, j) {
        NamedShape(name, pieces, j);
      }
      if w: string, r: string :|
          Blank(w) && pieces[j] == w + (name + ":" + r) && (w != "" || (j > 0 && Blank(pieces[j - 1]))) {
        ShapeIsNamed(name, pieces, j, w, r);
      }
    }
  }

  lemma BlankMeans(l: string)
    ensures BlankLine(l) <==> Blank(l)
  {
    LStripShape(l);
  }

  lemma NamedShape(name: string, pieces: seq<string>, j: nat)
    requires GoodName(name) && j < |pieces| && NamedAt(name, pieces, j)
    ensures NamedOn(name, pieces, j)
  {
    var l, p := pieces[j], name + ":";
    LStripShape(l);
    var t := LStrip(l);
    var w, r := l[..|l| - |t|], t[|p|..];
    assert l == w + t && t == p + r;
    if w == "" {
      assert l[0] == p[0] == name[0];
      BlankMeans(pieces[j - 1]);
    }
  }

  lemma ShapeIsNamed(name: string, pieces: seq<string>, j: nat, w: string, r: string)
    requires GoodName(name) && j < |pieces| && Blank(w) && pieces[j] == w + (name + ":" + r)
    requires w != "" || (j > 0 && Blank(pieces[j - 1]))
    ensures NamedAt(name, pieces, j)
  {
    var t := name + ":" + r;
    assert t[0] == name[0];
    LStripPadded(w, t);
    if w != "" {
      assert pieces[j][0] == w[0];
    } else {
      BlankMeans(pieces[j - 1]);
    }
  }

  // ---- The three ways to edit ---------------------------------------------------------------

  ghost predicate AllEmpty(lines: seq<string>) { forall i :: 0 <= i < |lines| ==> lines[i] == "" }

  // The first header of the text, with what stands before it and after the empty
  // lines below it: nothing under the key, or braces for an empty mapping.
  datatype Layout = Layout(before: seq<string>, a: string, braces: bool, b: string, c: string,
                           empties: seq<string>, rest: seq<string>)

  ghost predicate Fillable(x: Layout) {
    && (forall i :: 0 <= i < |x.before| ==> !IsHeader(x.before[i]))
    && Blanks(x.a) && Blanks(x.b) && Remark(x.c) && AllEmpty(x.empties)
    && (x.rest != [] ==> x.rest[0] != "" && (x.braces || (x.rest[0][0] != ' ' && x.rest[0][0] != '\t')))
  }

  function LinesOf(x: Layout): seq<string> {
    x.before + ([HeaderText(x.a, x.braces, x.b, x.c)] + (x.empties + x.rest))
  }

  lemma {:induction false} FrontDropped(empties: seq<string>, rest: seq<string>)
    requires AllEmpty(empties) && (rest != [] ==> rest[0] != "")
    ensures DropFront(empties + rest) == rest
  {
    if empties == [] {
      assert empties + rest == rest;
    } else {
      assert (empties + rest)[1..] == empties[1..] + rest;
      FrontDropped(empties[1..], rest);
    }
  }

  lemma {:induction false} FrontShape(pieces: seq<string>) returns (empties: seq<string>)
    ensures AllEmpty(empties) && pieces == empties + DropFront(pieces)
    ensures DropFront(pieces) != [] ==> DropFront(pieces)[0] != ""
  {
    if pieces != [] && pieces[0] == "" {
      var more := FrontShape(pieces[1..]);
      empties := [""] + more;
      assert pieces == [pieces[0]] + pieces[1..];
    } else {
      empties := [];
      assert pieces == [] + pieces;
    }
  }

  // Its header is the first one, and found.
  lemma LayoutIsRead(x: Layout)
    requires Fillable(x)
    ensures FirstHeader(LinesOf(x)) == |x.before|
    ensures HeaderOf(LinesOf(x)[|x.before|]) == Some(Header(x.braces, x.c))
    ensures DropFront(LinesOf(x)[|x.before| + 1..]) == x.rest
  {
    var pieces, n := LinesOf(x), |x.before|;
    assert pieces[n] == HeaderText(x.a, x.braces, x.b, x.c);
    HeaderIsRead(x.a, x.braces, x.b, x.c);
    forall i | 0 <= i < n
      ensures HeaderOf(pieces[i]).None?
    {
      assert pieces[i] == x.before[i];
      HeaderMeans(pieces[i]);
    }
    assert pieces[n + 1..] == x.empties + x.rest;
    FrontDropped(x.empties, x.rest);
  }

  // An empty block is written anew, with the entry in it; empty lines below it go.
  lemma FilledCase(name: string, x: Layout)
    requires Fillable(x)
    ensures Edited(name, LinesOf(x))
            == x.before + ([if x.c == "" then "use_cases:" else "use_cases:  " + x.c]
                           + (["  " + name + ": {}"] + (if x.rest == [] then [""] else x.rest)))
  {
    LayoutIsRead(x);
    assert LinesOf(x)[..|x.before|] == x.before;
    assert KEY + "  " + x.c == "use_cases:  " + x.c;
  }

  ghost predicate EmptyBlockIn(pieces: seq<string>) { exists x :: Fillable(x) && LinesOf(x) == pieces }

  // That is done exactly when the text has this layout.
  lemma FilledWhen(pieces: seq<string>)
    ensures BranchOf(pieces) == FillEmpty <==> EmptyBlockIn(pieces)
  {
    if x :| Fillable(x) && LinesOf(x) == pieces {
      LayoutIsRead(x);
    }
    if BranchOf(pieces) == FillEmpty {
      var x := LayoutOf(pieces);
    }
  }

  lemma LayoutOf(pieces: seq<string>) returns (x: Layout)
    requires BranchOf(pieces) == FillEmpty
    ensures Fillable(x) && LinesOf(x) == pieces
  {
    var h := FirstHeader(pieces);
    var below := pieces[h + 1..];
    var a, braces, b, c := HeaderShape(pieces[h]);
    var empties := FrontShape(below);
    x := Layout(pieces[..h], a, braces, b, c, empties, DropFront(below));
    NoHeaderBefore(pieces, h);
    assert pieces == pieces[..h] + ([pieces[h]] + below);
  }

  lemma NoHeaderBefore(pieces: seq<string>, h: nat)
    requires h == FirstHeader(pieces)
    ensures forall i :: 0 <= i < |pieces[..h]| ==> !IsHeader(pieces[..h][i])
  {
    forall i | 0 <= i < h
      ensures !IsHeader(pieces[i])
    {
      HeaderMeans(pieces[i]);
    }
  }

  ghost predicate NoKey(lines: seq<string>) { forall i :: 0 <= i < |lines| ==> !("use_cases:" <= lines[i]) }

  // Lines of a block: indented or blank.
  ghost predicate BlockLine(l: string) { (l != "" && (l[0] == ' ' || l[0] == '\t')) || Blank(l) }

  ghost predicate BlockLines(lines: seq<string>) { forall i :: 0 <= i < |lines| ==> BlockLine(lines[i]) }

  lemma BlockLineMeans(l: string)
    ensures InBlock(l) <==> BlockLine(l)
  {
    BlankMeans(l);
  }

  lemma KeyIsFound(before: seq<string>, key: string, rest: seq<string>)
    requires NoKey(before) && "use_cases:" <= key
    ensures FirstKey(before + ([key] + rest)) == |before|
  {
    var pieces := before + ([key] + rest);
    assert pieces[|before|] == key;
    forall i | 0 <= i < |before|
      ensures !HasKey(pieces[i])
    {
      assert pieces[i] == before[i];
    }
  }

  lemma {:induction false} BlockIsScanned(front: seq<string>, block: seq<string>, rest: seq<string>)
    requires BlockLines(block) && |front| + |block| <= LineCount(front + (block + rest))
    requires |front| + |block| < LineCount(front + (block + rest)) ==> rest != [] && !BlockLine(rest[0])
    ensures BlockEnd(front + (block + rest), |front|) == |front| + |block|
    decreases |block|
  {
    var pieces := front + (block + rest);
    if block == [] {
      if |front| < LineCount(pieces) {
        assert pieces[|front|] == rest[0];
        BlockLineMeans(rest[0]);
      }
    } else {
      assert pieces[|front|] == block[0];
      BlockLineMeans(block[0]);
      assert pieces == (front + [block[0]]) + (block[1..] + rest);
      BlockIsScanned(front + [block[0]], block[1..], rest);
    }
  }

  lemma AppendedWhen(name: string, pieces: seq<string>)
    requires FirstKey(pieces) < |pieces| && !EmptyBlockIn(pieces)
    ensures FirstKey(pieces) < LineCount(pieces)
    ensures Edited(name, pieces) == Inserted(name, pieces, BlockEnd(pieces, FirstKey(pieces) + 1))
  {
    FilledWhen(pieces);
    KeyIsALine(pieces);
  }

  // Otherwise the entry goes below the block of the first key line, before the
  // first line that is not the block's or at the end of the text;
  lemma AppendedCase(name: string, before: seq<string>, key: string, block: seq<string>, rest: seq<string>)
    requires NoKey(before) && "use_cases:" <= key && BlockLines(block)
    requires rest == [""] || (rest != [] && !BlockLine(rest[0]))
    requires var pieces := before + ([key] + (block + rest));
             !EmptyBlockIn(pieces)
    ensures Edited(name, before + ([key] + (block + rest)))
            == before + ([key] + (block + (["  " + name + ": {}"] + rest)))
  {
    var pieces := before + ([key] + (block + rest));
    KeyIsFound(before, key, block + rest);
    AppendedWhen(name, pieces);
    BlockIsWhole(before, key, block, rest);
    EntryBetween(name, before, key, block, rest);
  }

  lemma BlockIsWhole(before: seq<string>, key: string, block: seq<string>, rest: seq<string>)
    requires BlockLines(block) && (rest == [""] || (rest != [] && !BlockLine(rest[0])))
    ensures var pieces := before + ([key] + (block + rest));
            && |before| + 1 <= LineCount(pieces)
            && BlockEnd(pieces, |before| + 1) == |before| + 1 + |block|
  {
    var pieces, front := before + ([key] + (block + rest)), before + [key];
    assert pieces == front + (block + rest);
    assert pieces[|pieces| - 1] == rest[|rest| - 1];
    BlockIsScanned(front, block, rest);
  }

  lemma EntryBetween(name: string, before: seq<string>, key: string, block: seq<string>, rest: seq<string>)
    requires rest != []
    ensures Inserted(name, before + ([key] + (block + rest)), |before| + 1 + |block|)
            == before + ([key] + (block + (["  " + name + ": {}"] + rest)))
  {
    Grouped(before, [key], block, rest);
    Grouped(before, [key], block, [Entry(name)] + rest);
    InsertedAfter(name, before + ([key] + block), rest);
  }

  lemma Grouped(a: seq<string>, b: seq<string>, c: seq<string>, d: seq<string>)
    ensures a + (b + (c + d)) == (a + (b + c)) + d
  {
  }

  lemma InsertedAfter(name: string, front: seq<string>, rest: seq<string>)
    requires rest != []
    ensures Inserted(name, front + rest, |front|) == front + ([Entry(name)] + rest)
  {
    assert (front + rest)[..|front|] == front && (front + rest)[|front|..] == rest;
  }

  // where, if no newline ends it, it is glued to the last line.
  lemma GluedCase(name: string, before: seq<string>, key: string, block: seq<string>)
    requires NoKey(before) && "use_cases:" <= key && BlockLines(block)
    requires block != [] ==> block[|block| - 1] != ""
    requires var pieces := before + ([key] + block);
             !EmptyBlockIn(pieces)
    ensures var pieces := before + ([key] + block);
            Edited(name, pieces)
            == pieces[..|pieces| - 1] + [pieces[|pieces| - 1] + ("  " + name + ": {}"), ""]
  {
    var pieces := before + ([key] + block);
    KeyIsFound(before, key, block);
    AppendedWhen(name, pieces);
    BlockRunsOut(before, key, block);
  }

  lemma BlockRunsOut(before: seq<string>, key: string, block: seq<string>)
    requires "use_cases:" <= key && BlockLines(block) && (block != [] ==> block[|block| - 1] != "")
    ensures var pieces := before + ([key] + block);
            LineCount(pieces) == |pieces| && BlockEnd(pieces, |before| + 1) == |pieces|
  {
    var pieces, front := before + ([key] + block), before + [key];
    KeyLine(key);
    assert pieces == front + (block + []);
    assert pieces[|pieces| - 1] == if block == [] then key else block[|block| - 1];
    BlockIsScanned(front, block, []);
  }

  lemma {:induction false} BackDropped(body: seq<string>, empties: seq<string>)
    requires AllEmpty(empties) && (body != [] ==> body[|body| - 1] != "")
    ensures DropBack(body + empties) == body
    decreases |empties|
  {
    var n := |empties| - 1;
    if n < 0 {
      assert body + empties == body;
    } else {
      assert (body + empties)[..|body| + n] == body + empties[..n];
      BackDropped(body, empties[..n]);
    }
  }

  // A text without the key gets a block of its own at its end.
  lemma AddedCase(name: string, body: seq<string>, empties: seq<string>)
    requires NoKey(body) && AllEmpty(empties) && (body != [] ==> body[|body| - 1] != "") && body + empties != []
    ensures Edited(name, body + empties)
            == (if body == [] then [""] else body) + ["use_cases:", "  " + name + ": {}", ""]
  {
    var pieces := body + empties;
    forall i | 0 <= i < |pieces|
      ensures !HasKey(pieces[i]) && HeaderOf(pieces[i]).None?
    {
      assert i < |body| ==> pieces[i] == body[i];
      assert i >= |body| ==> pieces[i] == "";
    }
    BackDropped(body, empties);
  }
}
