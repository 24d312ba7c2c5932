// Adding a use case to platform.yaml as text, so that its comments survive. A text
// is the pieces between its newlines; the last piece is empty when it ends in one.

module ManifestEdit {
  import opened Text

  const KEY: string := "use_cases:"

  predicate HasKey(l: string) { KEY <= l }

  lemma KeyLine(l: string)
    requires HasKey(l)
    ensures l != "" && l[0] == 'u' && !BlankLine(l)
  {
    assert KEY[0] == 'u';
  }

  // What a use case may be called, as far as the edit goes: no whitespace.
  predicate GoodName(name: string) {
    name != "" && forall i :: 0 <= i < |name| ==> !IsSpace(name[i])
  }

  function Entry(name: string): string { "  " + name + ": {}" }

  // ---- The three patterns, line by line -------------------------------------------------

  predicate BlankLine(l: string) { LStrip(l) == "" }

  // ^\s+<name>: ; the whitespace may begin on a blank line before.
  predicate NamedAt(name: string, pieces: seq<string>, j: nat)
    requires j < |pieces|
  {
    && name + ":" <= LStrip(pieces[j])
    && (IsSpace(pieces[j][0]) || (j > 0 && BlankLine(pieces[j - 1])))
  }

  predicate Named(name: string, pieces: seq<string>) {
    exists j: nat :: j < |pieces| && NamedAt(name, pieces, j)
  }

  function SkipBlanks(s: string): string {
    if s != "" && (s[0] == ' ' || s[0] == '\t') then SkipBlanks(s[1..]) else s
  }

  datatype Header = Header(braces: bool, comment: string)

  // ^use_cases:[ \t]*(\{\}|)[ \t]*(#.*)?$
  function HeaderOf(l: string): Option<Header> {
    if HasKey(l) then
      var r := SkipBlanks(l[|KEY|..]);
      var braces := "{}" <= r;
      var rest := SkipBlanks(if braces then r[2..] else r);
      if rest == "" || rest[0] == '#' then Some(Header(braces, rest)) else None
    else None
  }

  // ---- The edit ------------------------------------------------------------------------------

  function Respaced(h: Header): string {
    if h.comment == "" then KEY else KEY + "  " + h.comment
  }

  function HeaderFrom(pieces: seq<string>, i: nat): (r: nat)
    requires i <= |pieces|
    ensures i <= r <= |pieces| && (r < |pieces| ==> HeaderOf(pieces[r]).Some?)
    ensures forall k :: i <= k < r ==> HeaderOf(pieces[k]).None?
    decreases |pieces| - i
  {
    if i == |pieces| || HeaderOf(pieces[i]).Some? then i else HeaderFrom(pieces, i + 1)
  }

  function KeyFrom(pieces: seq<string>, i: nat): (r: nat)
    requires i <= |pieces|
    ensures i <= r <= |pieces| && (r < |pieces| ==> HasKey(pieces[r]))
    ensures forall k :: i <= k < r ==> !HasKey(pieces[k])
    decreases |pieces| - i
  {
    if i == |pieces| || HasKey(pieces[i]) then i else KeyFrom(pieces, i + 1)
  }

  function FirstHeader(pieces: seq<string>): nat { HeaderFrom(pieces, 0) }

  function FirstKey(pieces: seq<string>): nat { KeyFrom(pieces, 0) }

  // text.lstrip("\n") and text.rstrip("\n"), on pieces.
  function DropFront(pieces: seq<string>): seq<string> {
    if pieces != [] && pieces[0] == "" then DropFront(pieces[1..]) else pieces
  }

  function DropBack(pieces: seq<string>): seq<string> {
    if pieces != [] && pieces[|pieces| - 1] == "" then DropBack(pieces[..|pieces| - 1]) else pieces
  }

  function AtLeastOne(pieces: seq<string>): seq<string> { if pieces == [] then [""] else pieces }

  predicate Indented(l: string) { l != "" && (l[0] == ' ' || l[0] == '\t') }

  // The header stands for an empty block, to be given its first entry.
  predicate EmptyBlock(pieces: seq<string>, h: nat)
    requires h < |pieces| && HeaderOf(pieces[h]).Some?
  {
    var following := DropFront(pieces[h + 1..]);
    HeaderOf(pieces[h]).value.braces || following == [] || !Indented(following[0])
  }

  // The pieces that are lines: all but an empty last one.
  function LineCount(pieces: seq<string>): (n: nat)
    ensures n <= |pieces| <= n + 1
  {
    if pieces != [] && pieces[|pieces| - 1] == "" then |pieces| - 1 else |pieces|
  }

  predicate InBlock(l: string) { Indented(l) || BlankLine(l) }

  // One past the indented and blank lines from `i` on.
  function BlockEnd(pieces: seq<string>, i: nat): (e: nat)
    requires i <= LineCount(pieces)
    ensures i <= e <= LineCount(pieces)
    ensures forall k :: i <= k < e ==> InBlock(pieces[k])
    ensures e < LineCount(pieces) ==> !InBlock(pieces[e])
    decreases LineCount(pieces) - i
  {
    if i < LineCount(pieces) && InBlock(pieces[i]) then BlockEnd(pieces, i + 1) else i
  }

  // The populated block of the first key line, if any, runs into a last line
  // that no newline ends.
  predicate RunsOut(pieces: seq<string>) {
    var k := FirstKey(pieces);
    k < LineCount(pieces) && BlockEnd(pieces, k + 1) == |pieces|
  }

  datatype Branch = FillEmpty | AppendToBlock | AddBlock

  function BranchOf(pieces: seq<string>): Branch {
    var h := FirstHeader(pieces);
    if h < |pieces| && EmptyBlock(pieces, h) then FillEmpty
    else if FirstKey(pieces) < |pieces| then AppendToBlock
    else AddBlock
  }

  // The header re-spaced, the entry under it, the empty lines after it dropped.
  function Filled(name: string, pieces: seq<string>, h: nat): seq<string>
    requires h < |pieces| && HeaderOf(pieces[h]).Some?
  {
    pieces[..h] + ([Respaced(HeaderOf(pieces[h]).value)] + ([Entry(name)] + AtLeastOne(DropFront(pieces[h + 1..]))))
  }

  // lines.insert(e, entry), the entry bringing its own newline.
  function Inserted(name: string, pieces: seq<string>, e: nat): seq<string>
    requires pieces != [] && e <= |pieces|
  {
    if e < |pieces| then pieces[..e] + ([Entry(name)] + pieces[e..])
    else pieces[..e - 1] + [pieces[e - 1] + Entry(name), ""]
  }

  // A block of its own at the end.
  function Added(name: string, pieces: seq<string>): seq<string> {
    AtLeastOne(DropBack(pieces)) + ([KEY] + ([Entry(name)] + [""]))
  }

  // The edited text, when the name is not there yet.
  function Edited(name: string, pieces: seq<string>): seq<string>
    requires pieces != []
  {
    match BranchOf(pieces)
    case FillEmpty => Filled(name, pieces, FirstHeader(pieces))
    case AppendToBlock =>
      KeyIsALine(pieces);
      Inserted(name, pieces, BlockEnd(pieces, FirstKey(pieces) + 1))
    case AddBlock => Added(name, pieces)
  }

  lemma KeyIsALine(pieces: seq<string>)
    requires FirstKey(pieces) < |pieces|
    ensures FirstKey(pieces) < LineCount(pieces)
  {
    KeyLine(pieces[FirstKey(pieces)]);
  }

  // The scan for the end of a block.
  method ScanBlock(pieces: seq<string>, start: nat) returns (end: nat)
    requires start <= LineCount(pieces)
    ensures end == BlockEnd(pieces, start)
  {
    end := start;
    while end < LineCount(pieces) && InBlock(pieces[end])
      invariant start <= end <= LineCount(pieces)
      invariant BlockEnd(pieces, start) == BlockEnd(pieces, end)
    {
      end := end + 1;
    }
  }

  // None: the text already names the use case.
  method EnableInManifest(name: string, text: string) returns (r: Option<string>)
    ensures r.None? <==> Named(name, Split(text, '\n'))
    ensures r.Some? ==> r.value == Join(Edited(name, Split(text, '\n')), "\n")
  {
    var pieces := Split(text, '\n');
    if Named(name, pieces) {
      return None;
    }
    var h := FirstHeader(pieces);
    if h < |pieces| && EmptyBlock(pieces, h) {
      return Some(Join(Filled(name, pieces, h), "\n"));
    }
    var k := FirstKey(pieces);
    if k < |pieces| {
      KeyIsALine(pieces);
      var end := ScanBlock(pieces, k + 1);
      return Some(Join(Inserted(name, pieces, end), "\n"));
    }
    r := Some(Join(Added(name, pieces), "\n"));
  }

  // ---- Where the entry lands ---------------------------------------------------------------------

  // A line of its own, under a key line, with only blank or indented lines between.
  ghost predicate EntryInBlock(name: string, pieces: seq<string>) {
    exists h: nat, e: nat :: h < e < |pieces| && HasKey(pieces[h]) && pieces[e] == Entry(name)
                        && forall i :: h < i < e ==> InBlock(pieces[i])
  }

  lemma RespacedHasKey(h: Header)
    ensures HasKey(Respaced(h))
  {
  }

  lemma EntryLandsInBlock(name: string, pieces: seq<string>)
    requires pieces != [] && (BranchOf(pieces) == AppendToBlock ==> !RunsOut(pieces))
    ensures EntryInBlock(name, Edited(name, pieces))
  {
    var done := Edited(name, pieces);
    match BranchOf(pieces)
    case FillEmpty =>
      var h := FirstHeader(pieces);
      RespacedHasKey(HeaderOf(pieces[h]).value);
      assert done[h] == Respaced(HeaderOf(pieces[h]).value) && done[h + 1] == Entry(name);
    case AppendToBlock =>
      KeyIsALine(pieces);
      var k := FirstKey(pieces);
      var e := BlockEnd(pieces, k + 1);
      assert done[k] == pieces[k] && done[e] == Entry(name);
      assert forall i :: k < i < e ==> done[i] == pieces[i];
    case AddBlock =>
      var n := |AtLeastOne(DropBack(pieces))|;
      assert done[n] == KEY && done[n + 1] == Entry(name);
  }

  // ---- The second run ------------------------------------------------------------------------------

  lemma EntryText(name: string)
    requires GoodName(name)
    ensures LStrip(Entry(name)) == name + ": {}"
  {
    var rest := name + ": {}";
    assert Entry(name)[1..] == " " + rest && Entry(name)[1..][1..] == rest;
    assert IsSpace(' ') && rest[0] == name[0];
    assert LStrip(Entry(name)) == LStrip(" " + rest) == LStrip(rest) == rest;
  }

  lemma EntryNames(name: string)
    requires GoodName(name)
    ensures name + ":" <= LStrip(Entry(name)) && IsSpace(Entry(name)[0])
  {
    EntryText(name);
    assert name + ": {}" == name + ":" + " {}" && IsSpace(' ');
  }

  lemma EntryIsFound(name: string, pieces: seq<string>)
    requires GoodName(name) && EntryInBlock(name, pieces)
    ensures Named(name, pieces)
  {
    var h: nat, e: nat :| h < e < |pieces| && HasKey(pieces[h]) && pieces[e] == Entry(name)
                     && forall i :: h < i < e ==> InBlock(pieces[i]);
    EntryNames(name);
    assert NamedAt(name, pieces, e);
  }

  lemma {:induction false} LStripAppend(a: string, b: string)
    ensures LStrip(a + b) == if LStrip(a) == "" then LStrip(b) else LStrip(a) + b
  {
    if a == "" {
      assert a + b == b;
    } else {
      assert (a + b)[1..] == a[1..] + b;
      if IsSpace(a[0]) {
        LStripAppend(a[1..], b);
      }
    }
  }

  // What begins with a space completes no prefix.
  lemma NotCompleted(name: string, l: string, b: string)
    requires GoodName(name) && b != "" && b[0] == ' ' && name + ":" <= l + b
    ensures name + ":" <= l
  {
    var p := name + ":";
    assert IsSpace(' ') && (l + b)[|l|] == ' ';
    assert forall i :: 0 <= i < |p| ==> p[i] == (l + b)[i] != ' ';
    assert |p| <= |l|;
    assert p == (l + b)[..|p|] == l[..|p|];
  }

  // Run again on its own result, the edit changes nothing; except that an entry
  // glued to an unterminated last line is not recognised.
  lemma SecondRunChangesNothing(name: string, pieces: seq<string>)
    requires GoodName(name) && pieces != [] && !Named(name, pieces)
    ensures Named(name, Edited(name, pieces))
            <==> !(BranchOf(pieces) == AppendToBlock && RunsOut(pieces) && !BlankLine(pieces[|pieces| - 1]))
  {
    if BranchOf(pieces) == AppendToBlock && RunsOut(pieces) {
      GluedEntry(name, pieces);
    } else {
      EntryLandsInBlock(name, pieces);
      EntryIsFound(name, Edited(name, pieces));
    }
  }

  lemma GluedEntry(name: string, pieces: seq<string>)
    requires GoodName(name) && pieces != [] && !Named(name, pieces)
    requires BranchOf(pieces) == AppendToBlock && RunsOut(pieces)
    ensures Edited(name, pieces) == pieces[..|pieces| - 1] + [pieces[|pieces| - 1] + Entry(name), ""]
    ensures Named(name, Edited(name, pieces)) <==> BlankLine(pieces[|pieces| - 1])
  {
    var n := |pieces| - 1;
    var tail, done := pieces[n], Edited(name, pieces);
    assert tail != "" && done[n] == tail + Entry(name);
    LStripAppend(tail, Entry(name));
    EntryNames(name);
    if BlankLine(tail) {
      assert NamedAt(name, done, n);
    } else {
      forall j: nat | j < |done|
        ensures !NamedAt(name, done, j)
      {
        NotGlued(name, pieces, done, j);
      }
    }
  }

  lemma NotGlued(name: string, pieces: seq<string>, done: seq<string>, j: nat)
    requires GoodName(name) && pieces != [] && !Named(name, pieces) && j < |done|
    requires var n := |pieces| - 1;
             pieces[n] != "" && !BlankLine(pieces[n]) && done == pieces[..n] + [pieces[n] + Entry(name), ""]
    ensures !NamedAt(name, done, j)
  {
    var n := |pieces| - 1;
    if j < n {
      assert done[j] == pieces[j] && !NamedAt(name, pieces, j);
      assert j > 0 ==> done[j - 1] == pieces[j - 1];
    } else if j == n {
      assert !NamedAt(name, pieces, n);
      assert j > 0 ==> done[j - 1] == pieces[j - 1];
      LStripAppend(pieces[n], Entry(name));
      if name + ":" <= LStrip(pieces[n]) + Entry(name) {
        NotCompleted(name, LStrip(pieces[n]), Entry(name));
      }
    } else {
      assert done[j] == "" && LStrip("") == "";
    }
  }

  // ---- What is kept -----------------------------------------------------------------------------------

  // A header line may be re-spaced; nothing else about a line may change.
  function Essence(l: string): string {
    if HeaderOf(l).Some? then Respaced(HeaderOf(l).value) else l
  }

  // The lines that are not blank, in order.
  function Essentials(pieces: seq<string>): seq<string> {
    if pieces == [] then []
    else (if BlankLine(pieces[0]) then [] else [Essence(pieces[0])]) + Essentials(pieces[1..])
  }

  lemma {:induction false} EssentialsConcat(a: seq<string>, b: seq<string>)
    ensures Essentials(a + b) == Essentials(a) + Essentials(b)
  {
    if a == [] {
      assert a + b == b;
    } else {
      assert (a + b)[1..] == a[1..] + b;
      EssentialsConcat(a[1..], b);
      var head := if BlankLine(a[0]) then [] else [Essence(a[0])];
      assert head + (Essentials(a[1..]) + Essentials(b)) == (head + Essentials(a[1..])) + Essentials(b);
    }
  }

  lemma {:induction false} DropFrontKeeps(pieces: seq<string>)
    ensures Essentials(DropFront(pieces)) == Essentials(pieces)
  {
    if pieces != [] && pieces[0] == "" {
      DropFrontKeeps(pieces[1..]);
      assert BlankLine(pieces[0]);
      assert [] + Essentials(pieces[1..]) == Essentials(pieces[1..]);
    }
  }

  lemma {:induction false} DropBackKeeps(pieces: seq<string>)
    ensures Essentials(DropBack(pieces)) == Essentials(pieces)
  {
    if pieces != [] && pieces[|pieces| - 1] == "" {
      var init := pieces[..|pieces| - 1];
      DropBackKeeps(init);
      assert pieces == init + [""];
      EssentialsConcat(init, [""]);
      assert BlankLine("") && [""][1..] == [];
    }
  }

  lemma AtLeastOneKeeps(pieces: seq<string>)
    ensures Essentials(AtLeastOne(pieces)) == Essentials(pieces)
  {
    assert BlankLine("") && [""][1..] == [];
  }

  lemma EssentialsOne(l: string)
    ensures Essentials([l]) == if BlankLine(l) then [] else [Essence(l)]
  {
    assert [l][1..] == [];
  }

  lemma EntryIsEssential(name: string)
    requires GoodName(name)
    ensures !BlankLine(Entry(name)) && Essence(Entry(name)) == Entry(name)
  {
    EntryNames(name);
    assert Entry(name)[0] == ' ' && KEY[0] == 'u';
  }

  lemma SkipBlanksSpaces(c: string)
    requires c != "" && c[0] == '#'
    ensures SkipBlanks("  " + c) == c && SkipBlanks(c) == c
  {
    assert ("  " + c)[1..] == " " + c && (" " + c)[1..] == c;
    assert SkipBlanks(" " + c) == SkipBlanks(c) == c;
  }

  lemma RespacedIsAHeader(h: Header)
    requires h.comment == "" || h.comment[0] == '#'
    ensures HeaderOf(Respaced(h)) == Some(Header(false, h.comment))
  {
    var l := Respaced(h);
    if h.comment == "" {
      assert l[|KEY|..] == "";
    } else {
      assert l[|KEY|..] == "  " + h.comment;
      SkipBlanksSpaces(h.comment);
    }
  }

  lemma HeaderComment(l: string)
    requires HeaderOf(l).Some?
    ensures var c := HeaderOf(l).value.comment; c == "" || c[0] == '#'
    ensures !BlankLine(l)
  {
    KeyLine(l);
  }

  lemma EssenceRespaced(l: string)
    requires HeaderOf(l).Some?
    ensures Essence(Respaced(HeaderOf(l).value)) == Essence(l) && !BlankLine(Respaced(HeaderOf(l).value))
  {
    HeaderComment(l);
    RespacedIsAHeader(HeaderOf(l).value);
    HeaderComment(Respaced(HeaderOf(l).value));
  }

  // Every line that is not blank is kept, in order, with the entry put in
  // somewhere among them.
  ghost predicate KeptWithOneMore(before: seq<string>, after: seq<string>, entry: string) {
    exists k :: 0 <= k <= |before| && after == before[..k] + [entry] + before[k..]
  }

  lemma FillKeeps(name: string, pieces: seq<string>)
    requires GoodName(name) && pieces != [] && BranchOf(pieces) == FillEmpty
    ensures KeptWithOneMore(Essentials(pieces), Essentials(Edited(name, pieces)), Entry(name))
  {
    var h := FirstHeader(pieces);
    var header := Respaced(HeaderOf(pieces[h]).value);
    var front, back := pieces[..h], pieces[h + 1..];
    var rest := AtLeastOne(DropFront(back));
    assert pieces == front + ([pieces[h]] + back);
    EssentialsConcat(front, [pieces[h]] + back);
    EssentialsConcat([pieces[h]], back);
    assert Edited(name, pieces) == Filled(name, pieces, h) == front + ([header] + ([Entry(name)] + rest));
    EssentialsConcat(front, [header] + ([Entry(name)] + rest));
    EssentialsConcat([header], [Entry(name)] + rest);
    EssentialsConcat([Entry(name)], rest);
    DropFrontKeeps(back);
    AtLeastOneKeeps(DropFront(back));
    EssentialsOne(pieces[h]);
    EssentialsOne(header);
    EssentialsOne(Entry(name));
    HeaderComment(pieces[h]);
    EssenceRespaced(pieces[h]);
    EntryIsEssential(name);
    PutAfter(Essentials(front), Essence(header), Essentials(back), Entry(name));
  }

  lemma PutAfter(a: seq<string>, x: string, b: seq<string>, entry: string)
    ensures KeptWithOneMore(a + ([x] + b), a + ([x] + ([entry] + b)), entry)
  {
    var before := a + ([x] + b);
    assert before[..|a| + 1] == a + [x] && before[|a| + 1..] == b;
    assert a + ([x] + ([entry] + b)) == before[..|a| + 1] + [entry] + before[|a| + 1..];
  }

  lemma InsertKeeps(name: string, pieces: seq<string>, e: nat)
    requires GoodName(name) && e < |pieces|
    ensures KeptWithOneMore(Essentials(pieces), Essentials(Inserted(name, pieces, e)), Entry(name))
  {
    assert pieces == pieces[..e] + pieces[e..];
    OneMoreBetween(name, pieces[..e], pieces[e..]);
  }

  lemma OneMoreBetween(name: string, front: seq<string>, back: seq<string>)
    requires GoodName(name)
    ensures KeptWithOneMore(Essentials(front + back), Essentials(front + ([Entry(name)] + back)), Entry(name))
  {
    EssentialsConcat(front, back);
    EssentialsConcat(front, [Entry(name)] + back);
    EssentialsConcat([Entry(name)], back);
    EssentialsOne(Entry(name));
    EntryIsEssential(name);
    PutBetween(Essentials(front), Essentials(back), Entry(name));
  }

  lemma PutBetween(a: seq<string>, b: seq<string>, entry: string)
    ensures KeptWithOneMore(a + b, a + ([entry] + b), entry)
  {
    var before := a + b;
    assert before[..|a|] == a && before[|a|..] == b;
    assert a + ([entry] + b) == before[..|a|] + [entry] + before[|a|..];
  }

  lemma BlockIsEssential(name: string)
    requires GoodName(name)
    ensures Essentials([KEY] + ([Entry(name)] + [""])) == [KEY, Entry(name)]
  {
    EssentialsConcat([KEY], [Entry(name)] + [""]);
    EssentialsConcat([Entry(name)], [""]);
    EssentialsOne(KEY);
    EssentialsOne(Entry(name));
    EssentialsOne("");
    EntryIsEssential(name);
    RespacedIsAHeader(Header(false, ""));
    HeaderComment(KEY);
    assert BlankLine("");
  }

  lemma AddKeeps(name: string, pieces: seq<string>)
    requires GoodName(name) && pieces != [] && BranchOf(pieces) == AddBlock
    ensures Essentials(Edited(name, pieces)) == Essentials(pieces) + [KEY, Entry(name)]
  {
    var base := AtLeastOne(DropBack(pieces));
    DropBackKeeps(pieces);
    AtLeastOneKeeps(DropBack(pieces));
    EssentialsConcat(base, [KEY] + ([Entry(name)] + [""]));
    BlockIsEssential(name);
  }

  // The edit loses and reorders nothing: every line that is not blank is still
  // there, only a header may be re-spaced, and only the entry, under a key line
  // where there was none, is new.
  lemma EditKeepsEveryLine(name: string, pieces: seq<string>)
    requires GoodName(name) && pieces != [] && (BranchOf(pieces) == AppendToBlock ==> !RunsOut(pieces))
    ensures BranchOf(pieces) != AddBlock ==>
              KeptWithOneMore(Essentials(pieces), Essentials(Edited(name, pieces)), Entry(name))
    ensures BranchOf(pieces) == AddBlock ==>
              Essentials(Edited(name, pieces)) == Essentials(pieces) + [KEY, Entry(name)]
  {
    match BranchOf(pieces)
    case FillEmpty => FillKeeps(name, pieces);
    case AppendToBlock =>
      KeyIsALine(pieces);
      InsertKeeps(name, pieces, BlockEnd(pieces, FirstKey(pieces) + 1));
    case AddBlock => AddKeeps(name, pieces);
  }

  // The one case in which neither is so: the block runs out, and the entry is
  // written on the unterminated last line.
  lemma RunsOutGlues(name: string, pieces: seq<string>)
    requires pieces != [] && BranchOf(pieces) == AppendToBlock && RunsOut(pieces)
    ensures var n := |pieces| - 1;
            pieces[n] != "" && Edited(name, pieces) == pieces[..n] + [pieces[n] + Entry(name), ""]
  {
  }

  lemma NoEntryYet(name: string, pieces: seq<string>, l: string)
    requires GoodName(name) && !Named(name, pieces) && l in pieces
    ensures l != Entry(name) && Essence(l) != Entry(name)
  {
    EntryNames(name);
    var j: nat :| j < |pieces| && pieces[j] == l;
    assert !NamedAt(name, pieces, j);
    assert Entry(name)[0] == ' ' && KEY[0] == 'u';
    if HeaderOf(l).Some? {
      RespacedHasKey(HeaderOf(l).value);
    }
  }

  // The entry stands in the block on a line of its own exactly when the edit does
  // not run out.
  lemma EntryLandsInBlockIff(name: string, pieces: seq<string>)
    requires GoodName(name) && pieces != [] && !Named(name, pieces)
    ensures EntryInBlock(name, Edited(name, pieces)) <==> !(BranchOf(pieces) == AppendToBlock && RunsOut(pieces))
  {
    if BranchOf(pieces) == AppendToBlock && RunsOut(pieces) {
      RunsOutGlues(name, pieces);
      var n, done := |pieces| - 1, Edited(name, pieces);
      forall e: nat | e < |done|
        ensures done[e] != Entry(name)
      {
        if e < n {
          NoEntryYet(name, pieces, pieces[e]);
        } else if e == n {
          assert |done[n]| == |pieces[n]| + |Entry(name)|;
        }
      }
    } else {
      EntryLandsInBlock(name, pieces);
    }
  }

  lemma {:induction false} EssentialsFrom(pieces: seq<string>, x: string)
    requires x in Essentials(pieces)
    ensures exists l :: l in pieces && Essence(l) == x
  {
    if !BlankLine(pieces[0]) && Essence(pieces[0]) == x {
      assert pieces[0] in pieces;
    } else {
      EssentialsFrom(pieces[1..], x);
      var l :| l in pieces[1..] && Essence(l) == x;
      assert l in pieces;
    }
  }

  // Every line is kept and the entry is the one more line exactly when the edit
  // does not run out; when it does, the last line is lost to the entry.
  lemma EditKeepsEveryLineIff(name: string, pieces: seq<string>)
    requires GoodName(name) && pieces != [] && !Named(name, pieces) && BranchOf(pieces) != AddBlock
    ensures KeptWithOneMore(Essentials(pieces), Essentials(Edited(name, pieces)), Entry(name))
            <==> !(BranchOf(pieces) == AppendToBlock && RunsOut(pieces))
    ensures BranchOf(pieces) == AppendToBlock && RunsOut(pieces) ==>
              var n := |pieces| - 1;
              Essentials(Edited(name, pieces)) == Essentials(pieces[..n]) + [Essence(pieces[n] + Entry(name))]
  {
    if BranchOf(pieces) == AppendToBlock && RunsOut(pieces) {
      RunsOutGlues(name, pieces);
      GluedEssentials(name, pieces);
      NotKept(name, pieces);
    } else {
      EditKeepsEveryLine(name, pieces);
    }
  }

  lemma GluedTail(name: string, tail: string)
    requires GoodName(name)
    ensures Essentials([tail + Entry(name), ""]) == [Essence(tail + Entry(name))]
  {
    var glued := tail + Entry(name);
    LStripAppend(tail, Entry(name));
    EntryIsEssential(name);
    assert LStrip(glued) != "";
    EssentialsOne("");
    assert [glued, ""][1..] == [""];
  }

  lemma GluedEssentials(name: string, pieces: seq<string>)
    requires GoodName(name) && pieces != []
    ensures var n := |pieces| - 1;
            && Essentials(pieces) == Essentials(pieces[..n]) + Essentials([pieces[n]])
            && Essentials(pieces[..n] + [pieces[n] + Entry(name), ""])
               == Essentials(pieces[..n]) + [Essence(pieces[n] + Entry(name))]
  {
    var n := |pieces| - 1;
    assert pieces == pieces[..n] + [pieces[n]];
    EssentialsConcat(pieces[..n], [pieces[n]]);
    EssentialsConcat(pieces[..n], [pieces[n] + Entry(name), ""]);
    GluedTail(name, pieces[n]);
  }

  lemma NotKept(name: string, pieces: seq<string>)
    requires GoodName(name) && pieces != [] && !Named(name, pieces) && pieces[|pieces| - 1] != ""
    ensures !KeptWithOneMore(Essentials(pieces),
                             Essentials(pieces[..|pieces| - 1] + [pieces[|pieces| - 1] + Entry(name), ""]), Entry(name))
  {
    var n := |pieces| - 1;
    var tail := pieces[n];
    var before, after := Essentials(pieces), Essentials(pieces[..n] + [tail + Entry(name), ""]);
    GluedEssentials(name, pieces);
    EssentialsOne(tail);
    if k :| 0 <= k <= |before| && after == before[..k] + [Entry(name)] + before[k..] {
      assert |after| == |before| + 1 && after[k] == Entry(name);
      assert BlankLine(tail);
      BlankIsNoKey(tail, Entry(name));
      if k < |after| - 1 {
        assert after[k] in Essentials(pieces[..n]);
        EssentialsFrom(pieces[..n], Entry(name));
        var l :| l in pieces[..n] && Essence(l) == Entry(name);
        NoEntryYet(name, pieces, l);
      }
    }
  }

  lemma BlankIsNoKey(tail: string, more: string)
    requires tail != "" && BlankLine(tail)
    ensures Essence(tail + more) == tail + more
  {
    assert IsSpace(tail[0]) && KEY[0] == 'u';
    assert (tail + more)[0] == tail[0];
  }

  // A text that ends in a newline cannot run out.
  lemma NewlineIsEnough(pieces: seq<string>)
    requires pieces != [] && pieces[|pieces| - 1] == ""
    ensures !RunsOut(pieces)
  {
  }

  // ---- From lines back to text -------------------------------------------------------------------

  ghost predicate NoNewline(pieces: seq<string>) { forall i :: 0 <= i < |pieces| ==> '\n' !in pieces[i] }

  lemma {:induction false} SkipBlanksSuffix(s: string)
    requires '\n' !in s
    ensures '\n' !in SkipBlanks(s)
  {
    if s != "" && (s[0] == ' ' || s[0] == '\t') {
      SkipBlanksSuffix(s[1..]);
    }
  }

  lemma RespacedIsOneLine(l: string)
    requires HeaderOf(l).Some? && '\n' !in l
    ensures '\n' !in Respaced(HeaderOf(l).value)
  {
    SkipBlanksSuffix(l[|KEY|..]);
    var r := SkipBlanks(l[|KEY|..]);
    SkipBlanksSuffix(if "{}" <= r then r[2..] else r);
    assert '\n' !in KEY;
  }

  lemma EntryIsOneLine(name: string)
    requires GoodName(name)
    ensures '\n' !in Entry(name)
  {
    assert IsSpace('\n');
  }

  lemma {:induction false} DropFrontIsSuffix(pieces: seq<string>)
    requires NoNewline(pieces)
    ensures NoNewline(DropFront(pieces))
  {
    if pieces != [] && pieces[0] == "" {
      DropFrontIsSuffix(pieces[1..]);
    }
  }

  lemma {:induction false} DropBackIsPrefix(pieces: seq<string>)
    requires NoNewline(pieces)
    ensures NoNewline(DropBack(pieces))
  {
    if pieces != [] && pieces[|pieces| - 1] == "" {
      DropBackIsPrefix(pieces[..|pieces| - 1]);
    }
  }

  lemma FilledHasNoNewline(name: string, pieces: seq<string>, h: nat)
    requires GoodName(name) && NoNewline(pieces) && h < |pieces| && HeaderOf(pieces[h]).Some?
    ensures NoNewline(Filled(name, pieces, h))
  {
    EntryIsOneLine(name);
    RespacedIsOneLine(pieces[h]);
    DropFrontIsSuffix(pieces[h + 1..]);
  }

  lemma InsertedHasNoNewline(name: string, pieces: seq<string>, e: nat)
    requires GoodName(name) && NoNewline(pieces) && pieces != [] && e <= |pieces|
    ensures NoNewline(Inserted(name, pieces, e))
  {
    EntryIsOneLine(name);
  }

  lemma AddedHasNoNewline(name: string, pieces: seq<string>)
    requires GoodName(name) && NoNewline(pieces)
    ensures NoNewline(Added(name, pieces))
  {
    EntryIsOneLine(name);
    DropBackIsPrefix(pieces);
    assert '\n' !in KEY;
  }

  lemma EditedHasNoNewline(name: string, pieces: seq<string>)
    requires GoodName(name) && pieces != [] && NoNewline(pieces)
    ensures NoNewline(Edited(name, pieces)) && Edited(name, pieces) != []
  {
    match BranchOf(pieces)
    case FillEmpty => FilledHasNoNewline(name, pieces, FirstHeader(pieces));
    case AppendToBlock =>
      KeyIsALine(pieces);
      InsertedHasNoNewline(name, pieces, BlockEnd(pieces, FirstKey(pieces) + 1));
    case AddBlock => AddedHasNoNewline(name, pieces);
  }

  lemma SplitHasNoNewline(text: string)
    ensures NoNewline(Split(text, '\n'))
  {
    SplitPiecesLackSeparator(text, '\n');
  }

  // The whole round, on text: running the edit on what it wrote finds the use case
  // named, unless the populated block ran into an unterminated last line.
  lemma SecondRunOnText(name: string, text: string)
    requires GoodName(name) && !Named(name, Split(text, '\n'))
    ensures var pieces := Split(text, '\n');
            Named(name, Split(Join(Edited(name, pieces), "\n"), '\n'))
            <==> !(BranchOf(pieces) == AppendToBlock && RunsOut(pieces) && !BlankLine(pieces[|pieces| - 1]))
  {
    var pieces := Split(text, '\n');
    SplitHasNoNewline(text);
    EditedHasNoNewline(name, pieces);
    assert "\n" == ['\n'];
    SplitJoin(Edited(name, pieces), '\n');
    SecondRunChangesNothing(name, pieces);
  }

  // One such text: a populated block that ends without a newline.
  lemma UnterminatedBlockRunsOut(name: string, other: string)
    requires GoodName(name) && GoodName(other) && name != other && ':' !in name && ':' !in other
    ensures var text := KEY + "\n" + Entry(other); var pieces := Split(text, '\n');
            && !Named(name, pieces)
            && !Named(name, Split(Join(Edited(name, pieces), "\n"), '\n'))
  {
    var pieces := [KEY, Entry(other)];
    var text := KEY + "\n" + Entry(other);
    EntryIsOneLine(other);
    assert '\n' !in KEY;
    assert pieces[1..] == [Entry(other)] && "\n" == ['\n'];
    assert text == Join(pieces, "\n");
    SplitJoin(pieces, '\n');
    OtherIsNotNamed(name, other);
    BlockOfOne(other);
    SecondRunOnText(name, text);
  }

  lemma OtherIsNotNamed(name: string, other: string)
    requires GoodName(name) && GoodName(other) && name != other && ':' !in name && ':' !in other
    ensures !Named(name, [KEY, Entry(other)])
  {
    var pieces := [KEY, Entry(other)];
    EntryNames(other);
    var l := LStrip(Entry(other));
    forall j: nat | j < |pieces|
      ensures !NamedAt(name, pieces, j)
    {
      if j == 0 {
        assert pieces[0][0] == 'u';
      } else if name + ":" <= l {
        EntryText(other);
        assert l == other + ":" + " {}";
        SamePrefix(name, other, " {}");
      }
    }
  }

  lemma SamePrefix(name: string, other: string, rest: string)
    requires ':' !in name && ':' !in other && name + ":" <= other + ":" + rest
    ensures name == other
  {
    var all := other + ":" + rest;
    var v := all[|name| + 1..];
    assert all == name + ":" + v;
    SplitAt(name, v, ':');
    SplitAt(other, rest, ':');
    assert Split(all, ':')[0] == name && Split(all, ':')[0] == other;
  }

  lemma BlockOfOne(other: string)
    requires GoodName(other)
    ensures var pieces := [KEY, Entry(other)];
            BranchOf(pieces) == AppendToBlock && RunsOut(pieces) && !BlankLine(pieces[|pieces| - 1])
  {
    var pieces := [KEY, Entry(other)];
    EntryIsEssential(other);
    RespacedIsAHeader(Header(false, ""));
    assert HeaderOf(KEY) == Some(Header(false, ""));
    assert FirstHeader(pieces) == 0 && FirstKey(pieces) == 0;
    assert pieces[1..] == [Entry(other)] && DropFront(pieces[1..]) == [Entry(other)];
    assert Indented(Entry(other));
    assert BlockEnd(pieces, 2) == 2;
    assert BlockEnd(pieces, 1) == 2;
  }
}
