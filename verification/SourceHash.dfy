// The rebuild trigger: one hash over a source tree, by a sorted walk that skips
// what is not source.

module SourceHash {
  import opened Text
  import opened Sorting

  type Bytes = seq<bv8>

  // SHA-256 as hex, and the UTF-8 encoding of text.
  datatype Crypto = Crypto(sha: Bytes -> string, encode: string -> Bytes)

  // A directory entry; a directory lists its own in whatever order the file
  // system returns them.
  datatype Entry =
    | File(name: string, content: Bytes)
    | Dir(name: string, entries: seq<Entry>)

  // HASH_EXCLUDES and the file suffixes are parameters of the walk.
  datatype Rules = Rules(excludedDirs: set<string>, excludedSuffixes: seq<string>)

  const HASH_RULES: Rules := Rules(
    {"node_modules", "__pycache__", ".git", ".venv", ".next", ".terraform", ".DS_Store", ".pyc", ".log",
     ".egg-info", "dist", "build", "cdk.out"},
    [".pyc", ".log", ".DS_Store"])

  predicate EndsWith(s: string, t: string) { |t| <= |s| && s[|s| - |t|..] == t }

  predicate KeptFile(name: string, rules: Rules) {
    !exists i :: 0 <= i < |rules.excludedSuffixes| && EndsWith(name, rules.excludedSuffixes[i])
  }

  predicate KeptDir(name: string, rules: Rules) { name !in rules.excludedDirs }

  // ---- The walk -----------------------------------------------------------------------

  // A file the walk reaches: its path below the source directory, and its bytes.
  datatype Item = Item(path: seq<string>, content: Bytes)

  // A file right in a directory, and a directory the walk goes into.
  datatype Leaf = Leaf(name: string, content: Bytes)

  datatype Folder = Folder(name: string, entries: seq<Entry>)

  // A folder's name and what the walk reaches in it.
  datatype Sub = Sub(name: string, items: seq<Item>)

  function LeafName(f: Leaf): string { f.name }

  function FolderName(f: Folder): string { f.name }

  function SubName(s: Sub): string { s.name }

  function Leaves(entries: seq<Entry>, rules: Rules): seq<Leaf> {
    if entries == [] then []
    else
      (if entries[0].File? && KeptFile(entries[0].name, rules) then [Leaf(entries[0].name, entries[0].content)] else [])
      + Leaves(entries[1..], rules)
  }

  function Folders(entries: seq<Entry>, rules: Rules): seq<Folder> {
    if entries == [] then []
    else
      (if entries[0].Dir? && KeptDir(entries[0].name, rules) then [Folder(entries[0].name, entries[0].entries)] else [])
      + Folders(entries[1..], rules)
  }

  function LeafItems(prefix: seq<string>, leaves: seq<Leaf>): seq<Item> {
    if leaves == [] then []
    else
      var last := leaves[|leaves| - 1];
      LeafItems(prefix, leaves[..|leaves| - 1]) + [Item(prefix + [last.name], last.content)]
  }

  function Flatten(subs: seq<Sub>): seq<Item> {
    if subs == [] then [] else Flatten(subs[..|subs| - 1]) + subs[|subs| - 1].items
  }

  // Everything the walk reaches from one directory, whose own path is `prefix`:
  // its files first, then its subdirectories, each group by name.
  function Listing(prefix: seq<string>, entries: seq<Entry>, rules: Rules): seq<Item>
    decreases entries, 1
  {
    LeafItems(prefix, Sort(LeafName, Leaves(entries, rules))) + Flatten(Sort(SubName, Subs(prefix, entries, rules)))
  }

  function Subs(prefix: seq<string>, entries: seq<Entry>, rules: Rules): seq<Sub>
    decreases entries, 0
  {
    if entries == [] then []
    else
      (if entries[0].Dir? && KeptDir(entries[0].name, rules)
       then [Sub(entries[0].name, Listing(prefix + [entries[0].name], entries[0].entries, rules))] else [])
      + Subs(prefix, entries[1..], rules)
  }

  function VisitOne(prefix: seq<string>, f: Folder, rules: Rules): Sub {
    Sub(f.name, Listing(prefix + [f.name], f.entries, rules))
  }

  function Visit(prefix: seq<string>, folders: seq<Folder>, rules: Rules): seq<Sub> {
    if folders == [] then [] else [VisitOne(prefix, folders[0], rules)] + Visit(prefix, folders[1..], rules)
  }

  lemma {:induction false} SubsAreVisits(prefix: seq<string>, entries: seq<Entry>, rules: Rules)
    ensures Subs(prefix, entries, rules) == Visit(prefix, Folders(entries, rules), rules)
  {
    if entries != [] {
      SubsAreVisits(prefix, entries[1..], rules);
      if entries[0].Dir? && KeptDir(entries[0].name, rules) {
        assert Folders(entries, rules)[1..] == Folders(entries[1..], rules);
      } else {
        assert Folders(entries, rules) == Folders(entries[1..], rules);
      }
    }
  }

  // Sorting the folders and then visiting them is visiting them and then sorting.
  lemma {:induction false} VisitInsert(prefix: seq<string>, f: Folder, folders: seq<Folder>, rules: Rules)
    ensures Visit(prefix, Insert(FolderName, f, folders), rules)
            == Insert(SubName, VisitOne(prefix, f, rules), Visit(prefix, folders, rules))
  {
    if folders != [] {
      if Le(f.name, folders[0].name) {
        assert ([f] + folders)[1..] == folders;
      } else {
        VisitInsert(prefix, f, folders[1..], rules);
        assert Insert(FolderName, f, folders)[1..] == Insert(FolderName, f, folders[1..]);
      }
    }
  }

  lemma {:induction false} VisitSort(prefix: seq<string>, folders: seq<Folder>, rules: Rules)
    ensures Visit(prefix, Sort(FolderName, folders), rules) == Sort(SubName, Visit(prefix, folders, rules))
  {
    if folders != [] {
      VisitSort(prefix, folders[1..], rules);
      VisitInsert(prefix, folders[0], Sort(FolderName, folders[1..]), rules);
    }
  }

  lemma {:induction false} VisitSnoc(prefix: seq<string>, folders: seq<Folder>, i: nat, rules: Rules)
    requires i < |folders|
    ensures Visit(prefix, folders[..i + 1], rules)
            == Visit(prefix, folders[..i], rules) + [VisitOne(prefix, folders[i], rules)]
  {
    if i == 0 {
      assert folders[..1] == [folders[0]] && folders[..0] == [];
    } else {
      VisitSnoc(prefix, folders[1..], i - 1, rules);
      assert folders[1..][..i] == folders[..i + 1][1..] && folders[1..][..i - 1] == folders[..i][1..];
    }
  }

  // What the loops over sorted names compute is the listing.
  lemma ListingIsWalk(prefix: seq<string>, entries: seq<Entry>, rules: Rules)
    ensures Listing(prefix, entries, rules)
            == LeafItems(prefix, Sort(LeafName, Leaves(entries, rules)))
               + Flatten(Visit(prefix, Sort(FolderName, Folders(entries, rules)), rules))
  {
    SubsAreVisits(prefix, entries, rules);
    VisitSort(prefix, Folders(entries, rules), rules);
  }

  // Going down ends: a folder is lower than the directory that holds it.
  function Max(a: nat, b: nat): nat { if a <= b then b else a }

  function Height(entries: seq<Entry>): nat {
    if entries == [] then 0
    else Max(if entries[0].Dir? then 1 + Height(entries[0].entries) else 0, Height(entries[1..]))
  }

  ghost predicate Lower(folders: seq<Folder>, h: nat) {
    forall i :: 0 <= i < |folders| ==> Height(folders[i].entries) < h
  }

  lemma {:induction false} FoldersAreLower(entries: seq<Entry>, rules: Rules)
    ensures Lower(Folders(entries, rules), Height(entries))
  {
    if entries != [] {
      FoldersAreLower(entries[1..], rules);
    }
  }

  lemma SortedAreLower(folders: seq<Folder>, h: nat)
    requires Lower(folders, h)
    ensures Lower(Sort(FolderName, folders), h)
  {
    SortPermutes(FolderName, folders);
    var sorted := Sort(FolderName, folders);
    forall i | 0 <= i < |sorted|
      ensures Height(sorted[i].entries) < h
    {
      assert sorted[i] in multiset(folders);
    }
  }

  // ---- The digest -------------------------------------------------------------------------

  // What one file feeds its hash: its path, then its bytes, with nothing between.
  function Stream(item: Item, z: Crypto): Bytes { z.encode(Join(item.path, "/")) + item.content }

  function FileHashes(items: seq<Item>, z: Crypto): (r: seq<string>)
    ensures |r| == |items|
  {
    if items == [] then []
    else FileHashes(items[..|items| - 1], z) + [z.sha(Stream(items[|items| - 1], z))]
  }

  function Concat(parts: seq<string>): string {
    if parts == [] then "" else parts[0] + Concat(parts[1..])
  }

  function Short(s: string): string { if |s| <= 16 then s else s[..16] }

  function DigestOf(items: seq<Item>, z: Crypto): string {
    if items == [] then "empty" else Short(z.sha(z.encode(Concat(FileHashes(items, z)))))
  }

  // hashlib's running hash.
  class Hasher {
    var seen: Bytes

    constructor ()
      ensures seen == []
    {
      seen := [];
    }

    method Update(data: Bytes)
      modifies this
      ensures seen == old(seen) + data
    {
      seen := seen + data;
    }

    method HexDigest(z: Crypto) returns (s: string)
      ensures s == z.sha(seen)
    {
      s := z.sha(seen);
    }
  }

  const CHUNK: nat := 8192

  // Reading a file in chunks until one is empty.
  method HashFile(item: Item, z: Crypto) returns (s: string)
    ensures s == z.sha(Stream(item, z))
  {
    var h := new Hasher();
    h.Update(z.encode(Join(item.path, "/")));
    var at := 0;
    while at < |item.content|
      invariant 0 <= at <= |item.content|
      invariant fresh(h) && h.seen == z.encode(Join(item.path, "/")) + item.content[..at]
    {
      var end := if at + CHUNK <= |item.content| then at + CHUNK else |item.content|;
      h.Update(item.content[at..end]);
      assert item.content[..end] == item.content[..at] + item.content[at..end];
      at := end;
    }
    assert item.content[..at] == item.content;
    s := h.HexDigest(z);
  }

  lemma {:induction false} FileHashesConcat(a: seq<Item>, b: seq<Item>, z: Crypto)
    ensures FileHashes(a + b, z) == FileHashes(a, z) + FileHashes(b, z)
  {
    if b == [] {
      assert a + b == a;
    } else {
      assert (a + b)[..|a + b| - 1] == a + b[..|b| - 1];
      FileHashesConcat(a, b[..|b| - 1], z);
    }
  }

  lemma LeafStep(out: seq<string>, hashes: seq<string>, prefix: seq<string>, done: seq<Leaf>, f: Leaf, z: Crypto)
    requires out == hashes + FileHashes(LeafItems(prefix, done), z)
    ensures out + [z.sha(Stream(Item(prefix + [f.name], f.content), z))]
            == hashes + FileHashes(LeafItems(prefix, done + [f]), z)
  {
    var item := Item(prefix + [f.name], f.content);
    assert (done + [f])[..|done|] == done;
    var items := LeafItems(prefix, done);
    assert (items + [item])[..|items|] == items;
  }

  method WalkFiles(files: seq<Leaf>, prefix: seq<string>, z: Crypto, hashes: seq<string>) returns (out: seq<string>)
    ensures out == hashes + FileHashes(LeafItems(prefix, files), z)
  {
    out := hashes;
    var i := 0;
    while i < |files|
      invariant 0 <= i <= |files|
      invariant out == hashes + FileHashes(LeafItems(prefix, files[..i]), z)
    {
      var h := HashFile(Item(prefix + [files[i].name], files[i].content), z);
      LeafStep(out, hashes, prefix, files[..i], files[i], z);
      assert files[..i + 1] == files[..i] + [files[i]];
      out := out + [h];
      i := i + 1;
    }
    assert files[..|files|] == files;
  }

  lemma FolderStep(out: seq<string>, next: seq<string>, hashes: seq<string>, done: seq<Sub>, sub: Sub, z: Crypto)
    requires out == hashes + FileHashes(Flatten(done), z) && next == out + FileHashes(sub.items, z)
    ensures next == hashes + FileHashes(Flatten(done + [sub]), z)
  {
    assert (done + [sub])[..|done|] == done;
    FileHashesConcat(Flatten(done), sub.items, z);
  }

  // os.walk from one directory, `prefix` being its path below the source.
  method Walk(entries: seq<Entry>, prefix: seq<string>, rules: Rules, z: Crypto, hashes: seq<string>)
    returns (out: seq<string>)
    ensures out == hashes + FileHashes(Listing(prefix, entries, rules), z)
    decreases Height(entries), 1
  {
    var dirs, files := Sort(FolderName, Folders(entries, rules)), Sort(LeafName, Leaves(entries, rules));
    FoldersAreLower(entries, rules);
    SortedAreLower(Folders(entries, rules), Height(entries));
    var half := WalkFiles(files, prefix, z, hashes);
    out := WalkFolders(dirs, Height(entries), prefix, rules, z, half);
    ghost var a, b := LeafItems(prefix, files), Flatten(Visit(prefix, dirs, rules));
    ListingIsWalk(prefix, entries, rules);
    TwoHalves(hashes, half, out, a, b, Listing(prefix, entries, rules), z);
  }

  lemma TwoHalves(hashes: seq<string>, half: seq<string>, out: seq<string>, a: seq<Item>, b: seq<Item>,
                  all: seq<Item>, z: Crypto)
    requires all == a + b && half == hashes + FileHashes(a, z) && out == half + FileHashes(b, z)
    ensures out == hashes + FileHashes(all, z)
  {
    FileHashesConcat(a, b, z);
    Regroup(hashes, FileHashes(a, z), FileHashes(b, z));
  }

  lemma Regroup(a: seq<string>, b: seq<string>, c: seq<string>)
    ensures (a + b) + c == a + (b + c)
  {
  }

  method WalkFolders(dirs: seq<Folder>, ghost h: nat, prefix: seq<string>, rules: Rules, z: Crypto, hashes: seq<string>)
    returns (out: seq<string>)
    requires Lower(dirs, h)
    ensures out == hashes + FileHashes(Flatten(Visit(prefix, dirs, rules)), z)
    decreases h, 0
  {
    out := hashes;
    ghost var done: seq<Sub> := [];
    var i := 0;
    while i < |dirs|
      invariant 0 <= i <= |dirs|
      invariant done == Visit(prefix, dirs[..i], rules)
      invariant out == hashes + FileHashes(Flatten(done), z)
    {
      var next := Walk(dirs[i].entries, prefix + [dirs[i].name], rules, z, out);
      FolderStep(out, next, hashes, done, VisitOne(prefix, dirs[i], rules), z);
      VisitSnoc(prefix, dirs, i, rules);
      done := done + [VisitOne(prefix, dirs[i], rules)];
      out := next;
      i := i + 1;
    }
    assert dirs[..|dirs|] == dirs;
  }

  // None is a path that is not a directory.
  function SourceDigest(source: Option<seq<Entry>>, rules: Rules, z: Crypto): string {
    if source.None? then "placeholder" else DigestOf(Listing([], source.value, rules), z)
  }

  method ComputeSourceHash(source: Option<seq<Entry>>, rules: Rules, z: Crypto) returns (digest: string)
    ensures digest == SourceDigest(source, rules, z)
  {
    if source.None? {
      return "placeholder";
    }
    var hashes := Walk(source.value, [], rules, z, []);
    assert hashes == FileHashes(Listing([], source.value, rules), z);
    if hashes == [] {
      return "empty";
    }
    digest := Short(z.sha(z.encode(Concat(hashes))));
  }

  function TagOf(digest: string, pattern: string, z: Crypto): string {
    if pattern == "" then digest else Short(z.sha(z.encode(digest + ":" + pattern)))
  }

  method ComponentImageTag(source: Option<seq<Entry>>, pattern: string, rules: Rules, z: Crypto) returns (tag: string)
    ensures tag == TagOf(SourceDigest(source, rules, z), pattern, z)
  {
    tag := ComputeSourceHash(source, rules, z);
    if pattern != "" {
      tag := Short(z.sha(z.encode(tag + ":" + pattern)));
    }
  }
}
