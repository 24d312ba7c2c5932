// What the source hash depends on: the set of kept files, each with its path and
// bytes, and nothing about the order they are listed in.

module SourceHashLaws {
  import opened Text
  import opened Sorting
  import opened SourceHash

  // In a directory names are distinct, all the way down.
  ghost predicate Proper(entries: seq<Entry>) {
    && (forall i, j :: 0 <= i < j < |entries| ==> entries[i].name != entries[j].name)
    && forall i :: 0 <= i < |entries| && entries[i].Dir? ==> Proper(entries[i].entries)
  }

  // A kept file at this path below the directory, with these bytes.
  ghost predicate Reaches(entries: seq<Entry>, path: seq<string>, content: Bytes, rules: Rules)
    decreases |path|
  {
    if |path| == 0 then false
    else if |path| == 1 then
      KeptFile(path[0], rules) && exists i :: 0 <= i < |entries| && entries[i] == File(path[0], content)
    else
      KeptDir(path[0], rules)
      && exists i :: 0 <= i < |entries| && entries[i].Dir? && entries[i].name == path[0]
                     && Reaches(entries[i].entries, path[1..], content, rules)
  }

  // ---- The listing holds exactly what is reached -----------------------------------------

  lemma {:induction false} SortHolds<T(!new)>(key: T -> string, s: seq<T>, x: T)
    ensures x in Sort(key, s) <==> x in s
  {
    SortPermutes(key, s);
    assert x in Sort(key, s) <==> x in multiset(Sort(key, s));
    assert x in s <==> x in multiset(s);
  }

  lemma {:induction false} LeavesHold(entries: seq<Entry>, rules: Rules, f: Leaf)
    ensures f in Leaves(entries, rules)
            <==> KeptFile(f.name, rules) && exists i :: 0 <= i < |entries| && entries[i] == File(f.name, f.content)
  {
    if entries != [] {
      LeavesHold(entries[1..], rules, f);
      if i :| 0 <= i < |entries| && entries[i] == File(f.name, f.content) {
        assert i == 0 || entries[1..][i - 1] == entries[i];
      }
    }
  }

  lemma {:induction false} LeafItemsHold(prefix: seq<string>, leaves: seq<Leaf>, x: Item)
    ensures x in LeafItems(prefix, leaves)
            <==> exists i :: 0 <= i < |leaves| && x == Item(prefix + [leaves[i].name], leaves[i].content)
  {
    if leaves != [] {
      var init, last := leaves[..|leaves| - 1], leaves[|leaves| - 1];
      LeafItemsHold(prefix, init, x);
      if i :| 0 <= i < |leaves| && x == Item(prefix + [leaves[i].name], leaves[i].content) {
        assert i == |leaves| - 1 || init[i] == leaves[i];
      }
    }
  }

  lemma {:induction false} FlattenHolds(subs: seq<Sub>, x: Item)
    ensures x in Flatten(subs) <==> exists i :: 0 <= i < |subs| && x in subs[i].items
  {
    if subs != [] {
      var init := subs[..|subs| - 1];
      FlattenHolds(init, x);
      if i :| 0 <= i < |subs| && x in subs[i].items {
        assert i == |subs| - 1 || init[i] == subs[i];
      }
    }
  }

  lemma {:induction false} SubsHold(prefix: seq<string>, entries: seq<Entry>, rules: Rules, s: Sub)
    ensures s in Subs(prefix, entries, rules)
            <==> exists i :: 0 <= i < |entries| && entries[i].Dir? && KeptDir(entries[i].name, rules)
                             && s == Sub(entries[i].name,
                                         Listing(prefix + [entries[i].name], entries[i].entries, rules))
  {
    if entries != [] {
      SubsHold(prefix, entries[1..], rules, s);
      if i :| 0 <= i < |entries| && entries[i].Dir? && KeptDir(entries[i].name, rules)
              && s == Sub(entries[i].name, Listing(prefix + [entries[i].name], entries[i].entries, rules)) {
        assert i == 0 || entries[1..][i - 1] == entries[i];
      }
    }
  }

  // A path strictly below a prefix, and the rest of it.
  ghost predicate Below(prefix: seq<string>, path: seq<string>) { prefix <= path && |prefix| < |path| }

  lemma FilesReached(prefix: seq<string>, entries: seq<Entry>, rules: Rules, x: Item)
    ensures x in LeafItems(prefix, Sort(LeafName, Leaves(entries, rules)))
            <==> && Below(prefix, x.path) && |x.path| == |prefix| + 1
                 && Reaches(entries, x.path[|prefix|..], x.content, rules)
  {
    if x in LeafItems(prefix, Sort(LeafName, Leaves(entries, rules))) {
      FileIsReached(prefix, entries, rules, x);
    }
    if Below(prefix, x.path) && |x.path| == |prefix| + 1 && Reaches(entries, x.path[|prefix|..], x.content, rules) {
      ReachedIsFile(prefix, entries, rules, x);
    }
  }

  lemma FileIsReached(prefix: seq<string>, entries: seq<Entry>, rules: Rules, x: Item)
    requires x in LeafItems(prefix, Sort(LeafName, Leaves(entries, rules)))
    ensures Below(prefix, x.path) && |x.path| == |prefix| + 1 && Reaches(entries, x.path[|prefix|..], x.content, rules)
  {
    var leaves := Sort(LeafName, Leaves(entries, rules));
    LeafItemsHold(prefix, leaves, x);
    var i :| 0 <= i < |leaves| && x == Item(prefix + [leaves[i].name], leaves[i].content);
    var f := leaves[i];
    SortHolds(LeafName, Leaves(entries, rules), f);
    LeavesHold(entries, rules, f);
    assert x.path[|prefix|..] == [f.name];
  }

  lemma ReachedIsFile(prefix: seq<string>, entries: seq<Entry>, rules: Rules, x: Item)
    requires Below(prefix, x.path) && |x.path| == |prefix| + 1 && Reaches(entries, x.path[|prefix|..], x.content, rules)
    ensures x in LeafItems(prefix, Sort(LeafName, Leaves(entries, rules)))
  {
    var leaves := Sort(LeafName, Leaves(entries, rules));
    var f := Leaf(x.path[|prefix|], x.content);
    assert x.path[|prefix|..] == [f.name] && x.path == prefix + [f.name];
    LeavesHold(entries, rules, f);
    SortHolds(LeafName, Leaves(entries, rules), f);
    LeafItemsHold(prefix, leaves, x);
    var i :| 0 <= i < |leaves| && leaves[i] == f;
  }

  lemma {:induction false} ListingHolds(prefix: seq<string>, entries: seq<Entry>, rules: Rules, x: Item)
    ensures x in Listing(prefix, entries, rules)
            <==> Below(prefix, x.path) && Reaches(entries, x.path[|prefix|..], x.content, rules)
    decreases entries
  {
    FilesReached(prefix, entries, rules, x);
    forall i | 0 <= i < |entries|
      ensures FolderHolds(prefix, entries[i], rules, x)
    {
      if entries[i].Dir? {
        ListingHolds(prefix + [entries[i].name], entries[i].entries, rules, x);
      }
    }
    FoldersReached(prefix, entries, rules, x);
  }

  // The listing of one folder holds what that folder reaches.
  ghost predicate FolderHolds(prefix: seq<string>, e: Entry, rules: Rules, x: Item) {
    e.Dir? ==>
      var under := prefix + [e.name];
      x in Listing(under, e.entries, rules) <==>
      Below(under, x.path) && Reaches(e.entries, x.path[|under|..], x.content, rules)
  }

  lemma FoldersReached(prefix: seq<string>, entries: seq<Entry>, rules: Rules, x: Item)
    requires forall i :: 0 <= i < |entries| ==> FolderHolds(prefix, entries[i], rules, x)
    ensures x in Flatten(Sort(SubName, Subs(prefix, entries, rules)))
            <==> && Below(prefix, x.path) && |x.path| > |prefix| + 1
                 && Reaches(entries, x.path[|prefix|..], x.content, rules)
  {
    if x in Flatten(Sort(SubName, Subs(prefix, entries, rules))) {
      FlattenedIsReached(prefix, entries, rules, x);
    }
    if Below(prefix, x.path) && |x.path| > |prefix| + 1 && Reaches(entries, x.path[|prefix|..], x.content, rules) {
      ReachedIsFlattened(prefix, entries, rules, x);
    }
  }

  lemma FlattenedIsReached(prefix: seq<string>, entries: seq<Entry>, rules: Rules, x: Item)
    requires forall i :: 0 <= i < |entries| ==> FolderHolds(prefix, entries[i], rules, x)
    requires x in Flatten(Sort(SubName, Subs(prefix, entries, rules)))
    ensures Below(prefix, x.path) && |x.path| > |prefix| + 1 && Reaches(entries, x.path[|prefix|..], x.content, rules)
  {
    var all := Subs(prefix, entries, rules);
    var subs := Sort(SubName, all);
    FlattenHolds(subs, x);
    var k :| 0 <= k < |subs| && x in subs[k].items;
    var s := subs[k];
    SortHolds(SubName, all, s);
    SubsHold(prefix, entries, rules, s);
    var i :| 0 <= i < |entries| && entries[i].Dir? && KeptDir(entries[i].name, rules)
             && s == Sub(entries[i].name, Listing(prefix + [entries[i].name], entries[i].entries, rules));
    assert FolderHolds(prefix, entries[i], rules, x);
    StepDown(prefix, entries, rules, x, i);
  }

  lemma StepDown(prefix: seq<string>, entries: seq<Entry>, rules: Rules, x: Item, i: nat)
    requires i < |entries| && entries[i].Dir? && KeptDir(entries[i].name, rules)
    requires var under := prefix + [entries[i].name];
             Below(under, x.path) && Reaches(entries[i].entries, x.path[|under|..], x.content, rules)
    ensures Below(prefix, x.path) && |x.path| > |prefix| + 1 && Reaches(entries, x.path[|prefix|..], x.content, rules)
  {
    var rest := x.path[|prefix|..];
    assert rest[1..] == x.path[|prefix| + 1..] && rest[0] == entries[i].name;
    assert prefix <= prefix + [entries[i].name];
  }

  // A sorted list of folders holds what any one of them holds.
  lemma FlattenSorted(all: seq<Sub>, s: Sub, x: Item)
    requires s in all && x in s.items
    ensures x in Flatten(Sort(SubName, all))
  {
    var subs := Sort(SubName, all);
    SortHolds(SubName, all, s);
    var k :| 0 <= k < |subs| && subs[k] == s;
    FlattenHolds(subs, x);
  }

  lemma ReachedIsFlattened(prefix: seq<string>, entries: seq<Entry>, rules: Rules, x: Item)
    requires forall i :: 0 <= i < |entries| ==> FolderHolds(prefix, entries[i], rules, x)
    requires Below(prefix, x.path) && |x.path| > |prefix| + 1 && Reaches(entries, x.path[|prefix|..], x.content, rules)
    ensures x in Flatten(Sort(SubName, Subs(prefix, entries, rules)))
  {
    var n := |prefix|;
    var rest := x.path[n..];
    assert rest[1..] == x.path[n + 1..] && rest[0] == x.path[n];
    var i :| 0 <= i < |entries| && entries[i].Dir? && entries[i].name == rest[0]
             && Reaches(entries[i].entries, rest[1..], x.content, rules);
    assert FolderHolds(prefix, entries[i], rules, x);
    var under := prefix + [entries[i].name];
    assert under <= x.path;
    var s := Sub(entries[i].name, Listing(under, entries[i].entries, rules));
    SubsHold(prefix, entries, rules, s);
    FlattenSorted(Subs(prefix, entries, rules), s, x);
  }

  // ---- The listing is strictly ordered -------------------------------------------------------

  // The walk's order on paths that agree before position n: at each level files
  // come before folders, and each by name.
  predicate Before(p: seq<string>, q: seq<string>, n: nat)
    decreases |p| - n
  {
    && n < |p| && n < |q|
    && (if |p| == n + 1 then |q| > n + 1 || Lt(p[n], q[n])
        else |q| > n + 1 && (Lt(p[n], q[n]) || (p[n] == q[n] && Before(p, q, n + 1))))
  }

  lemma {:induction false} BeforeAsymmetric(p: seq<string>, q: seq<string>, n: nat)
    requires Before(p, q, n)
    ensures !Before(q, p, n)
    decreases |p| - n
  {
    if Lt(p[n], q[n]) && Lt(q[n], p[n]) {
      LeAntisymmetric(p[n], q[n]);
    }
    if |p| > n + 1 && p[n] == q[n] {
      BeforeAsymmetric(p, q, n + 1);
    }
  }

  ghost predicate Ascending(items: seq<Item>, n: nat) {
    forall i, j :: 0 <= i < j < |items| ==> Before(items[i].path, items[j].path, n)
  }

  ghost predicate DistinctKeys<T(!new)>(key: T -> string, s: seq<T>) {
    forall i, j :: 0 <= i < j < |s| ==> key(s[i]) != key(s[j])
  }

  ghost predicate Rising<T(!new)>(key: T -> string, s: seq<T>) {
    forall i, j :: 0 <= i < j < |s| ==> Lt(key(s[i]), key(s[j]))
  }

  // Distinct keys sort into a strictly rising list.
  lemma SortRises<T(!new)>(key: T -> string, s: seq<T>)
    requires DistinctKeys(key, s)
    ensures Rising(key, Sort(key, s))
  {
    SortSorts(key, s);
    SortKeepsDistinct(key, s);
  }

  lemma {:induction false} SortKeepsDistinct<T(!new)>(key: T -> string, s: seq<T>)
    requires DistinctKeys(key, s)
    ensures DistinctKeys(key, Sort(key, s))
  {
    if s != [] {
      SortKeepsDistinct(key, s[1..]);
      var t := Sort(key, s[1..]);
      forall i | 0 <= i < |t|
        ensures key(t[i]) != key(s[0])
      {
        SortHolds(key, s[1..], t[i]);
        var k :| 0 <= k < |s| - 1 && s[1..][k] == t[i];
      }
      InsertKeepsDistinct(key, s[0], t);
    }
  }

  lemma {:induction false} InsertKeepsDistinct<T(!new)>(key: T -> string, x: T, s: seq<T>)
    requires DistinctKeys(key, s) && forall i :: 0 <= i < |s| ==> key(s[i]) != key(x)
    ensures DistinctKeys(key, Insert(key, x, s))
  {
    if s != [] && !Le(key(x), key(s[0])) {
      InsertKeepsDistinct(key, x, s[1..]);
      var t := Insert(key, x, s[1..]);
      InsertPermutes(key, x, s[1..]);
      forall i | 0 <= i < |t|
        ensures key(t[i]) != key(s[0])
      {
        assert t[i] in multiset(t);
        if t[i] != x {
          var k :| 0 <= k < |s| - 1 && s[1..][k] == t[i];
          assert s[k + 1] == t[i];
        }
      }
    }
  }

  lemma {:induction false} LeavesDistinct(entries: seq<Entry>, rules: Rules)
    requires forall i, j :: 0 <= i < j < |entries| ==> entries[i].name != entries[j].name
    ensures DistinctKeys(LeafName, Leaves(entries, rules))
  {
    if entries != [] {
      LeavesDistinct(entries[1..], rules);
      var rest := Leaves(entries[1..], rules);
      forall k | 0 <= k < |rest|
        ensures rest[k].name != entries[0].name
      {
        LeavesHold(entries[1..], rules, rest[k]);
        var i :| 0 <= i < |entries| - 1 && entries[1..][i] == File(rest[k].name, rest[k].content);
        assert entries[i + 1].name == rest[k].name;
      }
    }
  }

  lemma {:induction false} SubsDistinct(prefix: seq<string>, entries: seq<Entry>, rules: Rules)
    requires forall i, j :: 0 <= i < j < |entries| ==> entries[i].name != entries[j].name
    ensures DistinctKeys(SubName, Subs(prefix, entries, rules))
  {
    if entries != [] {
      SubsDistinct(prefix, entries[1..], rules);
      var rest := Subs(prefix, entries[1..], rules);
      forall k | 0 <= k < |rest|
        ensures rest[k].name != entries[0].name
      {
        SubsHold(prefix, entries[1..], rules, rest[k]);
        var i :| 0 <= i < |entries| - 1 && entries[1..][i].name == rest[k].name;
        assert entries[i + 1].name == rest[k].name;
      }
    }
  }

  lemma {:induction false} LeafItemsAt(prefix: seq<string>, leaves: seq<Leaf>)
    ensures |LeafItems(prefix, leaves)| == |leaves|
    ensures forall i :: 0 <= i < |leaves| ==>
            LeafItems(prefix, leaves)[i] == Item(prefix + [leaves[i].name], leaves[i].content)
  {
    if leaves != [] {
      LeafItemsAt(prefix, leaves[..|leaves| - 1]);
    }
  }

  // What one folder contributes: longer paths, through its name, in order.
  ghost predicate Branch(s: Sub, n: nat) {
    && (forall i :: 0 <= i < |s.items| ==> |s.items[i].path| > n + 1 && s.items[i].path[n] == s.name)
    && Ascending(s.items, n + 1)
  }

  lemma {:induction false} FlattenAscends(subs: seq<Sub>, n: nat)
    requires Rising(SubName, subs) && forall i :: 0 <= i < |subs| ==> Branch(subs[i], n)
    ensures Ascending(Flatten(subs), n)
    ensures forall i :: 0 <= i < |Flatten(subs)| ==> |Flatten(subs)[i].path| > n + 1
  {
    if subs != [] {
      var init, last := subs[..|subs| - 1], subs[|subs| - 1];
      FlattenAscends(init, n);
      forall i, j | 0 <= i < |Flatten(init)| && 0 <= j < |last.items|
        ensures Before(Flatten(init)[i].path, last.items[j].path, n)
      {
        FlattenHolds(init, Flatten(init)[i]);
        var k :| 0 <= k < |init| && Flatten(init)[i] in init[k].items;
        assert Branch(subs[k], n) && Lt(SubName(subs[k]), SubName(last));
      }
      assert Branch(last, n);
      BranchAscends(last, n);
      AscendingConcat(Flatten(init), last.items, n);
    }
  }

  lemma BranchAscends(s: Sub, n: nat)
    requires Branch(s, n)
    ensures Ascending(s.items, n)
  {
    forall i, j | 0 <= i < j < |s.items|
      ensures Before(s.items[i].path, s.items[j].path, n)
    {
      assert Before(s.items[i].path, s.items[j].path, n + 1);
    }
  }

  lemma AscendingConcat(a: seq<Item>, b: seq<Item>, n: nat)
    requires Ascending(a, n) && Ascending(b, n)
    requires forall i, j :: 0 <= i < |a| && 0 <= j < |b| ==> Before(a[i].path, b[j].path, n)
    ensures Ascending(a + b, n)
  {
  }

  lemma {:induction false} ListingAscends(prefix: seq<string>, entries: seq<Entry>, rules: Rules)
    requires Proper(entries)
    ensures Ascending(Listing(prefix, entries, rules), |prefix|)
    decreases entries
  {
    var n := |prefix|;
    forall i | 0 <= i < |entries| && entries[i].Dir?
      ensures Ascending(Listing(prefix + [entries[i].name], entries[i].entries, rules), n + 1)
    {
      ListingAscends(prefix + [entries[i].name], entries[i].entries, rules);
    }
    FilesAscend(prefix, entries, rules);
    FoldersAscend(prefix, entries, rules);
  }

  lemma FilesAscend(prefix: seq<string>, entries: seq<Entry>, rules: Rules)
    requires Proper(entries)
    ensures var files := LeafItems(prefix, Sort(LeafName, Leaves(entries, rules)));
            Ascending(files, |prefix|) && forall i :: 0 <= i < |files| ==> |files[i].path| == |prefix| + 1
  {
    var leaves := Sort(LeafName, Leaves(entries, rules));
    LeavesDistinct(entries, rules);
    SortRises(LeafName, Leaves(entries, rules));
    LeafItemsAt(prefix, leaves);
    var files := LeafItems(prefix, leaves);
    forall i, j | 0 <= i < j < |files|
      ensures Before(files[i].path, files[j].path, |prefix|)
    {
      assert Lt(LeafName(leaves[i]), LeafName(leaves[j]));
    }
  }

  lemma FoldersAscend(prefix: seq<string>, entries: seq<Entry>, rules: Rules)
    requires Proper(entries)
    requires forall i :: 0 <= i < |entries| && entries[i].Dir? ==>
               Ascending(Listing(prefix + [entries[i].name], entries[i].entries, rules), |prefix| + 1)
    ensures var items := Flatten(Sort(SubName, Subs(prefix, entries, rules)));
            Ascending(items, |prefix|) && forall i :: 0 <= i < |items| ==> |items[i].path| > |prefix| + 1
  {
    var all := Subs(prefix, entries, rules);
    var subs := Sort(SubName, all);
    SubsDistinct(prefix, entries, rules);
    SortRises(SubName, all);
    forall k | 0 <= k < |subs|
      ensures Branch(subs[k], |prefix|)
    {
      SortHolds(SubName, all, subs[k]);
      SubsHold(prefix, entries, rules, subs[k]);
      var i :| 0 <= i < |entries| && entries[i].Dir? && KeptDir(entries[i].name, rules)
               && subs[k] == Sub(entries[i].name, Listing(prefix + [entries[i].name], entries[i].entries, rules));
      BranchOf(prefix, entries[i].name, entries[i].entries, rules);
    }
    FlattenAscends(subs, |prefix|);
  }

  lemma BranchOf(prefix: seq<string>, name: string, entries: seq<Entry>, rules: Rules)
    requires Ascending(Listing(prefix + [name], entries, rules), |prefix| + 1)
    ensures Branch(Sub(name, Listing(prefix + [name], entries, rules)), |prefix|)
  {
    var items := Listing(prefix + [name], entries, rules);
    forall i | 0 <= i < |items|
      ensures |items[i].path| > |prefix| + 1 && items[i].path[|prefix|] == name
    {
      ListingHolds(prefix + [name], entries, rules, items[i]);
      assert (prefix + [name])[|prefix|] == name;
    }
  }

  // Strict order is unique: two ascending lists of the same items are equal.
  lemma {:induction false} AscendingUnique(a: seq<Item>, b: seq<Item>, n: nat)
    requires Ascending(a, n) && Ascending(b, n) && forall x :: x in a <==> x in b
    ensures a == b
  {
    if a != [] {
      NotEmptyToo(a, b);
      HeadsAgree(a, b, n);
      TailHolds(a, n);
      TailHolds(b, n);
      AscendingUnique(a[1..], b[1..], n);
      assert a == [a[0]] + a[1..] && b == [b[0]] + b[1..];
    } else if b != [] {
      NotEmptyToo(b, a);
    }
  }

  lemma NotEmptyToo(a: seq<Item>, b: seq<Item>)
    requires a != [] && forall x :: x in a <==> x in b
    ensures b != []
  {
    assert a[0] in a;
  }

  lemma HeadsAgree(a: seq<Item>, b: seq<Item>, n: nat)
    requires Ascending(a, n) && Ascending(b, n) && forall x :: x in a <==> x in b
    requires a != [] && b != []
    ensures a[0] == b[0]
  {
    assert a[0] in a && b[0] in b;
    var j :| 0 <= j < |b| && b[j] == a[0];
    var k :| 0 <= k < |a| && a[k] == b[0];
    if j > 0 && k > 0 {
      BeforeAsymmetric(b[0].path, b[j].path, n);
    }
  }

  lemma TailHolds(a: seq<Item>, n: nat)
    requires a != [] && Ascending(a, n)
    ensures Ascending(a[1..], n) && forall x :: x in a[1..] <==> x in a && x != a[0]
  {
    forall x | x in a[1..]
      ensures x != a[0]
    {
      var i :| 0 <= i < |a| - 1 && a[1..][i] == x;
      BeforeAsymmetric(a[0].path, a[i + 1].path, n);
    }
    forall x | x in a && x != a[0]
      ensures x in a[1..]
    {
      var i :| 0 <= i < |a| && a[i] == x;
      assert a[1..][i - 1] == x;
    }
  }

  // ---- Main results -----------------------------------------------------------------------------

  // Two trees with the same kept files, at the same paths and with the same bytes,
  // have the same listing, and so the same digest, however they are listed and
  // whatever else they hold.
  lemma SameFilesSameDigest(a: seq<Entry>, b: seq<Entry>, rules: Rules, z: Crypto)
    requires Proper(a) && Proper(b)
    requires forall path, content :: Reaches(a, path, content, rules) <==> Reaches(b, path, content, rules)
    ensures Listing([], a, rules) == Listing([], b, rules)
    ensures DigestOf(Listing([], a, rules), z) == DigestOf(Listing([], b, rules), z)
  {
    forall x
      ensures x in Listing([], a, rules) <==> x in Listing([], b, rules)
    {
      ListingHolds([], a, rules, x);
      ListingHolds([], b, rules, x);
    }
    ListingAscends([], a, rules);
    ListingAscends([], b, rules);
    AscendingUnique(Listing([], a, rules), Listing([], b, rules), 0);
  }

  // Everything kept in a has its counterpart in b, at every level.
  ghost predicate Covers(a: seq<Entry>, b: seq<Entry>, rules: Rules)
    decreases a
  {
    forall i :: 0 <= i < |a| ==>
      match a[i]
      case File(name, _) => KeptFile(name, rules) ==> a[i] in b
      case Dir(name, entries) =>
        KeptDir(name, rules) ==>
          exists j :: 0 <= j < |b| && b[j].Dir? && b[j].name == name && Covers(entries, b[j].entries, rules)
  }

  lemma {:induction false} CoversReaches(a: seq<Entry>, b: seq<Entry>, rules: Rules, path: seq<string>, content: Bytes)
    requires Covers(a, b, rules) && Reaches(a, path, content, rules)
    ensures Reaches(b, path, content, rules)
    decreases |path|
  {
    if |path| == 1 {
      var i :| 0 <= i < |a| && a[i] == File(path[0], content);
      assert a[i] in b;
    } else {
      var i :| 0 <= i < |a| && a[i].Dir? && a[i].name == path[0] && Reaches(a[i].entries, path[1..], content, rules);
      var j :| 0 <= j < |b| && b[j].Dir? && b[j].name == a[i].name && Covers(a[i].entries, b[j].entries, rules);
      CoversReaches(a[i].entries, b[j].entries, rules, path[1..], content);
    }
  }

  // Listing order is forgotten at every level, and so is everything excluded.
  lemma ListingOrderDoesNotMatter(a: seq<Entry>, b: seq<Entry>, rules: Rules, z: Crypto)
    requires Proper(a) && Proper(b) && Covers(a, b, rules) && Covers(b, a, rules)
    ensures DigestOf(Listing([], a, rules), z) == DigestOf(Listing([], b, rules), z)
  {
    forall path, content
      ensures Reaches(a, path, content, rules) <==> Reaches(b, path, content, rules)
    {
      if Reaches(a, path, content, rules) {
        CoversReaches(a, b, rules, path, content);
      }
      if Reaches(b, path, content, rules) {
        CoversReaches(b, a, rules, path, content);
      }
    }
    SameFilesSameDigest(a, b, rules, z);
  }

  // ---- What goes into the hashes --------------------------------------------------------------------

  function Streams(items: seq<Item>, z: Crypto): seq<Bytes> {
    if items == [] then [] else [Stream(items[0], z)] + Streams(items[1..], z)
  }

  function Shas(streams: seq<Bytes>, z: Crypto): seq<string> {
    if streams == [] then [] else [z.sha(streams[0])] + Shas(streams[1..], z)
  }

  lemma {:induction false} FileHashesAreShas(items: seq<Item>, z: Crypto)
    ensures FileHashes(items, z) == Shas(Streams(items, z), z)
  {
    if items != [] {
      FileHashesAreShas(items[1..], z);
      FileHashesConcat([items[0]], items[1..], z);
      assert [items[0]] + items[1..] == items;
      assert [items[0]][..0] == [];
    }
  }

  ghost predicate FixedWidth(z: Crypto, n: nat) { n > 0 && forall x :: |z.sha(x)| == n }

  // No two of these streams collide.
  ghost predicate NoCollision(z: Crypto, a: seq<Bytes>, b: seq<Bytes>) {
    forall x, y :: x in a && y in b && z.sha(x) == z.sha(y) ==> x == y
  }

  // The text the digest is taken of determines every file's stream, and the
  // number of files, because hashes have one width.
  lemma {:induction false} CombinedTextBinds(a: seq<Bytes>, b: seq<Bytes>, z: Crypto, n: nat)
    requires FixedWidth(z, n) && NoCollision(z, a, b)
    ensures Concat(Shas(a, z)) == Concat(Shas(b, z)) <==> a == b
  {
    if a != [] && b != [] {
      var x, y := Concat(Shas(a[1..], z)), Concat(Shas(b[1..], z));
      assert Shas(a, z)[1..] == Shas(a[1..], z) && Shas(b, z)[1..] == Shas(b[1..], z);
      assert Concat(Shas(a, z)) == z.sha(a[0]) + x && Concat(Shas(b, z)) == z.sha(b[0]) + y;
      CombinedTextBinds(a[1..], b[1..], z, n);
      assert (z.sha(a[0]) + x)[..n] == z.sha(a[0]) && (z.sha(b[0]) + y)[..n] == z.sha(b[0]);
      assert (z.sha(a[0]) + x)[n..] == x && (z.sha(b[0]) + y)[n..] == y;
      assert a == [a[0]] + a[1..] && b == [b[0]] + b[1..];
    } else if a != [] || b != [] {
      assert a != [] ==> |Concat(Shas(a, z))| >= n;
      assert b != [] ==> |Concat(Shas(b, z))| >= n;
    }
  }

  // So the digest of a tree fixes how many files it has and every file's stream,
  // unless one of these hashes collides.
  lemma DigestBinds(a: seq<Item>, b: seq<Item>, z: Crypto, n: nat)
    requires n >= 16 && FixedWidth(z, n) && NoCollision(z, Streams(a, z), Streams(b, z))
    requires var x, y := Concat(FileHashes(a, z)), Concat(FileHashes(b, z));
             Short(z.sha(z.encode(x))) == Short(z.sha(z.encode(y))) ==> x == y
    ensures DigestOf(a, z) == DigestOf(b, z) <==> Streams(a, z) == Streams(b, z)
  {
    FileHashesAreShas(a, z);
    FileHashesAreShas(b, z);
    CombinedTextBinds(Streams(a, z), Streams(b, z), z, n);
  }

  // The digest is the first 16 characters of a hash, or one of two words.
  lemma DigestIsShort(source: Option<seq<Entry>>, rules: Rules, z: Crypto, n: nat)
    requires n >= 16 && FixedWidth(z, n)
    ensures source.None? ==> SourceDigest(source, rules, z) == "placeholder"
    ensures source.Some? && Barren(source.value, rules) ==> SourceDigest(source, rules, z) == "empty"
    ensures source.Some? && !Barren(source.value, rules)
            ==> |SourceDigest(source, rules, z)| == 16 && exists x :: SourceDigest(source, rules, z) <= z.sha(x)
  {
    if source.Some? {
      var items := Listing([], source.value, rules);
      BarrenIsEmpty(source.value, rules);
      if items != [] {
        var full := z.sha(z.encode(Concat(FileHashes(items, z))));
        assert |full| == n && Short(full) <= full;
      }
    }
  }

  lemma BarrenIsEmpty(entries: seq<Entry>, rules: Rules)
    ensures Listing([], entries, rules) == [] <==> Barren(entries, rules)
  {
    var items := Listing([], entries, rules);
    if items != [] {
      KeptIsListed(entries, rules, items[0]);
    }
    if path, content :| Reaches(entries, path, content, rules) {
      KeptIsListed(entries, rules, Item(path, content));
    }
  }

  // A path and the bytes after it run together: moving characters from the end
  // of a name to the front of the file goes unseen.
  lemma NameRunsIntoBytes(name: string, more: string, content: Bytes, z: Crypto)
    requires z.encode(name + more) == z.encode(name) + z.encode(more)
    ensures DigestOf([Item([name], z.encode(more) + content)], z) == DigestOf([Item([name + more], content)], z)
  {
    var a, b := Item([name], z.encode(more) + content), Item([name + more], content);
    assert Stream(a, z) == z.encode(name) + (z.encode(more) + content) == Stream(b, z);
    assert [a][..0] == [] && [b][..0] == [];
    assert FileHashes([a], z) == [z.sha(Stream(a, z))] && FileHashes([b], z) == [z.sha(Stream(b, z))];
  }

  // The tag of a pattern is taken of text that fixes both the digest and the
  // pattern: no digest holds a colon.
  lemma TagTextBinds(d1: string, p1: string, d2: string, p2: string)
    requires ':' !in d1 && ':' !in d2
    ensures d1 + ":" + p1 == d2 + ":" + p2 <==> d1 == d2 && p1 == p2
  {
    SplitAt(d1, p1, ':');
    SplitAt(d2, p2, ':');
    if d1 + ":" + p1 == d2 + ":" + p2 {
      assert ([d1] + Split(p1, ':'))[0] == d1 && ([d2] + Split(p2, ':'))[0] == d2;
      assert (d1 + ":" + p1)[|d1| + 1..] == p1 && (d2 + ":" + p2)[|d2| + 1..] == p2;
    }
  }

  // Hexadecimal text holds no colon.
  ghost predicate Hexadecimal(z: Crypto) { forall x :: ':' !in z.sha(x) }

  lemma DigestHasNoColon(source: Option<seq<Entry>>, rules: Rules, z: Crypto)
    requires Hexadecimal(z)
    ensures ':' !in SourceDigest(source, rules, z)
  {
    if source.Some? && Listing([], source.value, rules) != [] {
      var full := z.sha(z.encode(Concat(FileHashes(Listing([], source.value, rules), z))));
      assert ':' !in full;
    }
  }

  // What these two texts hash to tells them apart.
  ghost predicate ToldApart(x: string, y: string, z: Crypto) {
    Short(z.sha(z.encode(x))) == Short(z.sha(z.encode(y))) ==> x == y
  }

  // Two images selected by a pattern have one tag exactly when their sources have
  // one digest and the pattern is the same, unless the hash of the tag collides.
  lemma TagBinds(a: Option<seq<Entry>>, p1: string, b: Option<seq<Entry>>, p2: string, rules: Rules, z: Crypto)
    requires Hexadecimal(z) && p1 != "" && p2 != ""
    requires ToldApart(SourceDigest(a, rules, z) + ":" + p1, SourceDigest(b, rules, z) + ":" + p2, z)
    ensures TagOf(SourceDigest(a, rules, z), p1, z) == TagOf(SourceDigest(b, rules, z), p2, z)
            <==> SourceDigest(a, rules, z) == SourceDigest(b, rules, z) && p1 == p2
  {
    DigestHasNoColon(a, rules, z);
    DigestHasNoColon(b, rules, z);
    TagTextBinds(SourceDigest(a, rules, z), p1, SourceDigest(b, rules, z), p2);
  }

  // Without a pattern the tag is the digest itself, with one a short hash.
  lemma TagIsShort(digest: string, pattern: string, z: Crypto, n: nat)
    requires n >= 16 && FixedWidth(z, n)
    ensures pattern == "" ==> TagOf(digest, pattern, z) == digest
    ensures pattern != "" ==> |TagOf(digest, pattern, z)| == 16 && exists x :: TagOf(digest, pattern, z) <= z.sha(x)
  {
    if pattern != "" {
      var full := z.sha(z.encode(digest + ":" + pattern));
      assert |full| == n && Short(full) <= full;
    }
  }

  // For two source trees: exactly when every file's stream and the pattern are the
  // same, unless one of the hashes collides.
  lemma TreesBind(a: seq<Entry>, p1: string, b: seq<Entry>, p2: string, rules: Rules, z: Crypto, n: nat)
    requires Hexadecimal(z) && p1 != "" && p2 != "" && n >= 16 && FixedWidth(z, n)
    requires var x, y := Listing([], a, rules), Listing([], b, rules);
             && NoCollision(z, Streams(x, z), Streams(y, z))
             && ToldApart(Concat(FileHashes(x, z)), Concat(FileHashes(y, z)), z)
             && ToldApart(DigestOf(x, z) + ":" + p1, DigestOf(y, z) + ":" + p2, z)
    ensures var x, y := Listing([], a, rules), Listing([], b, rules);
            TagOf(DigestOf(x, z), p1, z) == TagOf(DigestOf(y, z), p2, z)
            <==> Streams(x, z) == Streams(y, z) && p1 == p2
  {
    TagBinds(Some(a), p1, Some(b), p2, rules, z);
    DigestBinds(Listing([], a, rules), Listing([], b, rules), z, n);
  }

  // ---- What one change does to the digest ---------------------------------------------------

  // Text has one encoding, and the names on a path hold no slash.
  ghost predicate Injective(z: Crypto) { forall s, t :: z.encode(s) == z.encode(t) ==> s == t }

  ghost predicate Slashless(path: seq<string>) { path != [] && forall i :: 0 <= i < |path| ==> '/' !in path[i] }

  // With the same bytes after it, the stream fixes the whole path.
  lemma StreamFixesPath(x: Item, y: Item, z: Crypto)
    requires Injective(z) && Slashless(x.path) && Slashless(y.path) && x.content == y.content
    ensures Stream(x, z) == Stream(y, z) <==> x.path == y.path
  {
    if Stream(x, z) == Stream(y, z) {
      var p, q := z.encode(Join(x.path, "/")), z.encode(Join(y.path, "/"));
      assert (p + x.content)[..|p|] == p && (q + y.content)[..|q|] == q;
      SplitJoin(x.path, '/');
      SplitJoin(y.path, '/');
    }
  }

  // And after the same path, the bytes.
  lemma StreamFixesBytes(x: Item, y: Item, z: Crypto)
    requires x.path == y.path
    ensures Stream(x, z) == Stream(y, z) <==> x.content == y.content
  {
    if Stream(x, z) == Stream(y, z) {
      var p := z.encode(Join(x.path, "/"));
      assert (p + x.content)[|p|..] == x.content && (p + y.content)[|p|..] == y.content;
    }
  }

  ghost predicate Kept(a: seq<Entry>, x: Item, rules: Rules) { Reaches(a, x.path, x.content, rules) }

  // b keeps y where a keeps x, and otherwise keeps what a does.
  ghost predicate Replaced(a: seq<Entry>, b: seq<Entry>, x: Item, y: Item, rules: Rules) {
    && Kept(a, x, rules) && !Kept(a, y, rules)
    && forall o: Item :: Kept(b, o, rules) <==> o == y || (Kept(a, o, rules) && o != x)
  }

  // b keeps y and everything a does.
  ghost predicate Added(a: seq<Entry>, b: seq<Entry>, y: Item, rules: Rules) {
    !Kept(a, y, rules) && forall o: Item :: Kept(b, o, rules) <==> o == y || Kept(a, o, rules)
  }

  lemma {:induction false} StreamsConcat(a: seq<Item>, b: seq<Item>, z: Crypto)
    ensures Streams(a + b, z) == Streams(a, z) + Streams(b, z)
  {
    if a == [] {
      assert a + b == b;
    } else {
      assert (a + b)[1..] == a[1..] + b;
      StreamsConcat(a[1..], b, z);
    }
  }

  lemma StreamTakenOut(a: seq<Item>, x: Item, b: seq<Item>, z: Crypto)
    ensures multiset(Streams(a + [x] + b, z)) == multiset(Streams(a + b, z)) + multiset{Stream(x, z)}
  {
    StreamsConcat(a + [x], b, z);
    StreamsConcat(a, [x], z);
    StreamsConcat(a, b, z);
    assert [x][1..] == [];
  }

  // One of these paths comes before the other, so they differ.
  lemma BeforeApart(p: seq<string>, q: seq<string>)
    requires Before(p, q, 0) || Before(q, p, 0)
    ensures p != q
  {
    if p == q {
      BeforeAsymmetric(p, p, 0);
    }
  }

  lemma ItemTakenOut(a: seq<Item>, x: Item, b: seq<Item>)
    requires Ascending(a + [x] + b, 0)
    ensures Ascending(a + b, 0) && forall o :: o in a + b <==> o in a + [x] + b && o != x
  {
    var items := a + [x] + b;
    var i := |a|;
    assert items[i] == x;
    forall j, k | 0 <= j < k < |a + b|
      ensures Before((a + b)[j].path, (a + b)[k].path, 0)
    {
      var j', k' := if j < i then j else j + 1, if k < i then k else k + 1;
      assert (a + b)[j] == items[j'] && (a + b)[k] == items[k'];
    }
    forall j | 0 <= j < |a + b|
      ensures (a + b)[j] != x
    {
      var j' := if j < i then j else j + 1;
      assert (a + b)[j] == items[j'];
      BeforeApart(items[j'].path, items[i].path);
    }
  }

  // A strictly ordered listing with one of its items taken out.
  lemma TakenOut(items: seq<Item>, x: Item, z: Crypto) returns (rest: seq<Item>)
    requires Ascending(items, 0) && x in items
    ensures Ascending(rest, 0) && forall o :: o in rest <==> o in items && o != x
    ensures multiset(Streams(items, z)) == multiset(Streams(rest, z)) + multiset{Stream(x, z)}
    ensures |rest| == |items| - 1
  {
    var i :| 0 <= i < |items| && items[i] == x;
    var a, b := items[..i], items[i + 1..];
    assert items == a + [x] + b;
    StreamTakenOut(a, x, b, z);
    ItemTakenOut(a, x, b);
    rest := a + b;
  }

  lemma KeptIsListed(a: seq<Entry>, rules: Rules, o: Item)
    ensures o in Listing([], a, rules) <==> Kept(a, o, rules)
  {
    ListingHolds([], a, rules, o);
    assert o.path[0..] == o.path;
    if o.path == [] {
      assert !Kept(a, o, rules);
    }
  }

  // Trees whose streams agree agree on the stream of what was replaced.
  lemma ReplacedStream(a: seq<Entry>, b: seq<Entry>, x: Item, y: Item, rules: Rules, z: Crypto)
    requires Proper(a) && Proper(b) && Replaced(a, b, x, y, rules)
    requires Streams(Listing([], a, rules), z) == Streams(Listing([], b, rules), z)
    ensures Stream(x, z) == Stream(y, z)
  {
    var la, lb := Listing([], a, rules), Listing([], b, rules);
    ListingAscends([], a, rules);
    ListingAscends([], b, rules);
    forall o
      ensures (o in la <==> Kept(a, o, rules)) && (o in lb <==> Kept(b, o, rules))
    {
      KeptIsListed(a, rules, o);
      KeptIsListed(b, rules, o);
    }
    var ra := TakenOut(la, x, z);
    var rb := TakenOut(lb, y, z);
    AscendingUnique(ra, rb, 0);
    assert multiset{Stream(x, z)} == multiset(Streams(la, z)) - multiset(Streams(ra, z)) == multiset{Stream(y, z)};
    assert Stream(x, z) in multiset{Stream(y, z)};
  }

  lemma {:induction false} StreamsCount(items: seq<Item>, z: Crypto)
    ensures |Streams(items, z)| == |items|
  {
    if items != [] {
      StreamsCount(items[1..], z);
    }
  }

  lemma AddedStream(a: seq<Entry>, b: seq<Entry>, y: Item, rules: Rules, z: Crypto)
    requires Proper(a) && Proper(b) && Added(a, b, y, rules)
    ensures Streams(Listing([], a, rules), z) != Streams(Listing([], b, rules), z)
  {
    var la, lb := Listing([], a, rules), Listing([], b, rules);
    ListingAscends([], a, rules);
    ListingAscends([], b, rules);
    forall o
      ensures (o in la <==> Kept(a, o, rules)) && (o in lb <==> Kept(b, o, rules))
    {
      KeptIsListed(a, rules, o);
      KeptIsListed(b, rules, o);
    }
    var rb := TakenOut(lb, y, z);
    AscendingUnique(la, rb, 0);
    StreamsCount(la, z);
    StreamsCount(lb, z);
  }

  // None of the hashes taken for these two trees collide.
  ghost predicate CollisionFree(a: seq<Entry>, b: seq<Entry>, rules: Rules, z: Crypto) {
    var x, y := Listing([], a, rules), Listing([], b, rules);
    && NoCollision(z, Streams(x, z), Streams(y, z))
    && ToldApart(Concat(FileHashes(x, z)), Concat(FileHashes(y, z)), z)
  }

  // Moving or renaming one kept file, to another directory or within its own,
  // changes the digest, unless one of the hashes collides.
  lemma MovedFileShows(a: seq<Entry>, b: seq<Entry>, from: seq<string>, to: seq<string>, content: Bytes,
                       rules: Rules, z: Crypto, n: nat)
    requires Proper(a) && Proper(b) && Injective(z) && Slashless(from) && Slashless(to)
    requires Replaced(a, b, Item(from, content), Item(to, content), rules)
    requires n >= 16 && FixedWidth(z, n) && CollisionFree(a, b, rules, z)
    ensures SourceDigest(Some(a), rules, z) != SourceDigest(Some(b), rules, z)
  {
    var x, y := Item(from, content), Item(to, content);
    StreamFixesPath(x, y, z);
    DigestBinds(Listing([], a, rules), Listing([], b, rules), z, n);
    if Streams(Listing([], a, rules), z) == Streams(Listing([], b, rules), z) {
      ReplacedStream(a, b, x, y, rules, z);
    }
  }

  // So does changing the bytes of one kept file,
  lemma EditedFileShows(a: seq<Entry>, b: seq<Entry>, path: seq<string>, before: Bytes, after: Bytes,
                        rules: Rules, z: Crypto, n: nat)
    requires Proper(a) && Proper(b) && Replaced(a, b, Item(path, before), Item(path, after), rules)
    requires n >= 16 && FixedWidth(z, n) && CollisionFree(a, b, rules, z)
    ensures SourceDigest(Some(a), rules, z) != SourceDigest(Some(b), rules, z)
  {
    var x, y := Item(path, before), Item(path, after);
    StreamFixesBytes(x, y, z);
    DigestBinds(Listing([], a, rules), Listing([], b, rules), z, n);
    if Streams(Listing([], a, rules), z) == Streams(Listing([], b, rules), z) {
      ReplacedStream(a, b, x, y, rules, z);
    }
  }

  // and adding one or, read from right to left, taking one away.
  lemma AddedFileShows(a: seq<Entry>, b: seq<Entry>, y: Item, rules: Rules, z: Crypto, n: nat)
    requires Proper(a) && Proper(b) && Added(a, b, y, rules)
    requires n >= 16 && FixedWidth(z, n) && CollisionFree(a, b, rules, z)
    ensures SourceDigest(Some(a), rules, z) != SourceDigest(Some(b), rules, z)
  {
    AddedStream(a, b, y, rules, z);
    DigestBinds(Listing([], a, rules), Listing([], b, rules), z, n);
  }

  // ---- What the walk does not see ------------------------------------------------------------

  lemma ReachesConcat(a: seq<Entry>, e: Entry, path: seq<string>, content: Bytes, rules: Rules)
    ensures Reaches(a + [e], path, content, rules)
            <==> Reaches(a, path, content, rules) || Reaches([e], path, content, rules)
  {
    var all := a + [e];
    assert all[|a|] == e && [e][0] == e;
    assert forall i :: 0 <= i < |a| ==> all[i] == a[i];
  }

  lemma ReachedByName(a: seq<Entry>, path: seq<string>, content: Bytes, rules: Rules)
    requires Reaches(a, path, content, rules)
    ensures exists i :: 0 <= i < |a| && a[i].name == path[0]
  {
  }

  ghost predicate Barren(entries: seq<Entry>, rules: Rules) {
    forall path, content :: !Reaches(entries, path, content, rules)
  }

  // One more entry goes unseen exactly when no kept file can be reached in it.
  lemma UnseenIff(a: seq<Entry>, e: Entry, rules: Rules)
    requires Proper(a + [e]) && Proper(a)
    ensures Listing([], a + [e], rules) == Listing([], a, rules)
            <==> Barren([e], rules)
  {
    if Barren([e], rules) {
      forall path, content
        ensures Reaches(a + [e], path, content, rules) <==> Reaches(a, path, content, rules)
      {
        ReachesConcat(a, e, path, content, rules);
      }
      SameFilesSameDigest(a + [e], a, rules, Crypto(_ => "", _ => []));
    } else {
      var path, content :| Reaches([e], path, content, rules);
      SeenTwice(a, e, path, content, rules);
    }
  }

  lemma FreshName(a: seq<Entry>, e: Entry, path: seq<string>, content: Bytes, rules: Rules)
    requires Proper(a + [e]) && path != [] && path[0] == e.name
    ensures !Reaches(a, path, content, rules)
  {
    assert (a + [e])[|a|] == e;
    assert forall i :: 0 <= i < |a| ==> (a + [e])[i] == a[i];
    if Reaches(a, path, content, rules) {
      ReachedByName(a, path, content, rules);
    }
  }

  lemma SeenTwice(a: seq<Entry>, e: Entry, path: seq<string>, content: Bytes, rules: Rules)
    requires Proper(a + [e]) && Proper(a) && Reaches([e], path, content, rules)
    ensures Listing([], a + [e], rules) != Listing([], a, rules)
  {
    var x := Item(path, content);
    ListingHolds([], a + [e], rules, x);
    ListingHolds([], a, rules, x);
    ReachesConcat(a, e, path, content, rules);
    ReachedByName([e], path, content, rules);
    FreshName(a, e, path, content, rules);
    assert path[0..] == path;
  }

  // What a name ends in.
  ghost predicate Ending(name: string, end: string) { exists front: string :: name == front + end }

  lemma EndsWithMeans(name: string, end: string)
    ensures EndsWith(name, end) <==> Ending(name, end)
  {
    if EndsWith(name, end) {
      assert name == name[..|name| - |end|] + end;
    }
    if front: string :| name == front + end {
      assert name[|name| - |end|..] == end;
    }
  }

  // Compiled files and logs are left out, and the directories on the list.
  lemma KeptMeans(name: string)
    ensures KeptFile(name, HASH_RULES)
            <==> !Ending(name, ".pyc") && !Ending(name, ".log") && !Ending(name, ".DS_Store")
    ensures KeptDir(name, HASH_RULES)
            <==> name !in {"node_modules", "__pycache__", ".git", ".venv", ".next", ".terraform", ".DS_Store",
                           ".pyc", ".log", ".egg-info", "dist", "build", "cdk.out"}
  {
    EndsWithMeans(name, ".pyc");
    EndsWithMeans(name, ".log");
    EndsWithMeans(name, ".DS_Store");
    var s := HASH_RULES.excludedSuffixes;
    assert |s| == 3 && s[0] == ".pyc" && s[1] == ".log" && s[2] == ".DS_Store";
    assert KeptFile(name, HASH_RULES) <==> !EndsWith(name, s[0]) && !EndsWith(name, s[1]) && !EndsWith(name, s[2]);
  }

  // They are not part of the hash.
  lemma ExcludedIsUnseen(a: seq<Entry>, e: Entry)
    requires Proper(a + [e]) && Proper(a)
    requires if e.Dir? then e.name in HASH_RULES.excludedDirs
             else Ending(e.name, ".pyc") || Ending(e.name, ".log") || Ending(e.name, ".DS_Store")
    ensures Listing([], a + [e], HASH_RULES) == Listing([], a, HASH_RULES)
  {
    KeptMeans(e.name);
    ExcludedIsBarren(e, HASH_RULES);
    UnseenIff(a, e, HASH_RULES);
  }

  lemma ExcludedIsBarren(e: Entry, rules: Rules)
    requires if e.Dir? then !KeptDir(e.name, rules) else !KeptFile(e.name, rules)
    ensures Barren([e], rules)
  {
    forall path, content
      ensures !Reaches([e], path, content, rules)
    {
      if Reaches([e], path, content, rules) {
        ReachedByName([e], path, content, rules);
      }
    }
  }

  // Directories go by their whole name: metadata in pkg.egg-info is hashed.
  lemma EggInfoIsSeen(a: seq<Entry>, content: Bytes)
    requires var e := Dir("pkg.egg-info", [File("PKG-INFO", content)]);
             Proper(a + [e]) && Proper(a)
    ensures var e := Dir("pkg.egg-info", [File("PKG-INFO", content)]);
            Listing([], a + [e], HASH_RULES) != Listing([], a, HASH_RULES)
  {
    var inside := [File("PKG-INFO", content)];
    var e := Dir("pkg.egg-info", inside);
    EggInfoIsKept();
    assert inside[0] == File("PKG-INFO", content);
    assert ["pkg.egg-info", "PKG-INFO"][1..] == ["PKG-INFO"];
    assert Reaches(inside, ["PKG-INFO"], content, HASH_RULES);
    assert [e][0] == e;
    assert Reaches([e], ["pkg.egg-info", "PKG-INFO"], content, HASH_RULES);
    SeenTwice(a, e, ["pkg.egg-info", "PKG-INFO"], content, HASH_RULES);
  }

  lemma EggInfoIsKept()
    ensures KeptDir("pkg.egg-info", HASH_RULES) && KeptFile("PKG-INFO", HASH_RULES)
  {
    var d, f := "pkg.egg-info", "PKG-INFO";
    assert |d| == 12 && d[0] == 'p' && |"node_modules"| == 12 && "node_modules"[0] == 'n';
    assert forall s :: s in HASH_RULES.excludedSuffixes ==> s[|s| - 1] != 'O';
    assert f[|f| - 1] == 'O';
  }
}
