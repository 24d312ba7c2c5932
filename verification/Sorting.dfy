// sorted() with a string key. Insertion keeps equal keys in their order, as
// Python's stable sort does; what matters to the digests is that the result
// depends only on the multiset of elements when keys are unique, and that it
// always determines that multiset.

module Sorting {

  // Python compares strings by code point, left to right.
  predicate Le(a: string, b: string) {
    if a == "" then true
    else if b == "" then false
    else if a[0] == b[0] then Le(a[1..], b[1..])
    else a[0] < b[0]
  }

  // The first difference, at k, has the smaller character in a.
  ghost predicate Smaller(a: string, b: string, k: nat) {
    k < |a| && k < |b| && (forall i :: 0 <= i < k ==> a[i] == b[i]) && a[k] as int < b[k] as int
  }

  // A prefix comes first, and otherwise the first difference decides.
  lemma {:induction false} LeMeans(a: string, b: string)
    ensures Le(a, b) <==> a <= b || exists k: nat :: Smaller(a, b, k)
  {
    if a != "" && b != "" {
      if a[0] == b[0] {
        LeMeans(a[1..], b[1..]);
        assert a == [a[0]] + a[1..] && b == [b[0]] + b[1..];
        if k: nat :| Smaller(a[1..], b[1..], k) {
          assert Smaller(a, b, k + 1);
        }
        if k: nat :| Smaller(a, b, k) {
          assert Smaller(a[1..], b[1..], k - 1);
        }
      } else if a[0] < b[0] {
        assert Smaller(a, b, 0);
      }
    }
  }

  predicate Lt(a: string, b: string) { Le(a, b) && a != b }

  lemma {:induction false} LeTotal(a: string, b: string)
    ensures Le(a, b) || Le(b, a)
  {
    if a != "" && b != "" && a[0] == b[0] {
      LeTotal(a[1..], b[1..]);
    }
  }

  lemma {:induction false} LeAntisymmetric(a: string, b: string)
    requires Le(a, b) && Le(b, a)
    ensures a == b
  {
    if a != "" && b != "" && a[0] == b[0] {
      LeAntisymmetric(a[1..], b[1..]);
      assert a == [a[0]] + a[1..] && b == [b[0]] + b[1..];
    }
  }

  lemma {:induction false} LeTransitive(a: string, b: string, c: string)
    requires Le(a, b) && Le(b, c)
    ensures Le(a, c)
  {
    if a != "" && b != "" && c != "" && a[0] == b[0] == c[0] {
      LeTransitive(a[1..], b[1..], c[1..]);
    }
  }

  lemma {:induction false} LeReflexive(a: string)
    ensures Le(a, a)
  {
    if a != "" {
      LeReflexive(a[1..]);
    }
  }

  function Insert<T>(key: T -> string, x: T, s: seq<T>): seq<T> {
    if s == [] then [x]
    else if Le(key(x), key(s[0])) then [x] + s
    else [s[0]] + Insert(key, x, s[1..])
  }

  function Sort<T>(key: T -> string, s: seq<T>): seq<T> {
    if s == [] then [] else Insert(key, s[0], Sort(key, s[1..]))
  }

  function Self(s: string): string { s }

  function SortStrings(s: seq<string>): seq<string> { Sort(Self, s) }

  ghost predicate Sorted<T>(key: T -> string, s: seq<T>) {
    forall i, j :: 0 <= i < j < |s| ==> Le(key(s[i]), key(s[j]))
  }

  // Elements that agree on the key are the same element.
  ghost predicate Faithful<T(!new)>(key: T -> string, s: seq<T>) {
    forall i, j :: 0 <= i < |s| && 0 <= j < |s| && key(s[i]) == key(s[j]) ==> s[i] == s[j]
  }

  lemma {:induction false} InsertPermutes<T>(key: T -> string, x: T, s: seq<T>)
    ensures multiset(Insert(key, x, s)) == multiset(s) + multiset{x}
  {
    if s != [] && !Le(key(x), key(s[0])) {
      InsertPermutes(key, x, s[1..]);
      assert s == [s[0]] + s[1..];
    }
  }

  lemma {:induction false} SortPermutes<T>(key: T -> string, s: seq<T>)
    ensures multiset(Sort(key, s)) == multiset(s)
  {
    if s != [] {
      SortPermutes(key, s[1..]);
      InsertPermutes(key, s[0], Sort(key, s[1..]));
      assert s == [s[0]] + s[1..];
    }
  }

  lemma {:induction false} InsertSorts<T>(key: T -> string, x: T, s: seq<T>)
    requires Sorted(key, s)
    ensures Sorted(key, Insert(key, x, s))
  {
    if s == [] {
    } else if Le(key(x), key(s[0])) {
      forall j | 0 <= j < |s|
        ensures Le(key(x), key(s[j]))
      {
        if j > 0 {
          LeTransitive(key(x), key(s[0]), key(s[j]));
        }
      }
    } else {
      LeTotal(key(x), key(s[0]));
      InsertSorts(key, x, s[1..]);
      InsertPermutes(key, x, s[1..]);
      var r := Insert(key, x, s[1..]);
      forall j | 0 <= j < |r|
        ensures Le(key(s[0]), key(r[j]))
      {
        assert r[j] in multiset(r);
        assert r[j] == x || r[j] in s[1..];
      }
    }
  }

  lemma {:induction false} SortSorts<T>(key: T -> string, s: seq<T>)
    ensures Sorted(key, Sort(key, s))
  {
    if s != [] {
      SortSorts(key, s[1..]);
      InsertSorts(key, s[0], Sort(key, s[1..]));
    }
  }

  lemma HeadLeast<T>(key: T -> string, s: seq<T>, x: T)
    requires Sorted(key, s) && x in s
    ensures s != [] && Le(key(s[0]), key(x))
  {
    var i :| 0 <= i < |s| && s[i] == x;
    LeReflexive(key(x));
  }

  // Sorted order is unique: two sorted lists with the same elements are equal.
  lemma {:induction false} SortedUnique<T(!new)>(key: T -> string, a: seq<T>, b: seq<T>)
    requires Sorted(key, a) && Sorted(key, b)
    requires multiset(a) == multiset(b) && Faithful(key, a)
    ensures a == b
  {
    assert |a| == |multiset(a)| == |multiset(b)| == |b|;
    if a != [] {
      SameHead(key, a, b);
      TailMultiset(a);
      TailMultiset(b);
      SortedUnique(key, a[1..], b[1..]);
      assert a == [a[0]] + a[1..] && b == [b[0]] + b[1..];
    }
  }

  lemma TailMultiset<T>(a: seq<T>)
    requires a != []
    ensures multiset(a[1..]) == multiset(a) - multiset{a[0]}
  {
    assert a == [a[0]] + a[1..];
  }

  lemma SameHead<T(!new)>(key: T -> string, a: seq<T>, b: seq<T>)
    requires a != [] && b != [] && Sorted(key, a) && Sorted(key, b)
    requires multiset(a) == multiset(b) && Faithful(key, a)
    ensures a[0] == b[0]
  {
    assert a[0] in multiset(b) && b[0] in multiset(a);
    HeadLeast(key, a, b[0]);
    HeadLeast(key, b, a[0]);
    LeAntisymmetric(key(a[0]), key(b[0]));
    var j :| 0 <= j < |a| && a[j] == b[0];
    assert key(a[0]) == key(a[j]);
  }

  // sorted() forgets the order its input came in.
  lemma SortCanonical<T(!new)>(key: T -> string, a: seq<T>, b: seq<T>)
    requires multiset(a) == multiset(b) && Faithful(key, a)
    ensures Sort(key, a) == Sort(key, b)
  {
    SortSorts(key, a);
    SortSorts(key, b);
    SortPermutes(key, a);
    SortPermutes(key, b);
    FaithfulPermutes(key, a, Sort(key, a));
    SortedUnique(key, Sort(key, a), Sort(key, b));
  }

  lemma FaithfulPermutes<T(!new)>(key: T -> string, a: seq<T>, b: seq<T>)
    requires multiset(a) == multiset(b) && Faithful(key, a)
    ensures Faithful(key, b)
  {
    forall i, j | 0 <= i < |b| && 0 <= j < |b| && key(b[i]) == key(b[j])
      ensures b[i] == b[j]
    {
      assert b[i] in multiset(a) && b[j] in multiset(a);
    }
  }

  // ... and nothing else.
  lemma SortBinds<T>(key: T -> string, a: seq<T>, b: seq<T>)
    requires Sort(key, a) == Sort(key, b)
    ensures multiset(a) == multiset(b)
  {
    SortPermutes(key, a);
    SortPermutes(key, b);
  }

  lemma SortStringsCanonical(a: seq<string>, b: seq<string>)
    ensures SortStrings(a) == SortStrings(b) <==> multiset(a) == multiset(b)
  {
    if multiset(a) == multiset(b) {
      SortCanonical(Self, a, b);
    } else {
      SortPermutes(Self, a);
      SortPermutes(Self, b);
    }
  }
}
