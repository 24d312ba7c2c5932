// json.dumps(document, separators=(",", ":"), sort_keys=True): the canonical
// bytes a plan digest is taken over. A record is a list of keys and, in the same
// order, a list of values; its canonical text determines every value and does
// not depend on the order of the fields.

module Canonical {
  import opened Sorting
  import opened Json
  import opened Text

  function KeyOf(f: Field): string { f.key }

  function SortKeys(v: Json): Json
    decreases v, 0
  {
    match v
    case Arr(items) => Arr(SortItems(items))
    case Obj(fields) => Obj(Sort(KeyOf, SortValues(fields)))
    case _ => v
  }

  function SortItems(items: seq<Json>): (r: seq<Json>)
    ensures |r| == |items| && forall i :: 0 <= i < |items| ==> r[i] == SortKeys(items[i])
    decreases items, 0
  {
    if items == [] then [] else [SortKeys(items[0])] + SortItems(items[1..])
  }

  function SortValues(fields: seq<Field>): (r: seq<Field>)
    ensures |r| == |fields| && forall i :: 0 <= i < |fields| ==> r[i] == Field(fields[i].key, SortKeys(fields[i].value))
    decreases fields, 0
  {
    if fields == [] then []
    else [Field(fields[0].key, SortKeys(fields[0].value))] + SortValues(fields[1..])
  }

  function CanonicalText(v: Json): string { Dumps(SortKeys(v), Compact) }

  // Canonical text determines the value up to the order of object fields.
  lemma CanonicalBinds(a: Json, b: Json)
    requires CanonicalText(a) == CanonicalText(b)
    ensures SortKeys(a) == SortKeys(b)
  {
    DumpsInjective(SortKeys(a), SortKeys(b), Compact);
  }

  lemma {:induction false} InsertCommutes(x: Field, fs: seq<Field>)
    ensures SortValues(Insert(KeyOf, x, fs)) == Insert(KeyOf, Field(x.key, SortKeys(x.value)), SortValues(fs))
  {
    if fs != [] {
      if Le(x.key, fs[0].key) {
        assert ([x] + fs)[1..] == fs;
      } else {
        InsertCommutes(x, fs[1..]);
        assert ([fs[0]] + Insert(KeyOf, x, fs[1..]))[1..] == Insert(KeyOf, x, fs[1..]);
      }
    }
  }

  lemma {:induction false} SortCommutes(fs: seq<Field>)
    ensures SortValues(Sort(KeyOf, fs)) == Sort(KeyOf, SortValues(fs))
  {
    if fs != [] {
      SortCommutes(fs[1..]);
      InsertCommutes(fs[0], Sort(KeyOf, fs[1..]));
    }
  }

  // Insertion order does not show in the canonical text.
  lemma CanonicalIgnoresFieldOrder(fs: seq<Field>, gs: seq<Field>)
    requires multiset(fs) == multiset(gs)
    requires forall i, j :: 0 <= i < j < |fs| ==> fs[i].key != fs[j].key
    ensures SortKeys(Obj(fs)) == SortKeys(Obj(gs))
  {
    SortCanonical(KeyOf, fs, gs);
    SortCommutes(fs);
    SortCommutes(gs);
  }

  // ---- Reading a record back ----------------------------------------------

  ghost predicate SameKeys(fs: seq<Field>, gs: seq<Field>) {
    |fs| == |gs| && forall i :: 0 <= i < |fs| ==> fs[i].key == gs[i].key
  }

  lemma {:induction false} InsertBinds(x: Field, y: Field, fs: seq<Field>, gs: seq<Field>)
    requires x.key == y.key && SameKeys(fs, gs)
    ensures SameKeys(Insert(KeyOf, x, fs), Insert(KeyOf, y, gs))
    ensures Insert(KeyOf, x, fs) == Insert(KeyOf, y, gs) ==> x == y && fs == gs
  {
    if fs != [] {
      var a, b := Insert(KeyOf, x, fs), Insert(KeyOf, y, gs);
      if Le(x.key, fs[0].key) {
        assert a == b ==> a[0] == b[0] && a[1..] == b[1..];
      } else {
        InsertBinds(x, y, fs[1..], gs[1..]);
        assert a == b ==> a[0] == b[0] && a[1..] == b[1..];
        assert fs == [fs[0]] + fs[1..] && gs == [gs[0]] + gs[1..];
      }
    } else {
      assert Insert(KeyOf, x, fs)[0] == x && Insert(KeyOf, y, gs)[0] == y;
    }
  }

  lemma {:induction false} SortBindsRecord(fs: seq<Field>, gs: seq<Field>)
    requires SameKeys(fs, gs)
    ensures SameKeys(Sort(KeyOf, fs), Sort(KeyOf, gs))
    ensures Sort(KeyOf, fs) == Sort(KeyOf, gs) ==> fs == gs
  {
    if fs != [] {
      SortBindsRecord(fs[1..], gs[1..]);
      InsertBinds(fs[0], gs[0], Sort(KeyOf, fs[1..]), Sort(KeyOf, gs[1..]));
      assert fs == [fs[0]] + fs[1..] && gs == [gs[0]] + gs[1..];
    }
  }

  // A record: keys and, in the same order, values.
  function Zip(keys: seq<string>, values: seq<Json>): (r: seq<Field>)
    requires |keys| == |values|
    ensures |r| == |keys| && forall i :: 0 <= i < |keys| ==> r[i] == Field(keys[i], values[i])
  {
    seq(|keys|, i requires 0 <= i < |keys| => Field(keys[i], values[i]))
  }

  function Rec(keys: seq<string>, values: seq<Json>): Json
    requires |keys| == |values|
  {
    Obj(Zip(keys, values))
  }

  // Two records written with the same keys bind each field.
  lemma RecordBinds(fs: seq<Field>, gs: seq<Field>)
    requires SameKeys(fs, gs) && SortKeys(Obj(fs)) == SortKeys(Obj(gs))
    ensures forall i :: 0 <= i < |fs| ==> SortKeys(fs[i].value) == SortKeys(gs[i].value)
  {
    SortBindsRecord(SortValues(fs), SortValues(gs));
    forall i | 0 <= i < |fs|
      ensures SortKeys(fs[i].value) == SortKeys(gs[i].value)
    {
      assert SortValues(fs)[i] == SortValues(gs)[i];
    }
  }

  lemma RecBinds(keys: seq<string>, xs: seq<Json>, ys: seq<Json>)
    requires |keys| == |xs| == |ys| && SortKeys(Rec(keys, xs)) == SortKeys(Rec(keys, ys))
    ensures forall i :: 0 <= i < |xs| ==> SortKeys(xs[i]) == SortKeys(ys[i])
  {
    var fs, gs := Zip(keys, xs), Zip(keys, ys);
    RecordBinds(fs, gs);
    forall i | 0 <= i < |xs|
      ensures SortKeys(xs[i]) == SortKeys(ys[i])
    {
      assert SortKeys(fs[i].value) == SortKeys(gs[i].value);
    }
  }

  lemma RecBindsAt(keys: seq<string>, xs: seq<Json>, ys: seq<Json>, i: nat)
    requires |keys| == |xs| == |ys| && SortKeys(Rec(keys, xs)) == SortKeys(Rec(keys, ys)) && i < |xs|
    ensures SortKeys(xs[i]) == SortKeys(ys[i])
  {
    RecBinds(keys, xs, ys);
  }

  lemma ArrayBinds(xs: seq<Json>, ys: seq<Json>)
    requires SortKeys(Arr(xs)) == SortKeys(Arr(ys))
    ensures |xs| == |ys| && forall i :: 0 <= i < |xs| ==> SortKeys(xs[i]) == SortKeys(ys[i])
  {
    assert SortItems(xs) == SortItems(ys);
    forall i | 0 <= i < |xs|
      ensures SortKeys(xs[i]) == SortKeys(ys[i])
    {
      assert SortItems(xs)[i] == SortItems(ys)[i];
    }
  }

  function Strings(ss: seq<string>): Json {
    Arr(seq(|ss|, i requires 0 <= i < |ss| => Str(ss[i])))
  }

  lemma StringsBind(ss: seq<string>, ts: seq<string>)
    requires SortKeys(Strings(ss)) == SortKeys(Strings(ts))
    ensures ss == ts
  {
    var xs, ys := Strings(ss).items, Strings(ts).items;
    ArrayBinds(xs, ys);
    forall i | 0 <= i < |ss|
      ensures ss[i] == ts[i]
    {
      assert SortKeys(xs[i]) == SortKeys(ys[i]);
    }
  }

  function Ints(ns: seq<int>): Json {
    Arr(seq(|ns|, i requires 0 <= i < |ns| => IntNum(ns[i])))
  }

  lemma IntsBind(ms: seq<int>, ns: seq<int>)
    requires SortKeys(Ints(ms)) == SortKeys(Ints(ns))
    ensures ms == ns
  {
    var xs, ys := Ints(ms).items, Ints(ns).items;
    ArrayBinds(xs, ys);
    forall i | 0 <= i < |ms|
      ensures ms[i] == ns[i]
    {
      assert SortKeys(xs[i]) == SortKeys(ys[i]);
      IntBinds(ms[i], ns[i]);
    }
  }

  lemma IntBinds(m: int, n: int)
    requires SortKeys(IntNum(m)) == SortKeys(IntNum(n))
    ensures m == n
  {
    NumberInjective(m, n);
  }

  // ... and nothing else about the record matters.
  lemma RecordSame(fs: seq<Field>, gs: seq<Field>)
    requires SameKeys(fs, gs)
    requires forall i :: 0 <= i < |fs| ==> SortKeys(fs[i].value) == SortKeys(gs[i].value)
    ensures SortKeys(Obj(fs)) == SortKeys(Obj(gs))
  {
    assert SortValues(fs) == SortValues(gs);
  }

  lemma RecSame(keys: seq<string>, xs: seq<Json>, ys: seq<Json>)
    requires |keys| == |xs| == |ys| && forall i :: 0 <= i < |xs| ==> SortKeys(xs[i]) == SortKeys(ys[i])
    ensures SortKeys(Rec(keys, xs)) == SortKeys(Rec(keys, ys))
  {
    RecordSame(Zip(keys, xs), Zip(keys, ys));
  }
}
