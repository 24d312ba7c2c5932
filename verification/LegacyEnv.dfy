// The declared environment of a migrated container.

module LegacyEnv {
  // On its way to the child it is the legacy KEY=VALUE,KEY=VALUE text with its two
  // decoders, or JSON text, and then the map the child is started with.

  import opened Text
  import opened Sorting
  import opened Json

  // One entry of migration.source.env; a dict, so keys are distinct.
  datatype Pair = Pair(key: string, value: string)

  type Env = map<string, string>

  predicate EnvNameChar(c: char) { 'A' <= c <= 'Z' || '0' <= c <= '9' || c == '_' }

  // ^[A-Z][A-Z0-9_]*$
  predicate EnvName(k: string) {
    k != "" && 'A' <= k[0] <= 'Z' && forall i :: 0 <= i < |k| ==> EnvNameChar(k[i])
  }

  // By code point: a capital, then capitals, digits and underscores.
  lemma EnvNameMeans(k: string)
    ensures EnvName(k)
            <==> && |k| > 0 && 65 <= k[0] as int < 91
                 && forall i :: 0 <= i < |k| ==>
                      65 <= k[i] as int < 91 || 48 <= k[i] as int < 58 || k[i] as int == 95
  {
  }

  ghost predicate ValidPairs(pairs: seq<Pair>) {
    && (forall i :: 0 <= i < |pairs| ==> EnvName(pairs[i].key))
    && forall i, j :: 0 <= i < j < |pairs| ==> pairs[i].key != pairs[j].key
  }

  // dict(pairs): a later entry replaces an earlier one.
  function ToMap(pairs: seq<Pair>): Env {
    if pairs == [] then map[]
    else ToMap(pairs[..|pairs| - 1])[pairs[|pairs| - 1].key := pairs[|pairs| - 1].value]
  }

  function Item(p: Pair): string { p.key + "=" + p.value }

  function Items(pairs: seq<Pair>): seq<string> {
    if pairs == [] then [] else Items(pairs[..|pairs| - 1]) + [Item(pairs[|pairs| - 1])]
  }

  function Print(pairs: seq<Pair>): string { Join(Items(pairs), ",") }

  // str.partition("=") on a string that has one.
  function Partition(s: string): (p: Pair)
    requires '=' in s
    ensures '=' !in p.key && s == p.key + "=" + p.value
  {
    if s[0] == '=' then
      assert s == "" + "=" + s[1..];
      Pair("", s[1..])
    else
      assert s == [s[0]] + s[1..];
      var rest := Partition(s[1..]);
      Pair([s[0]] + rest.key, rest.value)
  }

  lemma {:induction false} PartitionItem(k: string, v: string)
    requires '=' !in k
    ensures '=' in k + "=" + v && Partition(k + "=" + v) == Pair(k, v)
  {
    var s := k + "=" + v;
    assert s[|k|] == '=';
    if k == "" {
      assert s[1..] == v;
    } else {
      PartitionItem(k[1..], v);
      assert s[1..] == k[1..] + "=" + v;
      assert [k[0]] + k[1..] == k;
    }
  }

  // ---- app.py's decoder ---------------------------------------------------------------

  // dict(pair.split("=", 1) for pair in pieces if "=" in pair)
  function Decode(pieces: seq<string>): Env {
    if pieces == [] then map[]
    else
      var before := Decode(pieces[..|pieces| - 1]);
      var last := pieces[|pieces| - 1];
      if '=' in last then before[Partition(last).key := Partition(last).value] else before
  }

  function AppDecode(s: string): Env { Decode(Split(s, ',')) }

  // ---- The adapter's decoder -----------------------------------------------------------

  datatype Outcome<T> = Ok(value: T) | Malformed(item: string)

  function Parse(pieces: seq<string>): Outcome<Env> {
    if pieces == [] then Ok(map[])
    else
      var before := Parse(pieces[..|pieces| - 1]);
      var item := Strip(pieces[|pieces| - 1]);
      if before.Malformed? || item == "" then before
      else if '=' !in item then Malformed(item)
      else Ok(before.value[Strip(Partition(item).key) := Partition(item).value])
  }

  lemma {:induction false} ParseStopsAt(pieces: seq<string>, i: nat)
    requires i <= |pieces| && Parse(pieces[..i]).Malformed?
    ensures Parse(pieces) == Parse(pieces[..i])
    decreases |pieces|
  {
    if i < |pieces| {
      assert pieces[..|pieces| - 1][..i] == pieces[..i];
      ParseStopsAt(pieces[..|pieces| - 1], i);
    } else {
      assert pieces[..i] == pieces;
    }
  }

  method ParsePairs(raw: string) returns (r: Outcome<Env>)
    ensures r == Parse(Split(raw, ','))
  {
    var pieces := Split(raw, ',');
    var pairs: Env := map[];
    var i := 0;
    assert pieces[..0] == [];
    while i < |pieces|
      invariant 0 <= i <= |pieces|
      invariant Parse(pieces[..i]) == Ok(pairs)
    {
      assert pieces[..i + 1][..i] == pieces[..i];
      var item := Strip(pieces[i]);
      if item != "" {
        if '=' !in item {
          ParseStopsAt(pieces, i + 1);
          return Malformed(item);
        }
        var p := Partition(item);
        pairs := pairs[Strip(p.key) := p.value];
      }
      i := i + 1;
    }
    assert pieces[..|pieces|] == pieces;
    r := Ok(pairs);
  }

  // ---- What each decoder can return --------------------------------------------------------

  lemma PartitionKeeps(s: string)
    requires '=' in s && ',' !in s
    ensures ',' !in Partition(s).value
    ensures Partition(s).value != "" ==> Partition(s).value[|Partition(s).value| - 1] == s[|s| - 1]
  {
    var p := Partition(s);
    forall i | 0 <= i < |p.value|
      ensures p.value[i] == s[|p.key| + 1 + i]
    {
    }
  }

  lemma {:induction false} DecodedLackCommas(pieces: seq<string>)
    requires forall p :: p in pieces ==> ',' !in p
    ensures forall k :: k in Decode(pieces) ==> ',' !in Decode(pieces)[k]
  {
    if pieces != [] {
      var init, last := pieces[..|pieces| - 1], pieces[|pieces| - 1];
      DecodedLackCommas(init);
      if '=' in last {
        PartitionKeeps(last);
      }
    }
  }

  // A value parse_pairs returns has no comma and ends in no whitespace.
  predicate Tight(v: string) { ',' !in v && (v != "" ==> !IsSpace(v[|v| - 1])) }

  lemma StripKeepsOut(s: string)
    requires ',' !in s
    ensures ',' !in Strip(s) && (Strip(s) != "" ==> !IsSpace(Strip(s)[|Strip(s)| - 1]))
  {
    LStripShape(s);
    RStripShape(LStrip(s));
  }

  lemma PartitionIsTight(piece: string)
    requires ',' !in piece && '=' in Strip(piece)
    ensures Tight(Partition(Strip(piece)).value)
  {
    StripKeepsOut(piece);
    PartitionKeeps(Strip(piece));
  }

  lemma {:induction false} ParsedAreTight(pieces: seq<string>)
    requires forall p :: p in pieces ==> ',' !in p
    ensures Parse(pieces).Ok? ==> forall k :: k in Parse(pieces).value ==> Tight(Parse(pieces).value[k])
  {
    if pieces != [] {
      var init, last := pieces[..|pieces| - 1], pieces[|pieces| - 1];
      ParsedAreTight(init);
      if '=' in Strip(last) {
        PartitionIsTight(last);
      }
    }
  }

  lemma {:induction false} ToMapAt(pairs: seq<Pair>, i: nat)
    requires ValidPairs(pairs) && i < |pairs|
    ensures pairs[i].key in ToMap(pairs) && ToMap(pairs)[pairs[i].key] == pairs[i].value
  {
    if i < |pairs| - 1 {
      ToMapAt(pairs[..|pairs| - 1], i);
    }
  }

  lemma {:induction false} ItemsLackCommas(pairs: seq<Pair>)
    requires ValidPairs(pairs) && forall i :: 0 <= i < |pairs| ==> ',' !in pairs[i].value
    ensures |Items(pairs)| == |pairs| && forall p :: p in Items(pairs) ==> ',' !in p
  {
    if pairs != [] {
      ItemsLackCommas(pairs[..|pairs| - 1]);
      var last := pairs[|pairs| - 1];
      assert EnvName(last.key);
      assert ',' !in Item(last);
    }
  }

  lemma SplitPrinted(pairs: seq<Pair>)
    requires ValidPairs(pairs) && forall i :: 0 <= i < |pairs| ==> ',' !in pairs[i].value
    ensures Split(Print(pairs), ',') == if pairs == [] then [""] else Items(pairs)
  {
    ItemsLackCommas(pairs);
    if pairs != [] {
      SplitJoin(Items(pairs), ',');
    }
  }

  lemma {:induction false} DecodeItems(pairs: seq<Pair>)
    requires ValidPairs(pairs)
    ensures Decode(Items(pairs)) == ToMap(pairs)
  {
    if pairs != [] {
      var init, last := pairs[..|pairs| - 1], pairs[|pairs| - 1];
      DecodeItems(init);
      assert EnvName(last.key);
      PartitionItem(last.key, last.value);
      assert Items(pairs)[..|Items(pairs)| - 1] == Items(init);
    }
  }

  lemma EnvNameTrimmed(k: string)
    requires EnvName(k)
    ensures Strip(k) == k && '=' !in k
  {
  }

  // One more good item is one more entry.
  lemma ParseSnoc(items: seq<string>, before: Env, p: Pair)
    requires Parse(items) == Ok(before) && EnvName(p.key) && Tight(p.value)
    ensures Parse(items + [Item(p)]) == Ok(before[p.key := p.value])
  {
    ItemStrips(p);
    assert (items + [Item(p)])[..|items|] == items;
  }

  lemma ItemStrips(p: Pair)
    requires EnvName(p.key) && Tight(p.value)
    ensures Strip(Item(p)) == Item(p) != "" && '=' in Item(p) && Partition(Item(p)) == p && Strip(p.key) == p.key
  {
    EnvNameTrimmed(p.key);
    PartitionItem(p.key, p.value);
    assert Trimmed(Item(p));
    StripTrimmed(Item(p));
  }

  lemma {:induction false} ParseItems(pairs: seq<Pair>)
    requires ValidPairs(pairs) && forall i :: 0 <= i < |pairs| ==> Tight(pairs[i].value)
    ensures Parse(Items(pairs)) == Ok(ToMap(pairs))
  {
    if pairs != [] {
      var init, last := pairs[..|pairs| - 1], pairs[|pairs| - 1];
      ParseItems(init);
      assert EnvName(last.key) && Tight(last.value);
      ParseSnoc(Items(init), ToMap(init), last);
    }
  }

  // ---- Main results ---------------------------------------------------------------------------

  // app.py's decoder returns what was printed exactly when no value holds a comma.
  lemma AppRoundTrip(pairs: seq<Pair>)
    requires ValidPairs(pairs)
    ensures AppDecode(Print(pairs)) == ToMap(pairs) <==> forall i :: 0 <= i < |pairs| ==> ',' !in pairs[i].value
  {
    if forall i :: 0 <= i < |pairs| ==> ',' !in pairs[i].value {
      SplitPrinted(pairs);
      DecodeItems(pairs);
      assert [""][..0] == [];
    } else {
      var i :| 0 <= i < |pairs| && ',' in pairs[i].value;
      ToMapAt(pairs, i);
      SplitPiecesLackSeparator(Print(pairs), ',');
      DecodedLackCommas(Split(Print(pairs), ','));
    }
  }

  // The adapter's decoder also loses whitespace at the end of a value.
  lemma AdapterRoundTrip(pairs: seq<Pair>)
    requires ValidPairs(pairs)
    ensures Parse(Split(Print(pairs), ',')) == Ok(ToMap(pairs))
            <==> forall i :: 0 <= i < |pairs| ==> Tight(pairs[i].value)
  {
    if forall i :: 0 <= i < |pairs| ==> Tight(pairs[i].value) {
      SplitPrinted(pairs);
      ParseItems(pairs);
      assert [""][..0] == [];
    } else {
      var i :| 0 <= i < |pairs| && !Tight(pairs[i].value);
      ToMapAt(pairs, i);
      SplitPiecesLackSeparator(Print(pairs), ',');
      ParsedAreTight(Split(Print(pairs), ','));
    }
  }

  // Where both decoders are exact they agree; in particular the adapter is never
  // right where app.py is wrong.
  lemma AdapterImpliesApp(pairs: seq<Pair>)
    requires ValidPairs(pairs) && Parse(Split(Print(pairs), ',')) == Ok(ToMap(pairs))
    ensures AppDecode(Print(pairs)) == ToMap(pairs)
  {
    AppRoundTrip(pairs);
    AdapterRoundTrip(pairs);
    forall i | 0 <= i < |pairs|
      ensures ',' !in pairs[i].value
    {
      assert Tight(pairs[i].value);
    }
  }

  // A value that holds a comma prints like two entries.
  lemma LegacyTextIsAmbiguous(k: string, x: string, l: string, y: string)
    requires EnvName(k) && EnvName(l) && k != l
    ensures var one := [Pair(k, x + "," + l + "=" + y)]; var two := [Pair(k, x), Pair(l, y)];
            ValidPairs(one) && ValidPairs(two) && Print(one) == Print(two) && ToMap(one) != ToMap(two)
  {
    var one, two := [Pair(k, x + "," + l + "=" + y)], [Pair(k, x), Pair(l, y)];
    assert one[..0] == [] && two[..1] == [two[0]] && two[..1][..0] == [];
    assert Items(one) == [Item(one[0])];
    assert Items(two[..1]) == [Item(two[0])];
    assert Items(two) == [Item(two[0]), Item(two[1])];
    var items := Items(two);
    assert |items| == 2 && items[0] == Item(two[0]) && items[1..] == [Item(two[1])];
    assert Join(items[1..], ",") == Item(two[1]);
    assert Print(two) == items[0] + "," + Join(items[1..], ",");
    assert Print(one) == Item(one[0]) == Item(two[0]) + "," + Item(two[1]);
    assert ToMap(one[..0]) == map[] && ToMap(one) == map[k := one[0].value];
    assert l in ToMap(two);
  }

  // ---- The JSON transport ------------------------------------------------------------------------

  function Fields(pairs: seq<Pair>): seq<Field> {
    if pairs == [] then []
    else Fields(pairs[..|pairs| - 1]) + [Field(pairs[|pairs| - 1].key, Str(pairs[|pairs| - 1].value))]
  }

  function FieldKey(f: Field): string { f.key }

  // json.dumps(env, separators=(",", ":"), sort_keys=True)
  function PrintJson(pairs: seq<Pair>): string { Dumps(Obj(Sort(FieldKey, Fields(pairs))), Compact) }

  lemma {:induction false} FieldsHold(pairs: seq<Pair>, k: string, v: string)
    requires ValidPairs(pairs)
    ensures Field(k, Str(v)) in Fields(pairs) <==> k in ToMap(pairs) && ToMap(pairs)[k] == v
  {
    if pairs != [] {
      var init, last := pairs[..|pairs| - 1], pairs[|pairs| - 1];
      FieldsHold(init, k, v);
      if k == last.key {
        FieldsFrom(init, k, v);
      }
    }
  }

  lemma {:induction false} FieldsFrom(pairs: seq<Pair>, k: string, v: string)
    ensures Field(k, Str(v)) in Fields(pairs) ==> exists i :: 0 <= i < |pairs| && pairs[i].key == k
  {
    if pairs != [] {
      FieldsFrom(pairs[..|pairs| - 1], k, v);
      assert pairs[|pairs| - 1].key == k ==> exists i :: 0 <= i < |pairs| && pairs[i].key == k;
    }
  }

  // The JSON text loses nothing: it is the same for two environments only when
  // they are the same map, commas, equals signs and whitespace included.
  lemma JsonTextIsLossless(a: seq<Pair>, b: seq<Pair>)
    requires ValidPairs(a) && ValidPairs(b) && PrintJson(a) == PrintJson(b)
    ensures ToMap(a) == ToMap(b)
  {
    DumpsInjective(Obj(Sort(FieldKey, Fields(a))), Obj(Sort(FieldKey, Fields(b))), Compact);
    SortBinds(FieldKey, Fields(a), Fields(b));
    SameEntries(a, b);
    SameEntries(b, a);
    assert ToMap(a).Keys == ToMap(b).Keys;
  }

  lemma SameEntries(a: seq<Pair>, b: seq<Pair>)
    requires ValidPairs(a) && ValidPairs(b) && multiset(Fields(a)) == multiset(Fields(b))
    ensures forall k :: k in ToMap(a) ==> k in ToMap(b) && ToMap(b)[k] == ToMap(a)[k]
  {
    forall k | k in ToMap(a)
      ensures k in ToMap(b) && ToMap(b)[k] == ToMap(a)[k]
    {
      var v := ToMap(a)[k];
      FieldsHold(a, k, v);
      FieldsHold(b, k, v);
      assert Field(k, Str(v)) in multiset(Fields(a));
    }
  }

  // ---- The child's environment -------------------------------------------------------------------

  const JSON_NAME: string := "MIGRATION_ENV_JSON"
  const LEGACY_NAME: string := "MIGRATION_ENV"

  // `parseJson` is parse_env_json, None where it raises.
  function MigrationEnv(environ: Env, parseJson: string -> Option<Env>): Outcome<Env> {
    if JSON_NAME in environ then
      var parsed := parseJson(environ[JSON_NAME]);
      if parsed.Some? then Ok(parsed.value) else Malformed(JSON_NAME)
    else Parse(Split(if LEGACY_NAME in environ then environ[LEGACY_NAME] else "", ','))
  }

  // Secrets over declared values over the adapter's own environment.
  method BuildChildEnv(environ: Env, secrets: Env, parseJson: string -> Option<Env>) returns (r: Outcome<Env>)
    ensures r.Ok? <==> MigrationEnv(environ, parseJson).Ok?
    ensures r.Ok? ==>
      var declared := MigrationEnv(environ, parseJson).value;
      forall k :: (k in r.value <==> k in secrets || k in declared || k in environ)
                  && (k in r.value ==> r.value[k] == if k in secrets then secrets[k]
                                                    else if k in declared then declared[k]
                                                    else environ[k])
  {
    var child := environ;
    var declared;
    if JSON_NAME in environ {
      var parsed := parseJson(environ[JSON_NAME]);
      if parsed.None? {
        return Malformed(JSON_NAME);
      }
      declared := parsed.value;
    } else {
      var parsed := ParsePairs(if LEGACY_NAME in environ then environ[LEGACY_NAME] else "");
      if parsed.Malformed? {
        return parsed;
      }
      declared := parsed.value;
    }
    child := child + declared;
    child := child + secrets;
    r := Ok(child);
  }
}
