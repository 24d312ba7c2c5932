// Loading a control artifact: parameters resolved against the catalog entry,
// sentinels replaced, and whatever is left over refused.

module PolicyLoader {
  import opened Text
  import opened Sorting
  import opened Json
  import opened Tokens
  import opened LeftoverScan
  import opened Substitution

  datatype Spec = Spec(default: Option<Json>, required: bool)

  // The `params` mapping of a catalog entry, in its order.
  datatype Declared = Declared(name: string, spec: Spec)

  ghost predicate DistinctNames(schema: seq<Declared>) {
    forall i, j :: 0 <= i < j < |schema| ==> schema[i].name != schema[j].name
  }

  predicate MissingAt(schema: seq<Declared>, params: Params, i: nat)
    requires i < |schema|
  {
    schema[i].name !in params && schema[i].spec.default.None? && schema[i].spec.required
  }

  predicate DefaultedAt(schema: seq<Declared>, params: Params, i: nat)
    requires i < |schema|
  {
    schema[i].name !in params && schema[i].spec.default.Some?
  }

  // Caller parameters, then defaults for the names the caller left out.
  ghost predicate Resolves(schema: seq<Declared>, params: Params, resolved: Params) {
    && (forall k :: k in params ==> k in resolved && resolved[k] == params[k])
    && (forall i: nat :: i < |schema| && DefaultedAt(schema, params, i) ==>
          schema[i].name in resolved && resolved[schema[i].name] == schema[i].spec.default.value)
    && (forall k :: k in resolved ==>
          k in params || exists i: nat :: i < |schema| && DefaultedAt(schema, params, i) && schema[i].name == k)
  }

  datatype Resolution = Resolved(params: Params) | Missing(names: seq<string>)

  // The sorted names of the required parameters that nothing supplies.
  function MissingNames(schema: seq<Declared>, params: Params): seq<string> {
    if schema == [] then []
    else
      var init := |schema| - 1;
      MissingNames(schema[..init], params) + (if MissingAt(schema, params, init) then [schema[init].name] else [])
  }

  lemma {:induction false} MissingNamesMeans(schema: seq<Declared>, params: Params)
    ensures MissingNames(schema, params) == [] <==> forall i: nat :: i < |schema| ==> !MissingAt(schema, params, i)
  {
    if schema != [] {
      var init := |schema| - 1;
      MissingNamesMeans(schema[..init], params);
      forall i: nat | i < init
        ensures MissingAt(schema[..init], params, i) == MissingAt(schema, params, i)
      {
      }
    }
  }

  method ResolveParams(schema: seq<Declared>, params: Params) returns (r: Resolution)
    requires DistinctNames(schema)
    ensures r.Resolved? <==> forall i: nat :: i < |schema| ==> !MissingAt(schema, params, i)
    ensures r.Resolved? ==> Resolves(schema, params, r.params)
    ensures r.Missing? ==> r.names == SortStrings(MissingNames(schema, params))
  {
    var resolved := params;
    var missing: seq<string> := [];
    var i: nat := 0;
    assert schema[..0] == [];
    while i < |schema|
      invariant i <= |schema|
      invariant Resolves(schema[..i], params, resolved)
      invariant missing == MissingNames(schema[..i], params)
    {
      var name, spec := schema[i].name, schema[i].spec;
      assert schema[..i + 1][..i] == schema[..i];
      assert name in resolved <==> name in params;
      ResolveOne(schema, params, resolved, i);
      if name in resolved {
      } else if spec.default.Some? {
        resolved := resolved[name := spec.default.value];
      } else if spec.required {
        missing := missing + [name];
      }
      i := i + 1;
    }
    assert schema[..|schema|] == schema;
    MissingNamesMeans(schema, params);
    if missing != [] {
      return Missing(SortStrings(missing));
    }
    r := Resolved(resolved);
  }

  lemma ResolveOne(schema: seq<Declared>, params: Params, resolved: Params, i: nat)
    requires i < |schema| && DistinctNames(schema) && Resolves(schema[..i], params, resolved)
    ensures Resolves(schema[..i + 1], params,
                     if DefaultedAt(schema, params, i)
                     then resolved[schema[i].name := schema[i].spec.default.value] else resolved)
  {
    var next := if DefaultedAt(schema, params, i)
                then resolved[schema[i].name := schema[i].spec.default.value] else resolved;
    forall j: nat | j < i + 1 && DefaultedAt(schema[..i + 1], params, j)
      ensures schema[j].name in next && next[schema[j].name] == schema[j].spec.default.value
    {
      if j < i {
        assert DefaultedAt(schema[..i], params, j);
      }
    }
    forall k | k in next
      ensures k in params
              || exists j: nat :: j < i + 1 && DefaultedAt(schema[..i + 1], params, j) && schema[j].name == k
    {
      if k in resolved && k !in params {
        var j: nat :| j < i && DefaultedAt(schema[..i], params, j) && schema[..i][j].name == k;
        assert DefaultedAt(schema[..i + 1], params, j);
      } else if k !in params {
        assert DefaultedAt(schema[..i + 1], params, i);
      }
    }
  }

  // Resolution has one answer.
  lemma ResolutionIsUnique(schema: seq<Declared>, params: Params, a: Params, b: Params)
    requires Resolves(schema, params, a) && Resolves(schema, params, b)
    ensures a == b
  {
    Included(schema, params, a, b);
    Included(schema, params, b, a);
    assert a.Keys == b.Keys;
  }

  lemma Included(schema: seq<Declared>, params: Params, a: Params, b: Params)
    requires Resolves(schema, params, a) && Resolves(schema, params, b)
    ensures forall k :: k in a ==> k in b && a[k] == b[k]
  {
    forall k | k in a
      ensures k in b && a[k] == b[k]
    {
      if k !in params {
        var i: nat :| i < |schema| && DefaultedAt(schema, params, i) && schema[i].name == k;
      }
    }
  }

  // ---- The two loaders -------------------------------------------------------------------

  datatype Outcome<T> =
    | Loaded(value: T)
    | MissingParams(missing: seq<string>)
    | Unresolved(leftover: set<string>)

  function SetOf(names: seq<string>): set<string> { set i | 0 <= i < |names| :: names[i] }

  // One of these strings holds a token of this name with plain spaces inside.
  ghost predicate TokenIn(strings: seq<string>, name: string) {
    exists i: nat :: i < |strings| && Holds(strings[i], name, SpaceOnly)
  }

  lemma {:induction false} NamesInMeans(strings: seq<string>, name: string)
    ensures name in NamesIn(strings, SpaceOnly) <==> TokenIn(strings, name)
  {
    if strings != [] {
      NamesInMeans(strings[1..], name);
      FindAllMeans(strings[0], name, SpaceOnly);
      if i: nat :| i < |strings| && Holds(strings[i], name, SpaceOnly) {
        assert i == 0 || strings[1..][i - 1] == strings[i];
      }
      if i: nat :| i < |strings| - 1 && Holds(strings[1..][i], name, SpaceOnly) {
        assert strings[i + 1] == strings[1..][i];
      }
    }
  }

  // The names that are reported are those of the tokens left in some key or leaf.
  lemma LeftoverNames(rendered: Json)
    ensures forall n :: n in SetOf(FindAll(Dumps(rendered, Spaced), AnySpace)) <==> TokenIn(Strings(rendered), n)
  {
    ScanFindsPerString(rendered);
    forall n
      ensures n in SetOf(NamesIn(Strings(rendered), SpaceOnly)) <==> TokenIn(Strings(rendered), n)
    {
      NamesInMeans(Strings(rendered), n);
    }
  }

  method LoadControl(doc: Json, schema: seq<Declared>, params: Params, repr: Json -> string)
    returns (r: Outcome<Json>, ghost resolved: Params)
    requires DistinctNames(schema)
    ensures r.MissingParams? <==> exists i: nat :: i < |schema| && MissingAt(schema, params, i)
    ensures !r.MissingParams? ==> Resolves(schema, params, resolved)
    ensures r.Loaded? ==> r.value == Subst(doc, resolved, repr) && !LeftoverScan.Found(Strings(r.value), SpaceOnly)
    ensures r.Unresolved? ==> LeftoverScan.Found(Strings(Subst(doc, resolved, repr)), SpaceOnly) && r.leftover != {}
    ensures r.Unresolved? ==> forall n :: n in r.leftover <==> TokenIn(Strings(Subst(doc, resolved, repr)), n)
  {
    var resolution := ResolveParams(schema, params);
    if resolution.Missing? {
      resolved := map[];
      return MissingParams(resolution.names), resolved;
    }
    resolved := resolution.params;
    var rendered := Subst(doc, resolution.params, repr);
    ScanIsPerString(rendered);
    var leftover := FindAll(Dumps(rendered, Spaced), AnySpace);
    if leftover != [] {
      assert leftover[0] in SetOf(leftover);
      LeftoverNames(rendered);
      return Unresolved(SetOf(leftover)), resolved;
    }
    r := Loaded(rendered);
  }

  method LoadControlText(text: string, schema: seq<Declared>, params: Params, repr: Json -> string)
    returns (r: Outcome<string>, ghost resolved: Params)
    requires DistinctNames(schema)
    ensures r.MissingParams? <==> exists i: nat :: i < |schema| && MissingAt(schema, params, i)
    ensures !r.MissingParams? ==> Resolves(schema, params, resolved)
    ensures r.Loaded? ==> r.value == Sub(text, resolved, repr) && !Search(r.value, AnySpace)
    ensures r.Unresolved? ==> Search(Sub(text, resolved, repr), AnySpace)
                              && forall n :: n in r.leftover <==> Holds(Sub(text, resolved, repr), n, AnySpace)
  {
    var resolution := ResolveParams(schema, params);
    if resolution.Missing? {
      resolved := map[];
      return MissingParams(resolution.names), resolved;
    }
    resolved := resolution.params;
    var rendered := Sub(text, resolution.params, repr);
    var leftover := FindAll(rendered, AnySpace);
    FindAllFinds(rendered, AnySpace);
    if leftover != [] {
      forall n
        ensures n in SetOf(leftover) <==> Holds(rendered, n, AnySpace)
      {
        FindAllMeans(rendered, n, AnySpace);
      }
      return Unresolved(SetOf(leftover)), resolved;
    }
    r := Loaded(rendered);
  }

  // ---- When they succeed --------------------------------------------------------------------

  function Keys(v: Json): seq<string>
    decreases v, 0
  {
    match v
    case Arr(items) => ItemKeys(items)
    case Obj(fields) => FieldKeys(fields)
    case _ => []
  }

  function ItemKeys(items: seq<Json>): seq<string>
    decreases items, 0
  {
    if items == [] then [] else Keys(items[0]) + ItemKeys(items[1..])
  }

  function FieldKeys(fields: seq<Field>): seq<string>
    decreases fields, 0
  {
    if fields == [] then [] else [fields[0].key] + Keys(fields[0].value) + FieldKeys(fields[1..])
  }

  // Every token found in a string leaf has a parameter.
  ghost predicate Covered(v: Json, p: Params, g: Gaps)
    decreases v, 0
  {
    match v
    case Str(s) => forall i :: 0 <= i < |FindAll(s, g)| ==> FindAll(s, g)[i] in p
    case Arr(items) => forall i :: 0 <= i < |items| ==> Covered(items[i], p, g)
    case Obj(fields) => forall i :: 0 <= i < |fields| ==> Covered(fields[i].value, p, g)
    case _ => true
  }

  lemma FoundOne(s: string, g: Gaps)
    ensures LeftoverScan.Found([s], g) <==> FindAll(s, g) != []
  {
    FindAllFinds(s, g);
    assert [s][0] == s;
  }

  lemma {:induction false} FoundInNone(strings: seq<string>, g: Gaps)
    requires AllAngleFree(strings)
    ensures !LeftoverScan.Found(strings, g)
  {
    forall i | 0 <= i < |strings|
      ensures !Search(strings[i], g)
    {
      AngleFreeFacts(strings[i]);
      FindAllFinds(strings[i], g);
    }
  }

  lemma StringLeaves(s: string, p: Params, repr: Json -> string, g: Gaps)
    requires Clean(s) && PlainValues(p, repr)
    ensures LeftoverScan.Found(Strings(SubstString(s, p, repr)), g) <==> !Covered(Str(s), p, g)
  {
    UncoveredEmpty(FindAll(s, g), p);
    var whole := Whole(s);
    if whole.Some? {
      NarrowWhole(s, g);
      FoundOne(s, g);
      if whole.value in p {
        FoundInNone(Strings(p[whole.value]), g);
      } else if FindAll(s, g) != [] {
        assert FindAll(s, g)[0] !in p;
      }
    } else {
      SubLeaves(s, p, repr, g);
      FoundOne(Sub(s, p, repr), g);
    }
  }

  lemma NarrowWhole(s: string, g: Gaps)
    requires Whole(s).Some?
    ensures FindAll(s, g) == [] || FindAll(s, g) == [Whole(s).value]
  {
    var a, tok, b := WholeShape(s);
    BlankAngleFree(a);
    BlankAngleFree(b);
    FindAllSkips(a, tok + b, g);
    assert tok[..|tok|] == tok;
    NarrowToken(tok, b, g);
    assert b + "" == b;
    FindAllSkips(b, "", g);
  }

  lemma {:induction false} TreeLeaves(v: Json, p: Params, repr: Json -> string, g: Gaps)
    requires CleanTree(v) && PlainValues(p, repr)
    ensures LeftoverScan.Found(Strings(Subst(v, p, repr)), g) <==> LeftoverScan.Found(Keys(v), g) || !Covered(v, p, g)
    decreases v, 0
  {
    match v
    case Str(s) => StringLeaves(s, p, repr, g);
    case Arr(items) => ItemsLeave(items, p, repr, g);
    case Obj(fields) => FieldsLeave(fields, p, repr, g);
    case _ =>
  }

  lemma {:induction false} ItemsLeave(items: seq<Json>, p: Params, repr: Json -> string, g: Gaps)
    requires PlainValues(p, repr) && forall i :: 0 <= i < |items| ==> CleanTree(items[i])
    ensures LeftoverScan.Found(ItemStrings(SubstItems(items, p, repr)), g)
            <==> LeftoverScan.Found(ItemKeys(items), g) || exists i :: 0 <= i < |items| && !Covered(items[i], p, g)
    decreases items, 0
  {
    if items != [] {
      var rest := items[1..];
      TreeLeaves(items[0], p, repr, g);
      ItemsLeave(rest, p, repr, g);
      assert SubstItems(items, p, repr)[1..] == SubstItems(rest, p, repr);
      FoundConcat(Strings(Subst(items[0], p, repr)), ItemStrings(SubstItems(rest, p, repr)), g);
      FoundConcat(Keys(items[0]), ItemKeys(rest), g);
      assert (exists i :: 0 <= i < |items| && !Covered(items[i], p, g))
             <==> !Covered(items[0], p, g) || exists i :: 0 <= i < |rest| && !Covered(rest[i], p, g) by {
        if i :| 0 < i < |items| && !Covered(items[i], p, g) {
          assert rest[i - 1] == items[i];
        }
      }
    }
  }

  lemma {:induction false} FieldsLeave(fields: seq<Field>, p: Params, repr: Json -> string, g: Gaps)
    requires PlainValues(p, repr) && forall i :: 0 <= i < |fields| ==> CleanTree(fields[i].value)
    ensures LeftoverScan.Found(FieldStrings(SubstFields(fields, p, repr)), g)
            <==> LeftoverScan.Found(FieldKeys(fields), g)
                 || exists i :: 0 <= i < |fields| && !Covered(fields[i].value, p, g)
    decreases fields, 0
  {
    if fields != [] {
      var rest, f := fields[1..], fields[0];
      var done := SubstFields(fields, p, repr);
      TreeLeaves(f.value, p, repr, g);
      FieldsLeave(rest, p, repr, g);
      assert done[1..] == SubstFields(rest, p, repr);
      FoundConcat([f.key] + Strings(done[0].value), FieldStrings(done[1..]), g);
      FoundConcat([f.key], Strings(done[0].value), g);
      FoundConcat([f.key] + Keys(f.value), FieldKeys(rest), g);
      FoundConcat([f.key], Keys(f.value), g);
      assert (exists i :: 0 <= i < |fields| && !Covered(fields[i].value, p, g))
             <==> !Covered(f.value, p, g) || exists i :: 0 <= i < |rest| && !Covered(rest[i].value, p, g) by {
        if i :| 0 < i < |fields| && !Covered(fields[i].value, p, g) {
          assert rest[i - 1] == fields[i];
        }
      }
    }
  }

  // ---- Main results ---------------------------------------------------------------------------

  // For clean text and bracket-free values, a control is refused exactly when a
  // key holds a token or a token in a leaf has no parameter; tokens with other
  // whitespace inside them do not count.
  lemma RefusedExactlyWhenUncovered(doc: Json, p: Params, repr: Json -> string)
    requires CleanTree(doc) && PlainValues(p, repr)
    ensures FindAll(Dumps(Subst(doc, p, repr), Spaced), AnySpace) == []
            <==> !LeftoverScan.Found(Keys(doc), SpaceOnly) && Covered(doc, p, SpaceOnly)
  {
    ScanIsPerString(Subst(doc, p, repr));
    TreeLeaves(doc, p, repr, SpaceOnly);
  }

  // The result itself is free of tokens, whatever their whitespace, exactly when no
  // key holds one and every token of a leaf has a parameter. For a control that is
  // not refused this is what the caller has to check besides.
  lemma LoadedIsFreeIff(doc: Json, p: Params, repr: Json -> string)
    requires CleanTree(doc) && PlainValues(p, repr)
    ensures !LeftoverScan.Found(Strings(Subst(doc, p, repr)), AnySpace)
            <==> !LeftoverScan.Found(Keys(doc), AnySpace) && Covered(doc, p, AnySpace)
    ensures !LeftoverScan.Found(Strings(Subst(doc, p, repr)), AnySpace)
            ==> FindAll(Dumps(Subst(doc, p, repr), Spaced), AnySpace) == []
  {
    TreeLeaves(doc, p, repr, AnySpace);
    ScanIsPerString(Subst(doc, p, repr));
    FoundWiden(Strings(Subst(doc, p, repr)));
  }

  lemma FoundWiden(strings: seq<string>)
    ensures LeftoverScan.Found(strings, SpaceOnly) ==> LeftoverScan.Found(strings, AnySpace)
  {
    if i :| 0 <= i < |strings| && Search(strings[i], SpaceOnly) {
      SearchSomewhere(strings[i], SpaceOnly);
      SearchSomewhere(strings[i], AnySpace);
      var j :| 0 <= j < |strings[i]| && Match(strings[i][j..], SpaceOnly).Some?;
      Widen(strings[i][j..], SpaceOnly);
      assert Search(strings[i], AnySpace);
    }
  }

  // So a loaded control still holds a token exactly when some token that the check
  // cannot see has no parameter, or is in a key, and no visible one is.
  lemma LoadedWithATokenIff(doc: Json, p: Params, repr: Json -> string)
    requires CleanTree(doc) && PlainValues(p, repr)
    ensures var result := Subst(doc, p, repr);
            FindAll(Dumps(result, Spaced), AnySpace) == [] && LeftoverScan.Found(Strings(result), AnySpace)
            <==>
            && !LeftoverScan.Found(Keys(doc), SpaceOnly) && Covered(doc, p, SpaceOnly)
            && (LeftoverScan.Found(Keys(doc), AnySpace) || !Covered(doc, p, AnySpace))
  {
    RefusedExactlyWhenUncovered(doc, p, repr);
    LoadedIsFreeIff(doc, p, repr);
  }

  // Text controls have no such gap: every token must be covered.
  lemma TextRefusedExactlyWhenUncovered(text: string, p: Params, repr: Json -> string)
    requires Clean(text) && PlainValues(p, repr)
    ensures Search(Sub(text, p, repr), AnySpace)
            <==> exists i :: 0 <= i < |FindAll(text, AnySpace)| && FindAll(text, AnySpace)[i] !in p
  {
    SubLeaves(text, p, repr, AnySpace);
    UncoveredEmpty(FindAll(text, AnySpace), p);
    FindAllFinds(Sub(text, p, repr), AnySpace);
  }

  lemma {:induction false} KeysStay(v: Json, p: Params, repr: Json -> string)
    requires LeftoverScan.Found(Keys(v), SpaceOnly)
    ensures LeftoverScan.Found(Strings(Subst(v, p, repr)), SpaceOnly)
    decreases v, 0
  {
    match v
    case Arr(items) => ItemKeysStay(items, p, repr);
    case Obj(fields) => FieldKeysStay(fields, p, repr);
    case _ =>
  }

  lemma {:induction false} ItemKeysStay(items: seq<Json>, p: Params, repr: Json -> string)
    requires LeftoverScan.Found(ItemKeys(items), SpaceOnly)
    ensures LeftoverScan.Found(ItemStrings(SubstItems(items, p, repr)), SpaceOnly)
    decreases items, 0
  {
    if items != [] {
      FoundConcat(Keys(items[0]), ItemKeys(items[1..]), SpaceOnly);
      var done := SubstItems(items, p, repr);
      assert done[1..] == SubstItems(items[1..], p, repr);
      FoundConcat(Strings(done[0]), ItemStrings(done[1..]), SpaceOnly);
      if LeftoverScan.Found(Keys(items[0]), SpaceOnly) {
        KeysStay(items[0], p, repr);
      } else {
        ItemKeysStay(items[1..], p, repr);
      }
    }
  }

  lemma {:induction false} FieldKeysStay(fields: seq<Field>, p: Params, repr: Json -> string)
    requires LeftoverScan.Found(FieldKeys(fields), SpaceOnly)
    ensures LeftoverScan.Found(FieldStrings(SubstFields(fields, p, repr)), SpaceOnly)
    decreases fields, 0
  {
    if fields != [] {
      var f, done := fields[0], SubstFields(fields, p, repr);
      FoundConcat([f.key] + Keys(f.value), FieldKeys(fields[1..]), SpaceOnly);
      FoundConcat([f.key], Keys(f.value), SpaceOnly);
      assert done[1..] == SubstFields(fields[1..], p, repr);
      FoundConcat([f.key] + Strings(done[0].value), FieldStrings(done[1..]), SpaceOnly);
      FoundConcat([f.key], Strings(done[0].value), SpaceOnly);
      if LeftoverScan.Found([f.key], SpaceOnly) {
      } else if LeftoverScan.Found(Keys(f.value), SpaceOnly) {
        KeysStay(f.value, p, repr);
      } else {
        FieldKeysStay(fields[1..], p, repr);
      }
    }
  }

  // A token in a key is never replaced, so no parameters can load such a control.
  lemma KeyTokenAlwaysRefused(doc: Json, p: Params, repr: Json -> string)
    requires LeftoverScan.Found(Keys(doc), SpaceOnly)
    ensures FindAll(Dumps(Subst(doc, p, repr), Spaced), AnySpace) != []
  {
    KeysStay(doc, p, repr);
    ScanIsPerString(Subst(doc, p, repr));
  }

  // A leftover token with a tab inside passes the JSON check, which sees it
  // escaped; the text check refuses the same string.
  lemma TabHidesATokenFromTheJsonCheck(repr: Json -> string)
    ensures var s := "<<" + "\t" + "x" + ">>";
            && Subst(Str(s), map[], repr) == Str(s) && Search(s, AnySpace)
            && FindAll(Dumps(Str(s), Spaced), AnySpace) == []
  {
    var tab, x: string, none: string := "\t", "x", "";
    var s := "<<" + tab + x + ">>";
    assert AllGap(tab, AnySpace) && AllGap(none, AnySpace) && AllWord(x) && s == "<<" + tab + x + none + ">>";
    assert Spells(s, x, AnySpace);
    SpelledMatches(s, "", x, AnySpace);
    assert s + "" == s && s[..6] == s;
    TokenFront(s, "");
    NarrowTab(s);
    ScanIsPerString(Str(s));
    FindAllFinds(s, SpaceOnly);
    assert Subst(Str(s), map[], repr) == Str(s) by {
      assert !Touches(FindAll(s, AnySpace), map[]);
      SubUntouched(s, map[], repr);
    }
  }

  lemma NarrowTab(s: string)
    requires |s| == 6 && s[2] == '\t' && Match(s, AnySpace).Some? && Match(s, AnySpace).value.len == 6
    ensures FindAll(s, SpaceOnly) == []
  {
    assert AfterOpen(s[2..], SpaceOnly).None?;
    NarrowToken(s, "", SpaceOnly);
    assert s[..6] + "" == s;
  }
}
