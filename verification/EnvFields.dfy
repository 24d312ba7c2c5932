// What an overriding environment does to a configuration, read off the variables
// themselves: which texts are refused, and what every other one puts where.

module EnvFields {
  import opened Text
  import opened EnvTransport

  // ---- The allow-list, from its text ------------------------------------------------------

  // What may stand between two commas: a model name with whitespace around it, or
  // whitespace alone.
  datatype Slot = Named(before: string, name: string, after: string) | Bare(blank: string)

  ghost predicate Spaced(x: Slot) {
    match x
    case Named(a, m, b) => Blank(a) && Blank(b) && ModelName(m)
    case Bare(b) => Blank(b)
  }

  ghost predicate AllSpaced(slots: seq<Slot>) { forall i :: 0 <= i < |slots| ==> Spaced(slots[i]) }

  function SlotText(x: Slot): string {
    match x
    case Named(a, m, b) => a + (m + b)
    case Bare(b) => b
  }

  function SlotTexts(slots: seq<Slot>): seq<string> {
    if slots == [] then [] else [SlotText(slots[0])] + SlotTexts(slots[1..])
  }

  function SlotNames(slots: seq<Slot>): seq<string> {
    if slots == [] then [] else (if slots[0].Named? then [slots[0].name] else []) + SlotNames(slots[1..])
  }

  // A model name neither begins nor ends in whitespace.
  lemma ModelNameIsTrimmed(m: string)
    requires ModelName(m)
    ensures Trimmed(m)
  {
    var a, b := StripShape(m);
  }

  lemma SlotIsOneItem(x: Slot)
    requires Spaced(x)
    ensures ',' !in SlotText(x)
    ensures Strip(SlotText(x)) == if x.Named? then x.name else ""
  {
    if x.Named? {
      ModelNameIsTrimmed(x.name);
      StripPadded(x.before, x.name, x.after);
    } else {
      StripBlank(x.blank);
    }
  }

  lemma {:induction false} SlotsAreItems(slots: seq<Slot>)
    requires AllSpaced(slots)
    ensures |SlotTexts(slots)| == |slots| && KeepSome(SlotTexts(slots)) == SlotNames(slots)
    ensures forall t :: t in SlotTexts(slots) ==> ',' !in t
  {
    if slots != [] {
      SlotIsOneItem(slots[0]);
      SlotsAreItems(slots[1..]);
      assert SlotTexts(slots)[1..] == SlotTexts(slots[1..]);
    }
  }

  lemma SlotsArePieces(slots: seq<Slot>, s: string)
    requires slots != [] && AllSpaced(slots) && s == Join(SlotTexts(slots), ",")
    ensures SlotNames(slots) == Pieces(s)
  {
    SlotsAreItems(slots);
    SplitJoin(SlotTexts(slots), ',');
  }

  // However the names are spaced, and whatever blank items stand between them, the
  // allow-list becomes exactly those names, in order.
  lemma AllowListFromText(c: Config, env: Environ, z: Schema, c': Config, slots: seq<Slot>)
    requires Total(c) && Apply(c, env, z) == Applied(c')
    requires slots != [] && AllSpaced(slots) && ALLOWED_MODELS in env
    requires env[ALLOWED_MODELS] == Join(SlotTexts(slots), ",") && env[ALLOWED_MODELS] != ""
    ensures c'[AllowedModels] == Names(SlotNames(slots))
  {
    AppliedIsTotal(c, env, z, c');
    AppliedLeaf(c, env, z, c', AllowedModels);
    SlotsArePieces(slots, env[ALLOWED_MODELS]);
    TextIsWritten(env[ALLOWED_MODELS]);
  }

  // And every text is spaced that way.
  lemma {:induction false} EveryTextIsSlots(s: string) returns (slots: seq<Slot>)
    ensures slots != [] && AllSpaced(slots) && Join(SlotTexts(slots), ",") == s
  {
    SplitPiecesLackSeparator(s, ',');
    slots := SlotsFor(Split(s, ','));
    JoinSplit(s, ',');
  }

  lemma SlotFor(item: string) returns (x: Slot)
    requires ',' !in item
    ensures Spaced(x) && SlotText(x) == item
  {
    var m := Strip(item);
    var a, b := StripShape(item);
    if m == "" {
      assert item == a + b;
      x := Bare(item);
    } else {
      assert forall i :: 0 <= i < |m| ==> m[i] == item[|a| + i];
      x := Named(a, m, b);
    }
  }

  lemma {:induction false} SlotsFor(items: seq<string>) returns (slots: seq<Slot>)
    requires forall t :: t in items ==> ',' !in t
    ensures AllSpaced(slots) && SlotTexts(slots) == items
  {
    if items == [] {
      slots := [];
    } else {
      var rest := SlotsFor(items[1..]);
      var x := SlotFor(items[0]);
      slots := [x] + rest;
      assert slots[1..] == rest && items == [items[0]] + items[1..];
    }
  }

  // ---- Every variable -----------------------------------------------------------------------

  // What a given text puts, by the kind of setting the variable is.
  ghost predicate Puts(k: Key, s: string, v: Value, z: Schema) {
    if k == ENABLE_WEB_SEARCH then v == Chars(if Lower(s) == "true" then "on" else "off")
    else
      match KindAt(Target(k))
      case CharsKind => v == Chars(s)
      case FlagKind => v == Flag(Lower(s) == "true")
      case CountKind => z.parseInt(s).Some? && v == Count(z.parseInt(s).value)
      case ScoreKind => z.parseScore(s).Some? && v == Score(z.parseScore(s).value)
      case NamesKind =>
        exists slots :: slots != [] && AllSpaced(slots) && s == Join(SlotTexts(slots), ",")
                        && v == Names(SlotNames(slots))
  }

  lemma {:induction false} NamesArePut(s: string, v: Value)
    ensures v == Names(Pieces(s))
            <==> exists slots :: slots != [] && AllSpaced(slots) && s == Join(SlotTexts(slots), ",")
                                 && v == Names(SlotNames(slots))
  {
    var own := EveryTextIsSlots(s);
    SlotsArePieces(own, s);
    forall slots | slots != [] && AllSpaced(slots) && s == Join(SlotTexts(slots), ",")
      ensures SlotNames(slots) == Pieces(s)
    {
      SlotsArePieces(slots, s);
    }
  }

  lemma NameVariable(k: Key)
    ensures KindAt(Target(k)) == NamesKind <==> k == ALLOWED_MODELS
    ensures Target(k) == WebSearch <==> k == ENABLE_WEB_SEARCH
  {
  }

  // One leaf of the result.
  lemma LeafIsPut(c: Config, env: Environ, z: Schema, k: Key, v: Value)
    requires Total(c)
    ensures Coerce(Target(k), Overlaid(c, env)[Target(k)], z) == Some(v)
            <==> if k in env && env[k] != "" then Puts(k, env[k], v, z) else v == c[Target(k)]
  {
    TargetInjective(k);
    NameVariable(k);
    var p := Target(k);
    assert Fits(c[p], KindAt(p));
    if Given(env, k) {
      if k == ALLOWED_MODELS {
        NamesArePut(env[k], v);
      } else if !IsFlag(k) {
        TextIsPut(k, env[k]);
      }
    }
  }

  // ---- The outcome --------------------------------------------------------------------------

  // A given value that is refused outright: a flag whose text is no boolean.
  ghost predicate Refused(env: Environ, k: Key) {
    k in FLAG_KEYS && k in env && env[k] != "" && Lower(env[k]) != "true" && Lower(env[k]) != "false"
  }

  lemma FlagsAreListed(k: Key)
    ensures k in FLAG_KEYS <==> IsFlag(k)
  {
    if IsFlag(k) {
      FlagIsListed(k);
    }
    FlagTable();
    if k in BOOL_KEYS {
      var i :| 0 <= i < |BOOL_KEYS| && BOOL_KEYS[i] == k;
      assert PlainFlag(BOOL_KEYS[i]);
    }
  }

  // The flag that is reported is a refused one, and there is one exactly when some
  // flag is refused.
  lemma RefusalInFields(c: Config, env: Environ, z: Schema)
    requires Total(c)
    ensures Apply(c, env, z).BadFlag? ==> Refused(env, Apply(c, env, z).k)
    ensures Apply(c, env, z).BadFlag? <==> exists k :: Refused(env, k)
  {
    var bad := FirstBad(env, FLAG_KEYS);
    if bad.Some? {
      assert Refused(env, bad.value);
    } else {
      forall k
        ensures !Refused(env, k)
      {
        FlagsAreListed(k);
        NoBadFlag(env, k);
      }
    }
  }

  // The configuration holds what every variable puts, and what it held where none does.
  ghost predicate Holds(c: Config, env: Environ, z: Schema, c': Config) {
    && (forall p: Path :: p in c && p in c')
    && forall k :: if k in env && env[k] != "" then Puts(k, env[k], c'[Target(k)], z)
                   else c'[Target(k)] == c[Target(k)]
  }

  // Web search is set to one of three words, and settled where it must be.
  ghost predicate SearchSettled(c: Config) {
    && WebSearch in c && DeploymentMode in c
    && (|| c[WebSearch] == Chars("on") || c[WebSearch] == Chars("off")
        || (c[WebSearch] == Chars("auto") && c[DeploymentMode] != Chars("production")))
  }

  lemma HoldsMeans(c: Config, env: Environ, z: Schema, c': Config)
    requires Total(c) && forall p: Path :: p in c'
    ensures Holds(c, env, z, c') <==> forall p: Path :: Coerce(p, Overlaid(c, env)[p], z) == Some(c'[p])
  {
    forall p: Path
      ensures Target(KeyAt(p)) == p
    {
    }
    forall k
      ensures Coerce(Target(k), Overlaid(c, env)[Target(k)], z) == Some(c'[Target(k)])
              <==> if k in env && env[k] != "" then Puts(k, env[k], c'[Target(k)], z) else c'[Target(k)] == c[Target(k)]
    {
      LeafIsPut(c, env, z, k, c'[Target(k)]);
    }
  }

  lemma ValidatedMeans(raw: Config, z: Schema, c': Config)
    requires forall p: Path :: p in raw
    ensures Validate(raw, z) == Some(c')
            <==> && (forall p: Path :: p in c' && Coerce(p, raw[p], z) == Some(c'[p]))
                 && z.rules(c' - {WebSearch}) && SearchSettled(c')
  {
    if forall p: Path :: p in c' && Coerce(p, raw[p], z) == Some(c'[p]) {
      assert c' == map p: Path | true :: Coerce(p, raw[p], z).value;
    }
    assert "on" != "off" && "on" != "auto" && "off" != "auto" by {
      assert |"on"| == 2 && |"off"| == 3 && |"auto"| == 4;
    }
  }

  // A configuration results exactly when no flag is refused, it holds what every
  // variable puts, and it passes validation.
  lemma AppliedInFields(c: Config, env: Environ, z: Schema, c': Config)
    requires Total(c)
    ensures Apply(c, env, z) == Applied(c')
            <==> && (forall k :: !Refused(env, k)) && Holds(c, env, z, c')
                 && z.rules(c' - {WebSearch}) && SearchSettled(c')
  {
    RefusalInFields(c, env, z);
    ValidatedMeans(Overlaid(c, env), z, c');
    if forall p: Path :: p in c' {
      HoldsMeans(c, env, z, c');
    }
  }
}
