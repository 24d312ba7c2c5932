// The adapter's reading of the legacy text, however it is spaced, and what it
// gives the child.

module LegacyText {
  import opened Text
  import opened LegacyEnv

  // What may stand between two commas: an entry with whitespace around its key and
  // its end, whitespace alone, or something that is no entry.
  datatype Slot =
    | Entry(a: string, key: string, b: string, value: string, c: string)
    | Gap(blank: string)
    | Junk(a: string, text: string, c: string)

  ghost predicate Good(x: Slot) {
    match x
    case Entry(a, key, b, value, c) =>
      && Blank(a) && Blank(b) && Blank(c)
      && key != "" && Trimmed(key) && ',' !in key && '=' !in key
      && ',' !in value && (value != "" ==> !IsSpace(value[|value| - 1]))
    case Gap(blank) => Blank(blank)
    case Junk(a, text, c) => Blank(a) && Blank(c) && text != "" && Trimmed(text) && ',' !in text && '=' !in text
  }

  ghost predicate AllGood(slots: seq<Slot>) { forall i :: 0 <= i < |slots| ==> Good(slots[i]) }

  function SlotText(x: Slot): string {
    match x
    case Entry(a, key, b, value, c) => a + ((key + b + "=" + value) + c)
    case Gap(blank) => blank
    case Junk(a, text, c) => a + (text + c)
  }

  function SlotTexts(slots: seq<Slot>): seq<string> {
    if slots == [] then [] else SlotTexts(slots[..|slots| - 1]) + [SlotText(slots[|slots| - 1])]
  }

  // The entries, a later one replacing an earlier one, and the first that is none.
  function Reading(slots: seq<Slot>): Outcome<Env> {
    if slots == [] then Ok(map[])
    else
      var before, last := Reading(slots[..|slots| - 1]), slots[|slots| - 1];
      if before.Malformed? then before
      else
        match last
        case Entry(_, key, _, value, _) => Ok(before.value[key := value])
        case Gap(_) => before
        case Junk(_, text, _) => Malformed(text)
  }

  lemma EntryStripped(x: Slot)
    requires x.Entry? && Good(x)
    ensures Strip(SlotText(x)) == x.key + x.b + "=" + x.value
  {
    var item := x.key + x.b + "=" + x.value;
    assert item[0] == x.key[0];
    assert item[|item| - 1] == if x.value == "" then '=' else x.value[|x.value| - 1];
    assert !IsSpace('=');
    StripPadded(x.a, item, x.c);
  }

  lemma {:induction false} BlankHasNone(s: string, c: char)
    requires Blank(s) && !IsSpace(c)
    ensures c !in s
  {
  }

  lemma EntryParted(x: Slot)
    requires x.Entry? && Good(x)
    ensures var item := x.key + x.b + "=" + x.value;
            && '=' in item && Partition(item).value == x.value && Strip(Partition(item).key) == x.key
  {
    assert !IsSpace('=');
    BlankHasNone(x.b, '=');
    PartitionItem(x.key + x.b, x.value);
    StripPadded("", x.key, x.b);
    assert "" + (x.key + x.b) == x.key + x.b;
  }

  lemma SlotHasNoComma(x: Slot)
    requires Good(x)
    ensures ',' !in SlotText(x)
  {
    assert !IsSpace(',');
  }

  lemma {:induction false} SlotsAreParsed(slots: seq<Slot>)
    requires AllGood(slots)
    ensures Parse(SlotTexts(slots)) == Reading(slots)
    ensures |SlotTexts(slots)| == |slots| && forall t :: t in SlotTexts(slots) ==> ',' !in t
  {
    if slots != [] {
      var init, last := slots[..|slots| - 1], slots[|slots| - 1];
      SlotsAreParsed(init);
      SlotHasNoComma(last);
      assert SlotTexts(slots)[..|slots| - 1] == SlotTexts(init);
      match last
      case Entry(a, key, b, value, c) =>
        EntryStripped(last);
        EntryParted(last);
      case Gap(blank) => StripBlank(blank);
      case Junk(a, text, c) => StripPadded(a, text, c);
    }
  }

  // ---- Main results ---------------------------------------------------------------------------

  // Every text is read as its entries, whatever whitespace and blank items it has;
  // the first item that is no entry is the one complained of.
  lemma TextIsRead(slots: seq<Slot>)
    requires slots != [] && AllGood(slots)
    ensures Parse(Split(Join(SlotTexts(slots), ","), ',')) == Reading(slots)
  {
    SlotsAreParsed(slots);
    SplitJoin(SlotTexts(slots), ',');
  }

  // The text reaches the child, unless there is JSON, which comes first.
  lemma ChildIsGivenText(environ: Env, slots: seq<Slot>, parseJson: string -> Option<Env>)
    requires slots != [] && AllGood(slots)
    requires "MIGRATION_ENV_JSON" !in environ
    requires "MIGRATION_ENV" in environ && environ["MIGRATION_ENV"] == Join(SlotTexts(slots), ",")
    ensures MigrationEnv(environ, parseJson) == Reading(slots)
  {
    TextIsRead(slots);
  }

  lemma ChildIsGivenJson(environ: Env, declared: Env, parseJson: string -> Option<Env>)
    requires "MIGRATION_ENV_JSON" in environ && parseJson(environ["MIGRATION_ENV_JSON"]) == Some(declared)
    ensures MigrationEnv(environ, parseJson) == Ok(declared)
  {
  }

  // With neither, nothing is declared.
  lemma NothingDeclared(environ: Env, parseJson: string -> Option<Env>)
    requires "MIGRATION_ENV_JSON" !in environ && "MIGRATION_ENV" !in environ
    ensures MigrationEnv(environ, parseJson) == Ok(map[])
  {
    assert Split("", ',') == [""] && [""][..0] == [];
  }
}
