// The view/emit law for the editor's leaf field types: what viewing a value and saving it unchanged keeps.

module EditorScalars {
  import opened Text
  import opened Tokens
  import opened Values
  import opened EditorForm

  // Saving gives a value with the same meaning.
  ghost predicate Kept(r: Emitted, v: Value) {
    r.Val? && SameMeaning(v, r.v)
  }

  predicate CleanText(s: string) {
    !PaddedToken(s)
  }

  predicate CleanItem(v: Value) {
    v.Str? ==> CleanText(v.s)
  }

  predicate CleanItems(items: seq<Value>) {
    forall i | 0 <= i < |items| :: CleanItem(items[i])
  }

  predicate CleanCommand(v: Value) {
    !v.Null? && CleanItem(v) && (v.List? ==> CleanItems(v.items))
  }

  // One string that the list emitter takes for a whole-list placeholder.
  predicate LoneBlockToken(items: seq<Value>) {
    |items| == 1 && items[0].Str? && BlockToken(Unshield(items[0].s)).Some?
  }

  predicate CleanChoices(items: seq<Value>) {
    && (forall i | 0 <= i < |items| && items[i].Str? :: Trimmed(items[i].s))
    && (forall i, j | 0 <= i < j < |items| && items[i].Str? && items[j].Str? ::
          Shield(Unshield(items[i].s)) != Shield(Unshield(items[j].s)))
  }

  // The values of leaf fields that survive; row lists and objects are in EditorLens.
  predicate CleanLeaf(kind: Kind, v: Value) {
    match kind
    case KString(octal) => CleanItem(v) && !(octal && v.Str? && OctalText(Unshield(v.s)).Some?)
    case KText => CleanItem(v)
    case KStringList => if v.List? then CleanItems(v.items) && !LoneBlockToken(v.items) else v.Str? ==> Trimmed(v.s)
    case KStringOrList(_) => CleanItem(v) && (v.List? ==> CleanItems(v.items))
    case KEnumList => v.List? ==> CleanChoices(v.items)
    case KAllOrList => v.List? ==> CleanItems(v.items)
    case KCommands => v.List? ==> CleanCommands(v.items)
    case KMap(t) => t.StringMap? && v.Dict? ==> forall i | 0 <= i < |v.entries| :: CleanItem(v.entries[i].value)
    case KPackages(_) => v.Str? ==> Trimmed(v.s)
    case KLines => v.List? ==> CleanItems(v.items)
    case KTuple(_) => v.List? ==> forall i | 0 <= i < |v.items| :: CleanTuple(v.items[i])
    case _ => true
  }

  // A lone placeholder in braces with blanks around it.
  predicate PaddedBrace(s: string) {
    BraceToken(Strip(s)).Some? && !Trimmed(s)
  }

  predicate CleanCell(v: Value) {
    v.Str? ==> !PaddedBrace(v.s)
  }

  predicate CleanTuple(row: Value) {
    row.List? ==> forall i | 0 <= i < |row.items| :: CleanCell(row.items[i])
  }

  lemma StrKept(s: string)
    ensures SameMeaning(Str(s), Str(Shield(Unshield(s)))) <==> CleanText(s)
    ensures !Blank(s) ==> !Blank(Unshield(s))
  {
    ShowThenWrite(s);
    UnshieldBlank(s);
  }

  lemma TrimmedIsClean(s: string)
    requires Trimmed(s)
    ensures CleanText(s) && Trimmed(Unshield(s)) && Strip(Unshield(s)) == Unshield(s)
  {
    UnshieldEnds(s);
    StripTrims(Unshield(s));
  }

  lemma BlankShielded(s: string)
    requires Trimmed(s)
    ensures ComparableText(Shield(s)) == ComparableText(s)
  {
    StripTrims(s);
    if BraceToken(s).Some? {
      BetweenSpells(s, "{{", "}}");
      ComparableOfShielded(BraceToken(s).value);
      UnshieldOfBrace(BraceToken(s).value);
    }
  }

  lemma ComparableTrimmed(s: string)
    ensures Trimmed(ComparableText(s)) <==> Trimmed(s)
  {
    hide Unshield, BlockText, IsSpace;
    UnshieldEnds(s);
    if BlockText(s).Some? {
      BlockTrimmed(s);
      BraceTokenOf(BlockText(s).value);
    }
  }

  // A block placeholder has no blanks around it.
  lemma BlockTrimmed(s: string)
    requires BlockText(s).Some?
    ensures Trimmed(s) && IsToken(BlockText(s).value)
  {
    BetweenSpells(s, BLOCK, "");
    var t := BlockText(s).value;
    assert s == BLOCK + t && s[0] == 'P' && s[|s| - 1] == t[|t| - 1] && t[|t| - 1] in t;
  }

  // Blanks around a text that saving strips are a visible change.
  lemma StrippedDiffers(s: string)
    requires !Trimmed(s)
    ensures ComparableText(Shield(Strip(Unshield(s)))) != ComparableText(s)
    ensures ComparableText(Strip(s)) != ComparableText(s)
  {
    var p := Strip(Unshield(s));
    StripTrims(Unshield(s));
    BlankShielded(p);
    ComparableTrimmed(p);
    ComparableTrimmed(s);
    StripTrims(s);
    ComparableTrimmed(Strip(s));
  }

  // ---- octal permissions

  lemma {:induction false} OctalRoundTrip(n: nat)
    ensures IsDigits(OctalDigits(n), 8) && Number(OctalDigits(n), 8) == n
    ensures Trimmed(OctalDigits(n))
  {
    if n >= 8 {
      OctalRoundTrip(n / 8);
      var d := OctalDigits(n);
      assert d[..|d| - 1] == OctalDigits(n / 8);
    }
  }

  lemma OctalShown(n: nat)
    ensures OctalText("0o" + OctalDigits(n)) == Some(n)
    ensures !Blank("0o" + OctalDigits(n))
  {
    OctalRoundTrip(n);
    var s := "0o" + OctalDigits(n);
    StripTrims(s);
    assert s[2..] == OctalDigits(n) && s[0] in s;
  }

  // ---- lists

  lemma ItemKept(v: Value)
    requires ScalarItem(v, true)
    ensures Kept(EmitItem(ShowItem(v)), v) <==> CleanItem(v)
    ensures EmitItem(ShowItem(v)).Val?
  {
    hide SameMeaning, Shield, Unshield, PaddedToken;
    if v.Str? { StrKept(v.s); } else { NumberSame(v); }
  }

  lemma NumberSame(v: Value)
    requires IsNumber(v)
    ensures SameMeaning(v, v)
  {
  }

  lemma ShowSnoc(items: seq<Value>)
    requires items != []
    ensures var n := |items| - 1;
      |ShowItems(items)| == n + 1 && ShowItems(items)[..n] == ShowItems(items[..n])
        && ShowItems(items)[n] == ShowItem(items[n])
  {
    hide ShowItem;
  }

  lemma {:induction false} ItemsKept(items: seq<Value>)
    requires ScalarItems(items, true)
    ensures |EmitItems(ShowItems(items))| == |items|
    ensures SameMeaning(List(items), List(EmitItems(ShowItems(items)))) <==> CleanItems(items)
  {
    hide SameMeaning, ShowItem, EmitItem, CleanItem, ScalarItem;
    if items == [] {
      ListMeaning([], []);
    } else {
      var n := |items| - 1;
      var before, last := items[..n], items[n];
      assert items == before + [last];
      ShowSnoc(items);
      ItemsKept(before);
      ItemKept(last);
      ListSnoc(before, last, EmitItems(ShowItems(before)), EmitItem(ShowItem(last)).v);
      assert CleanItems(items) <==> CleanItems(before) && CleanItem(last);
    }
  }

  function Choice(v: Value): Value
    requires v.Str?
  {
    Str(Shield(Strip(Unshield(v.s))))
  }

  lemma ChoiceShown(v: Value)
    requires ScalarItem(v, false)
    ensures EmitChoice(ShowItem(v)) == Val(Choice(v))
  {
    UnshieldBlank(v.s);
  }

  // Every shown choice ends up in the saved list.
  lemma {:induction false} ChoicesSaved(items: seq<Value>, i: nat)
    requires ScalarItems(items, false) && i < |items|
    ensures Choice(items[i]) in EmitChoices(ShowItems(items))
  {
    hide OneLine, ShowItem, EmitChoice, Choice;
    var n := |items| - 1;
    ShowSnoc(items);
    ChoiceShown(items[n]);
    if i < n {
      ChoicesSaved(items[..n], i);
    }
  }

  lemma {:induction false} ChoicesOrigin(items: seq<Value>, w: Value) returns (i: nat)
    requires ScalarItems(items, false) && w in EmitChoices(ShowItems(items))
    ensures i < |items| && Choice(items[i]) == w
  {
    hide OneLine, ShowItem, EmitChoice, Choice;
    var n := |items| - 1;
    ShowSnoc(items);
    ChoiceShown(items[n]);
    if Choice(items[n]) == w {
      i := n;
    } else {
      i := ChoicesOrigin(items[..n], w);
    }
  }

  lemma ChoiceKept(s: string)
    ensures SameMeaning(Str(s), Choice(Str(s))) <==> Trimmed(s)
    ensures Trimmed(s) ==> Choice(Str(s)) == Str(Shield(Unshield(s)))
  {
    if Trimmed(s) {
      TrimmedIsClean(s);
      StrKept(s);
    } else {
      StrippedDiffers(s);
    }
  }

  lemma CleanChoicesSnoc(items: seq<Value>, n: nat)
    requires ScalarItems(items, false) && n + 1 == |items|
    ensures CleanChoices(items) <==>
              CleanChoices(items[..n]) && Trimmed(items[n].s) &&
              forall i | 0 <= i < n :: Shield(Unshield(items[i].s)) != Shield(Unshield(items[n].s))
  {
    hide Trimmed, Shield, Unshield, OneLine;
    var before := items[..n];
    if CleanChoices(items) {
      assert forall i | 0 <= i < n :: before[i] == items[i];
    }
  }

  lemma {:induction false} ChoicesKept(items: seq<Value>)
    requires ScalarItems(items, false)
    ensures |EmitChoices(ShowItems(items))| <= |items|
    ensures SameMeaning(List(items), List(EmitChoices(ShowItems(items)))) <==> CleanChoices(items)
  {
    hide SameMeaning, OneLine, ShowItem, EmitChoice, Choice, CleanChoices;
    var out := EmitChoices(ShowItems(items));
    SameLength(items, out);
    if items == [] {
      ListMeaning([], []);
      NoChoices();
    } else {
      var n := |items| - 1;
      var before, last := items[..n], items[n];
      ShowSnoc(items);
      ChoicesKept(before);
      ChoiceShown(last);
      ChoiceKept(last.s);
      var prev, w := EmitChoices(ShowItems(before)), Choice(last);
      assert items == before + [last] && Str(last.s) == last;
      ListSnoc(before, last, prev, w);
      ChoicesStep(items, n);
    }
  }

  lemma NoChoices()
    ensures CleanChoices([])
  {
  }

  // Appending a choice keeps a clean list clean iff it is trimmed and not yet saved.
  lemma ChoicesStep(items: seq<Value>, n: nat)
    requires ScalarItems(items, false) && n + 1 == |items|
    ensures var prev := EmitChoices(ShowItems(items[..n]));
      CleanChoices(items) <==> CleanChoices(items[..n]) && Trimmed(items[n].s) && Choice(items[n]) !in prev
  {
    hide OneLine, ShowItem, EmitChoice, Choice, Shield, Unshield, Trimmed;
    var before, last := items[..n], items[n];
    CleanChoicesSnoc(items, n);
    ChoiceKept(last.s);
    if Choice(last) in EmitChoices(ShowItems(before)) {
      var i := ChoicesOrigin(before, Choice(last));
      ChoiceKept(items[i].s);
    } else {
      forall i | 0 <= i < n && Trimmed(items[i].s) && Trimmed(last.s)
        ensures Shield(Unshield(items[i].s)) != Shield(Unshield(last.s))
      {
        ChoicesSaved(before, i);
        ChoiceKept(items[i].s);
      }
    }
  }

  lemma ListSnoc(xs: seq<Value>, x: Value, ys: seq<Value>, y: Value)
    ensures SameMeaning(List(xs + [x]), List(ys + [y])) <==> SameMeaning(List(xs), List(ys)) && SameMeaning(x, y)
  {
    hide SameMeaning;
    ListMeaning(xs + [x], ys + [y]);
    ListMeaning(xs, ys);
    var n := |xs|;
    if |xs| == |ys| {
      assert (xs + [x])[n] == x && (ys + [y])[n] == y;
      assert forall i | 0 <= i < n :: (xs + [x])[i] == xs[i] && (ys + [y])[i] == ys[i];
    }
  }

  // One more item saved, or dropped: the list keeps its meaning iff it did and the item does.
  lemma AddedMeaning(items: seq<Value>, n: nat, out: seq<Value>, r: Emitted, cleanBefore: bool, cleanLast: bool)
    requires n + 1 == |items| && |out| <= n && (SameMeaning(List(items[..n]), List(out)) <==> cleanBefore)
    requires Kept(r, items[n]) <==> cleanLast
    ensures var all := if r.Val? then out + [r.v] else out;
      |all| <= |items| && (SameMeaning(List(items), List(all)) <==> cleanBefore && cleanLast)
  {
    hide SameMeaning;
    SameLength(items, out);
    if r.Val? {
      ListSnoc(items[..n], items[n], out, r.v);
      assert items == items[..n] + [items[n]];
    }
  }

  lemma SameLength(xs: seq<Value>, ys: seq<Value>)
    ensures SameMeaning(List(xs), List(ys)) ==> |xs| == |ys|
  {
    hide SameMeaning;
    ListMeaning(xs, ys);
  }

  predicate CleanCommands(items: seq<Value>) {
    forall i | 0 <= i < |items| :: CleanCommand(items[i])
  }

  lemma CommandKept(v: Value)
    requires ViewCommand(v).Shown?
    ensures var r := EmitCommand(ViewCommand(v).state); r.Val? && (Kept(r, v) <==> CleanCommand(v))
  {
    hide SameMeaning, Shield, Unshield, PaddedToken;
    if v.Str? { StrKept(v.s); } else { ItemsKept(v.items); }
  }

  lemma {:induction false} CommandsKept(items: seq<Value>)
    requires ViewCommandItems(items).Some?
    ensures var out := EmitCommandItems(ViewCommandItems(items).value);
      && |out| == |ViewCommandItems(items).value| <= |items|
      && (SameMeaning(List(items), List(out)) <==> CleanCommands(items))
  {
    hide SameMeaning, ViewCommand, EmitCommand, CleanCommand;
    var out := EmitCommandItems(ViewCommandItems(items).value);
    SameLength(items, out);
    if items == [] {
      ListMeaning([], []);
    } else {
      var n := |items| - 1;
      var before, last := items[..n], items[n];
      assert items == before + [last];
      CommandsKept(before);
      assert CleanCommands(items) <==> CleanCommands(before) && CleanCommand(last);
      if last.Null? {
        NullIsUnclean();
      } else {
        CommandKept(last);
        var shown := ViewCommandItems(before).value;
        assert (shown + [ViewCommand(last).state])[..|shown|] == shown;
        ListSnoc(before, last, EmitCommandItems(shown), EmitCommand(ViewCommand(last).state).v);
      }
    }
  }

  lemma NullIsUnclean()
    ensures !CleanCommand(Null)
  {
  }

  // ---- mappings

  // A mapping saved entry by entry under its own keys.
  lemma DictPointwise(es: seq<Entry>, out: seq<Entry>)
    requires TidyKeys(es) && |out| == |es| && forall i | 0 <= i < |es| :: out[i].key == es[i].key
    ensures DistinctKeys(out)
    ensures SameMeaning(Dict(es), Dict(out)) <==> forall i | 0 <= i < |es| :: SameMeaning(es[i].value, out[i].value)
  {
    forall i, j | 0 <= i < j < |out| ensures out[i].key != out[j].key {
      assert ComparableKey(es[i].key) != ComparableKey(es[j].key);
    }
    forall j | 0 <= j < |out| ensures HasKey(es, out[j].key) { assert es[j].key == out[j].key; }
    DictMeaning(es, out);
    forall i | 0 <= i < |es| ensures KeptIn(es[i], out) <==> SameMeaning(es[i].value, out[i].value) {
      if KeptIn(es[i], out) {
        var j :| 0 <= j < |out| && out[j].key == es[i].key && SameMeaning(es[i].value, out[j].value);
        assert j == i;
      }
    }
  }

  lemma MapTextKept(lib: Lib, t: MapType, v: Value)
    requires Faithful(lib) && Tidy(v) && MapText(lib, t, v).Some?
    ensures !Blank(MapText(lib, t, v).value)
    ensures MapValue(lib, t, MapText(lib, t, v).value).Some?
    ensures SameMeaning(v, MapValue(lib, t, MapText(lib, t, v).value).value) <==> (t.StringMap? ==> CleanItem(v))
  {
    match t
    case StringMap => StrKept(v.s);
    case YamlMap => BlockifyMeans(v); MeansSame(v, Blockify(v));
    case ScalarMap => SameRefl(v);
  }

  lemma MapRowCells(lib: Lib, k: string, text: string)
    requires Trimmed(k)
    ensures MapCells(lib, MapRow(k, text).entries) == (k, text)
  {
    var es := MapRow(k, text).entries;
    assert es[1..][0].key == KStr("value");
    StripTrims(k);
  }

  lemma NewKey(es: seq<Entry>, n: nat, out: seq<Entry>)
    requires TidyKeys(es) && n < |es| && |out| == n && forall i | 0 <= i < n :: out[i].key == es[i].key
    ensures !HasKey(out, es[n].key)
  {
    forall i | 0 <= i < n ensures out[i].key != es[n].key {
      assert ComparableKey(es[i].key) != ComparableKey(es[n].key);
    }
  }

  // Entries saved in order under their own keys, each keeping its meaning iff it is clean.
  ghost predicate MapSaved(t: MapType, es: seq<Entry>, out: seq<Entry>) {
    && |out| == |es|
    && (forall i | 0 <= i < |es| :: out[i].key == es[i].key)
    && (forall i | 0 <= i < |es| ::
      SameMeaning(es[i].value, out[i].value) <==> (t.StringMap? ==> CleanItem(es[i].value)))
  }

  lemma MapSavedSnoc(t: MapType, es: seq<Entry>, out: seq<Entry>, e: Entry, w: Value)
    requires MapSaved(t, es, out)
    requires SameMeaning(e.value, w) <==> (t.StringMap? ==> CleanItem(e.value))
    ensures MapSaved(t, es + [e], out + [Entry(e.key, w)])
  {
    hide SameMeaning, CleanItem;
  }

  lemma MapRowSaved(lib: Lib, t: MapType, rows: seq<Value>, k: string, text: string)
    requires EmitMapRows(lib, t, rows).Ok? && MapValue(lib, t, text).Some?
    requires Trimmed(k) && !Blank(k) && !Blank(text) && !HasKey(EmitMapRows(lib, t, rows).out, KStr(k))
    ensures EmitMapRows(lib, t, rows + [MapRow(k, text)])
         == Ok(EmitMapRows(lib, t, rows).out + [Entry(KStr(k), MapValue(lib, t, text).value)])
  {
    hide MapCells, MapValue, HasKey, Blank;
    MapRowCells(lib, k, text);
    StripBlank(k);
    StripTrims(k);
    assert (rows + [MapRow(k, text)])[..|rows|] == rows;
  }

  lemma {:induction false} MapShown(lib: Lib, t: MapType, es: seq<Entry>)
    requires Faithful(lib) && Tidy(Dict(es)) && ViewMapRows(lib, t, es).Some?
    ensures var r := EmitMapRows(lib, t, ViewMapRows(lib, t, es).value); r.Ok? && MapSaved(t, es, r.out)
    ensures |ViewMapRows(lib, t, es).value| == |es|
  {
    hide SameMeaning, Faithful, CleanItem, MapText, MapValue, MapSaved, EmitMapRows, HasKey, Blank, Trimmed;
    if es == [] {
      MapSavedNone(lib, t);
    } else {
      var n := |es| - 1;
      var before, last := es[..n], es[n];
      assert es == before + [last] && Tidy(Dict(before)) && Tidy(last.value);
      MapShown(lib, t, before);
      var shown := ViewMapRows(lib, t, before).value;
      MapTextKept(lib, t, last.value);
      MapSavedKeys(t, before, EmitMapRows(lib, t, shown).out);
      NewKey(es, n, EmitMapRows(lib, t, shown).out);
      var text := MapText(lib, t, last.value).value;
      MapRowSaved(lib, t, shown, last.key.s, text);
      MapSavedSnoc(t, before, EmitMapRows(lib, t, shown).out, last, MapValue(lib, t, text).value);
    }
  }

  lemma MapSavedNone(lib: Lib, t: MapType)
    ensures EmitMapRows(lib, t, []) == Ok([]) && MapSaved(t, [], [])
  {
  }

  lemma MapSavedKeys(t: MapType, es: seq<Entry>, out: seq<Entry>)
    requires MapSaved(t, es, out)
    ensures |out| == |es| && forall i | 0 <= i < |es| :: out[i].key == es[i].key
  {
  }

  lemma MapKept(lib: Lib, t: MapType, v: Value)
    requires Faithful(lib) && Tidy(v) && ViewMap(lib, t, v).Shown?
    ensures Kept(EmitMap(lib, t, ViewMap(lib, t, v).state), v) <==> CleanLeaf(KMap(t), v)
    ensures !EmitMap(lib, t, ViewMap(lib, t, v).state).Raise?
  {
    hide SameMeaning, Faithful, CleanItem, ViewMapRows, EmitMapRows;
    MapShown(lib, t, v.entries);
    DictPointwise(v.entries, EmitMapRows(lib, t, ViewMapRows(lib, t, v.entries).value).out);
  }

  // ---- packages

  // Shielding a posted value does not change its meaning.
  predicate ShieldFree(v: Value) {
    Comparable(ShieldValue(v)) == Comparable(v)
  }

  lemma ShieldFreeList(items: seq<Value>)
    requires forall i | 0 <= i < |items| :: ShieldFree(items[i])
    ensures ShieldFree(List(items))
  {
    assert forall i | 0 <= i < |items| :: ShieldFree(items[i]);
    assert Comparable(ShieldValue(List(items))).items == Comparable(List(items)).items;
  }

  lemma ShieldFreeDict(es: seq<Entry>)
    requires forall i | 0 <= i < |es| :: ShieldFree(es[i].value)
    ensures ShieldFree(Dict(es))
  {
    assert forall i | 0 <= i < |es| :: ShieldFree(es[i].value);
    assert Comparable(ShieldValue(Dict(es))).entries == Comparable(Dict(es)).entries;
  }

  lemma PackageShielded(v: Value, manager: string)
    requires ViewPackage(v, manager).Some?
    ensures ShieldFree(v)
  {
    hide Shield, Unshield, ComparableText, Trimmed, Blank;
    if v.Str? {
      BlankShielded(v.s);
    } else {
      BlankShielded(v.items[0].s);
      BlankShielded(v.items[1].s);
      assert ShieldFree(v.items[0]) && ShieldFree(v.items[1]);
      ShieldFreeList(v.items);
    }
  }

  lemma {:induction false} RunShielded(items: seq<Value>, manager: string)
    requires ViewPackageRun(items, manager).Some?
    ensures forall i | 0 <= i < |items| :: ShieldFree(items[i])
    ensures |ViewPackageRun(items, manager).value| == |items|
  {
    hide ShieldFree, ViewPackage;
    if items != [] {
      RunShielded(items[..|items| - 1], manager);
      PackageShielded(items[|items| - 1], manager);
    }
  }

  lemma {:induction false} GroupsShielded(managers: seq<string>, es: seq<Entry>)
    requires ViewPackageGroups(managers, es).Some?
    ensures forall i | 0 <= i < |es| :: ShieldFree(es[i].value)
    ensures es != [] ==> ViewPackageGroups(managers, es).value != []
  {
    hide ShieldFree, ViewPackage;
    if es != [] {
      var last := es[|es| - 1];
      GroupsShielded(managers, es[..|es| - 1]);
      RunShielded(last.value.items, last.key.s);
      ShieldFreeList(last.value.items);
    }
  }

  lemma {:induction false} PackagesShielded(managers: seq<string>, items: seq<Value>)
    requires ViewPackageItems(managers, items).Some?
    ensures forall i | 0 <= i < |items| :: ShieldFree(items[i])
    ensures items != [] ==> ViewPackageItems(managers, items).value != []
  {
    hide ShieldFree, ViewPackage;
    if items != [] {
      var last := items[|items| - 1];
      PackagesShielded(managers, items[..|items| - 1]);
      if last.Dict? {
        GroupsShielded(managers, last.entries);
        ShieldFreeDict(last.entries);
      } else {
        RunShielded([last], "");
        assert [last][0] == last;
      }
    }
  }

  lemma BlockScalarKept(v: Value)
    requires BlockScalar(v).Some?
    ensures BlockTokenOf(BlockState(BlockScalar(v).value)) == BlockScalar(v)
    ensures SameMeaning(v, Str(BLOCK + BlockScalar(v).value)) <==> Trimmed(v.s)
  {
    var t := BlockScalar(v).value;
    BlockScalarText(v.s, t);
  }

  lemma BlockScalarText(s: string, t: string)
    requires ShieldedToken(Strip(s)) == Some(t)
    ensures ComparableText(s) == ComparableText(BLOCK + t) <==> Trimmed(s)
  {
    hide ComparableText, Shield, Unshield;
    BetweenSpells(Strip(s), PXE, "__");
    ComparableOfShielded(t);
    StripTrims(s);
    if !Trimmed(s) {
      StrippedDiffers(s);
    }
  }

  lemma PackagesKept(lib: Lib, managers: seq<string>, v: Value)
    requires Tidy(v) && ViewPackages(lib, managers, v).Shown? && !ViewPackages(lib, managers, v).tidied
    ensures Kept(EmitPackages(lib, managers, ViewPackages(lib, managers, v).state), v) <==>
      CleanLeaf(KPackages(managers), v)
    ensures !EmitPackages(lib, managers, ViewPackages(lib, managers, v).state).Raise?
  {
    hide SameMeaning, Tidy, BlockScalar, BlockTokenOf, ViewPackageItems, EmitPackageRows, Comparable;
    if BlockScalar(v).Some? {
      BlockScalarIsText(v);
      BlockScalarKept(v);
    } else {
      PackagesShielded(managers, v.items);
      ShieldFreeList(v.items);
      MeansSame(v, ShieldValue(v));
    }
  }

  lemma BlockScalarIsText(v: Value)
    requires BlockScalar(v).Some?
    ensures v.Str?
  {
  }

  // ---- every leaf

  predicate Leaf(kind: Kind) {
    !kind.KObject? && !kind.KRows?
  }

  // Viewing a leaf value without a normalisation notice and saving it keeps its meaning iff the value is clean.
  lemma LeafLens(lib: Lib, f: Field, v: Value, top: bool)
    requires Faithful(lib) && Tidy(v) && Leaf(f.kind)
    requires View(lib, f, v, top).Shown? && !View(lib, f, v, top).tidied
    ensures var r := Emit(lib, f, View(lib, f, v, top).state); !r.Raise? && (Kept(r, v) <==> CleanLeaf(f.kind, v))
  {
    hide SameMeaning, Tidy, Comparable, ViewString, EmitString, ViewStringList, EmitStringList, ViewMap, EmitMap,
      ViewPackages, EmitPackages, ViewEnum, EmitEnum, ViewCommands, EmitCommands, ViewFlex, EmitFlex, ViewYaml,
      EmitYaml, ViewItems, EmitEnumList, EmitLines, ViewAllOrList, EmitAllOrList, ViewStringOrList, EmitStringOrList,
      ViewText, EmitText, EmitInt, ViewInt, EmitBool, ViewObject, ViewRows, EmitObject, EmitRows, CleanLeaf, ViewLayout,
      EmitLayout, ViewTuple, EmitTuple;
    match f.kind
    case KString(octal) => StringKept(lib, octal, v);
    case KText => TextKept(v);
    case KBool => BoolKept(v);
    case KInt => IntKept(lib, f.key, v);
    case KEnum(choices) => EnumKept(choices, v); CleanAlways(f.kind, v);
    case KFlex => FlexKept(v);
    case KStringList => StringListKept(v);
    case KStringOrList(allowFalse) => StringOrListKept(allowFalse, v);
    case KEnumList => EnumListKept(v);
    case KAllOrList => AllOrListKept(v);
    case KYaml(t) => YamlKept(lib, t, v);
    case KCommands => CommandListKept(lib, v);
    case KMap(t) => MapKept(lib, t, v);
    case KPackages(managers) => PackagesKept(lib, managers, v);
    case KLines => LinesKept(v);
    case KLayout => LayoutKept(lib, v); CleanAlways(f.kind, v);
    case KTuple(columns) => TupleKept(lib, columns, v);
  }

  lemma CleanAlways(kind: Kind, v: Value)
    requires kind.KBool? || kind.KInt? || kind.KEnum? || kind.KFlex? || kind.KYaml? || kind.KLayout?
    ensures CleanLeaf(kind, v)
  {
  }

  lemma StringKept(lib: Lib, octal: bool, v: Value)
    requires ViewString(octal, v).Shown?
    ensures var r := EmitString(lib, octal, ViewString(octal, v).state);
      !r.Raise? && (Kept(r, v) <==> CleanLeaf(KString(octal), v))
  {
    hide PaddedToken, OctalText, Shield, Unshield, ComparableText;
    if v.Str? {
      StrKept(v.s);
    } else {
      OctalShown(if v.Int? then v.n else v.o);
    }
  }

  lemma TextKept(v: Value)
    requires ViewText(v).Shown?
    ensures var r := EmitText(ViewText(v).state); !r.Raise? && (Kept(r, v) <==> CleanLeaf(KText, v))
  {
    hide PaddedToken, Shield, Unshield, SameMeaning;
    StrKept(v.s);
  }

  lemma BoolKept(v: Value)
    requires v.Bool?
    ensures Kept(EmitBool(v), v) && CleanLeaf(KBool, v)
  {
  }

  lemma IntKept(lib: Lib, key: string, v: Value)
    requires ViewInt(key, v).Shown? && !ViewInt(key, v).tidied
    ensures Kept(EmitInt(lib, ViewInt(key, v).state), v) && CleanLeaf(KInt, v)
  {
  }

  lemma FlexKept(v: Value)
    requires ViewFlex(v).Shown?
    ensures Kept(EmitFlex(ViewFlex(v).state), v) && CleanLeaf(KFlex, v)
  {
    if v.Bool? {
      BoolTextFacts(v.b);
    }
  }

  lemma StringOrListKept(allowFalse: bool, v: Value)
    requires ViewStringOrList(allowFalse, v).Shown?
    ensures var r := EmitStringOrList(allowFalse, ViewStringOrList(allowFalse, v).state);
      !r.Raise? && (Kept(r, v) <==> CleanLeaf(KStringOrList(allowFalse), v))
  {
    hide PaddedToken, Shield, Unshield;
    match v
    case Str(s) => StrKept(s);
    case List(items) => ItemsKept(items);
    case _ =>
  }

  lemma EnumListKept(v: Value)
    requires ViewItems(v, false).Shown?
    ensures var r := EmitEnumList(ViewItems(v, false).state); !r.Raise? && (Kept(r, v) <==> CleanLeaf(KEnumList, v))
  {
    hide CleanChoices, SameMeaning;
    ChoicesKept(v.items);
    ChoicesSaved(v.items, 0);
  }

  lemma AllOrListKept(v: Value)
    requires ViewAllOrList(v).Shown?
    ensures var r := EmitAllOrList(ViewAllOrList(v).state); !r.Raise? && (Kept(r, v) <==> CleanLeaf(KAllOrList, v))
  {
    hide PaddedToken, Shield, Unshield;
    if v.List? { ItemsKept(v.items); }
  }

  lemma YamlKept(lib: Lib, t: YamlType, v: Value)
    requires Faithful(lib) && Tidy(v) && ViewYaml(lib, t, v).Shown?
    ensures Kept(EmitYaml(lib, t, ViewYaml(lib, t, v).state), v) && CleanLeaf(KYaml(t), v)
  {
    BlockifyMeans(v);
    MeansSame(v, Blockify(v));
  }

  lemma CommandListKept(lib: Lib, v: Value)
    requires ViewCommands(lib, v).Shown? && !ViewCommands(lib, v).tidied
    ensures var r := EmitCommands(ViewCommands(lib, v).state); !r.Raise? && (Kept(r, v) <==> CleanLeaf(KCommands, v))
  {
    hide CleanCommands, SameMeaning;
    CommandsKept(v.items);
  }

  lemma LinesKept(v: Value)
    requires ViewItems(v, true).Shown?
    ensures var r := EmitLines(ViewItems(v, true).state); !r.Raise? && (Kept(r, v) <==> CleanLeaf(KLines, v))
  {
    hide PaddedToken, Shield, Unshield;
    ItemsKept(v.items);
  }

  lemma EnumKept(choices: seq<string>, v: Value)
    requires ViewEnum(choices, v).Shown?
    ensures Kept(EmitEnum(choices, ViewEnum(choices, v).state), v)
  {
    if v.Bool? {
      BoolTextFacts(v.b);
    } else {
      EnumTextKept(choices, v.s);
    }
  }

  lemma BoolTextFacts(b: bool)
    ensures Strip(BoolText(b)) == BoolText(b) && !Blank(BoolText(b))
    ensures '{' !in BoolText(b)
  {
    var s := BoolText(b);
    StripTrims(s);
    assert s[0] in s;
  }

  lemma EnumTextKept(choices: seq<string>, s: string)
    requires ViewEnum(choices, Str(s)).Shown?
    ensures Kept(EmitEnum(choices, Str(Unshield(s))), Str(s))
  {
    hide SameMeaning, Shield, Unshield, PaddedToken;
    TrimmedIsClean(s);
    StrKept(s);
    var u := Unshield(s);
    BoolTextFacts(true);
    BoolTextFacts(false);
    if u == "true" || u == "false" {
      UnshieldSame(s);
    }
  }

  lemma StringListKept(v: Value)
    requires ViewStringList(v).Shown? && !ViewStringList(v).tidied
    ensures var r := EmitStringList(ViewStringList(v).state); !r.Raise? && (Kept(r, v) <==> CleanLeaf(KStringList, v))
  {
    hide SameMeaning, Shield, Unshield, PaddedToken, BlockToken;
    if v.Str? {
      BlockScalarKept(v);
    } else {
      ItemsKept(v.items);
      var shown := ShowItems(v.items);
      if |shown| == 1 {
        assert BlockTokenOf(List(shown)) == BlockTokenOf(shown[0]);
        assert shown[0] == ShowItem(v.items[0]);
      }
      if LoneBlockToken(v.items) {
        ListIsNotText(v.items, BLOCK + BlockToken(Unshield(v.items[0].s)).value);
      }
    }
  }

  lemma ListIsNotText(items: seq<Value>, s: string)
    ensures !SameMeaning(List(items), Str(s))
  {
  }

  // ---- disk layouts and positional rows

  lemma LayoutKept(lib: Lib, v: Value)
    requires Tidy(v) && ViewLayout(lib, v).Shown?
    ensures Kept(EmitLayout(lib, ViewLayout(lib, v).state), v)
  {
    hide SameMeaning, LayoutValues, LayoutLines, Tidy, PostedLines, Blank;
    SameRefl(v);
    if !v.List? {
      var es := ViewLayout(lib, v).state.entries;
      assert Get(es, KStr("mode")) == Some(es[0].value);
      if v.Bool? { BoolTextFacts(v.b); }
    }
  }

  // Shielding a text again keeps its meaning unless it is a placeholder in braces with blanks around it.
  lemma ShieldKept(s: string)
    ensures SameMeaning(Str(s), Str(Shield(s))) <==> !PaddedBrace(s)
  {
    hide ComparableText, Trimmed, Strip, BraceToken, ShieldedToken, Shielded, Brace;
    var b := BraceToken(Strip(s));
    if b.Some? {
      BraceTokenSpells(Strip(s));
      StripTrims(s);
      ComparableOfShielded(b.value);
      UnshieldOfBrace(b.value);
      BraceTokenOf(b.value);
      ComparableTrimmed(s);
      ComparableTrimmed(Brace(b.value));
    }
  }

  lemma BraceTokenSpells(s: string)
    requires BraceToken(s).Some?
    ensures IsToken(BraceToken(s).value) && s == Brace(BraceToken(s).value)
  {
    BetweenSpells(s, "{{", "}}");
  }

  lemma CellKept(v: Value)
    requires Tidy(v) && TupleCell(v).Some?
    ensures SameMeaning(v, ShieldValue(v)) <==> CleanCell(v)
  {
    hide SameMeaning, Shield, PaddedBrace, Unshield;
    if v.Str? { ShieldKept(v.s); } else { SameRefl(v); }
  }

  lemma {:induction false} TupleCellsShown(columns: seq<string>, cells: seq<Value>, n: nat, i: nat)
    requires i < n <= |cells| && n <= |columns| && TupleCells(columns, cells, n).Some?
    ensures TupleCell(cells[i]).Some?
  {
    hide TupleCell;
    if i < n - 1 { TupleCellsShown(columns, cells, n - 1, i); }
  }

  lemma {:induction false} TupleRowsShown(columns: seq<string>, items: seq<Value>, i: nat)
    requires i < |items| && TupleRows(columns, items).Some?
    ensures items[i].List? && items[i].items != [] && |items[i].items| <= |columns|
    ensures forall j | 0 <= j < |items[i].items| :: TupleCell(items[i].items[j]).Some?
  {
    hide TupleCell, TupleCells;
    var n := |items| - 1;
    if i < n {
      TupleRowsShown(columns, items[..n], i);
    } else {
      var cells := items[i].items;
      forall j | 0 <= j < |cells| ensures TupleCell(cells[j]).Some? { TupleCellsShown(columns, cells, |cells|, j); }
    }
  }

  lemma TupleRowKept(row: Value)
    requires Tidy(row) && row.List? && forall j | 0 <= j < |row.items| :: TupleCell(row.items[j]).Some?
    ensures SameMeaning(row, ShieldValue(row)) <==> CleanTuple(row)
  {
    hide SameMeaning, CleanCell, TupleCell;
    ListMeaning(row.items, ShieldValue(row).items);
    forall j | 0 <= j < |row.items|
      ensures SameMeaning(row.items[j], ShieldValue(row).items[j]) <==> CleanCell(row.items[j]) {
      CellKept(row.items[j]);
    }
  }

  lemma TupleKept(lib: Lib, columns: seq<string>, v: Value)
    requires Tidy(v) && ViewTuple(columns, v).Shown?
    ensures var r := EmitTuple(lib, columns, ViewTuple(columns, v).state);
      !r.Raise? && (Kept(r, v) <==> CleanLeaf(KTuple(columns), v))
  {
    hide SameMeaning, CleanTuple, TupleRows, EmitTupleRows;
    ListMeaning(v.items, ShieldValue(v).items);
    forall i | 0 <= i < |v.items| ensures SameMeaning(v.items[i], ShieldValue(v).items[i]) <==> CleanTuple(v.items[i]) {
      TupleRowsShown(columns, v.items, i);
      TupleRowKept(v.items[i]);
    }
  }
}
