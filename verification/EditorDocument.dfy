// A whole seed through the editor: what the page shows, posted back unchanged, means the same as the seed.

module EditorDocument {
  import opened Text
  import opened Values
  import opened EditorForm
  import opened EditorScalars
  import opened EditorLens
  import opened EditorRefusals
  import opened EditorInstaller
  import opened EditorSplice

  predicate DistinctFields(fields: seq<Field>) {
    forall i, j | 0 <= i < j < |fields| :: fields[i].key != fields[j].key
  }

  // ---- the page

  function ShownTop(lib: Lib, f: Field, es: seq<Entry>): Viewed {
    match Get(es, KStr(f.key))
    case None => Unrepresentable
    case Some(v) => View(lib, f, v, true)
  }

  // Form state of the top-level keys, in schema order.
  function DocView(lib: Lib, fields: seq<Field>, es: seq<Entry>): seq<Entry> {
    if fields == [] then [] else
    var prev, f := DocView(lib, fields[..|fields| - 1], es), fields[|fields| - 1];
    match ShownTop(lib, f, es)
    case Unrepresentable => prev
    case Shown(state, _) => prev + [Entry(KStr(f.key), state)]
  }

  // The keys left to Advanced YAML.
  function Others(es: seq<Entry>, doc: seq<Entry>): seq<Entry> {
    if es == [] then [] else
    var prev, last := Others(es[..|es| - 1], doc), es[|es| - 1];
    if HasKey(doc, last.key) then prev else prev + [last]
  }

  function AdvancedText(lib: Lib, extra: seq<Entry>): string {
    if extra == [] then "" else lib.dump(Dict(extra))
  }

  // ---- saving it

  function EmitDocument(lib: Lib, fields: seq<Field>, raw: seq<Entry>): Built<seq<Entry>> {
    if fields == [] then Ok([]) else
    var prev, f := EmitDocument(lib, fields[..|fields| - 1], raw), fields[|fields| - 1];
    if prev.Bad? then Bad
    else match Get(raw, KStr(f.key))
      case None => prev
      case Some(state) =>
        match Emit(lib, f, state)
        case Raise => Bad
        case Omit => prev
        case Val(w) => Ok(prev.out + [Entry(KStr(f.key), w)])
  }

  function LoadExtra(lib: Lib, text: string): Built<seq<Entry>> {
    if Blank(text) then Ok([])
    else match lib.load(text)
      case Some(Null) => Ok([])
      case Some(Dict(es)) => Ok(es)
      case _ => Bad
  }

  // The new cloud-config mapping: original key order, a key posted twice is an error.
  function Merged(lib: Lib, fields: seq<Field>, raw: seq<Entry>, text: string,
                  original: seq<Entry>): Built<seq<Entry>> {
    var pruned, extra := EmitDocument(lib, fields, raw), LoadExtra(lib, text);
    if pruned.Bad? || extra.Bad? || Overlap(pruned.out, extra.out) then Bad
    else Ok(Ordered(original, Blockified(extra.out) + pruned.out))
  }

  // ---- the page, whole

  // Deprecated top-level keys move to their canonical name, unless that one is set too; either way the page says so.
  function RenameTop(es: seq<Entry>, aliases: map<string, string>, n: nat): Renamed
    requires n <= |es|
  {
    if n == 0 then Renamed([], false) else
    var prev, last := RenameTop(es, aliases, n - 1), es[n - 1];
    if !last.key.KStr? || last.key.s !in aliases then Renamed(Put(prev.entries, last.key, last.value), prev.tidied)
    else if HasKey(es, KStr(aliases[last.key.s])) then Renamed(Put(prev.entries, last.key, last.value), true)
    else Renamed(Put(prev.entries, KStr(aliases[last.key.s]), last.value), true)
  }

  const AUTOINSTALL := KStr("autoinstall")

  // The `autoinstall` mapping of an installer seed.
  function AutoOf(parsed: seq<Entry>): Option<seq<Entry>> {
    match Get(parsed, AUTOINSTALL)
    case Some(Dict(auto)) => Some(auto)
    case _ => None
  }

  // The mapping the cloud-config modules edit; user-data that is no mapping counts as empty.
  function CloudConfig(parsed: seq<Entry>): seq<Entry> {
    match AutoOf(parsed)
    case None => parsed
    case Some(auto) => (match Get(auto, USER_DATA) case Some(Dict(es)) => es case _ => [])
  }

  // The other installer keys.
  function InstallerOf(auto: seq<Entry>): seq<Entry> {
    Others(auto, [Entry(USER_DATA, Null)])
  }

  // Everything the page knows: its fields, its deprecated keys, and the installer form.
  datatype Page = Page(fields: seq<Field>, aliases: map<string, string>, form: Form)

  function PageConfig(page: Page, parsed: seq<Entry>): seq<Entry> {
    RenameTop(CloudConfig(parsed), page.aliases, |CloudConfig(parsed)|).entries
  }

  // What saving the page as it was shown builds from a seed.
  function Unedited(lib: Lib, page: Page, parsed: seq<Entry>): Built<seq<Entry>> {
    var es := PageConfig(page, parsed);
    var doc := DocView(lib, page.fields, es);
    match Merged(lib, page.fields, doc, AdvancedText(lib, Others(es, doc)), es)
    case Bad => Bad
    case Ok(merged) =>
      match AutoOf(parsed)
      case None => Ok(merged)
      case Some(auto) =>
        match EmitInstaller(page.form, InstallerView(page.form, InstallerOf(auto)).doc, Unchanged, InstallerOf(auto))
        case Bad => Bad
        case Ok(installer) => Ok(Put(parsed, AUTOINSTALL, Dict(Rebuilt(auto, Dict(merged), installer))))
  }

  // ---- what is read back

  ghost predicate Unnoted(lib: Lib, fields: seq<Field>, es: seq<Entry>) {
    forall i | 0 <= i < |fields| :: ShownTop(lib, fields[i], es).Shown? ==> !ShownTop(lib, fields[i], es).tidied
  }

  lemma GetTail(es: seq<Entry>, e: Entry, k: Key)
    ensures Get(es + [e], k) == if HasKey(es, k) then Get(es, k) else if e.key == k then Some(e.value) else None
  {
    hide Get, HasKey;
    GetAppend(es, [e], k);
    OneEntry(e, k);
  }

  // The state shown for a key, if any.
  lemma {:induction false} DocGet(lib: Lib, fields: seq<Field>, es: seq<Entry>, k: Key)
    requires DistinctFields(fields)
    ensures Get(DocView(lib, fields, es), k) ==
      if k.KStr? && FieldIndex(fields, k.s).Some? then
        (match ShownTop(lib, fields[FieldIndex(fields, k.s).value], es)
         case Shown(state, _) => Some(state)
         case Unrepresentable => None)
      else None
  {
    hide Get, HasKey, ShownTop;
    if fields == [] {
      NoneToGet(k);
    } else {
      var n := |fields| - 1;
      var prev, f := DocView(lib, fields[..n], es), fields[n];
      DocGet(lib, fields[..n], es, k);
      if ShownTop(lib, f, es).Shown? { GetTail(prev, Entry(KStr(f.key), ShownTop(lib, f, es).state), k); }
      assert HasKey(prev, k) <==> Get(prev, k).Some?;
    }
  }

  // The saved value of a key, if any.
  lemma {:induction false} EmitDocumentGet(lib: Lib, fields: seq<Field>, raw: seq<Entry>, k: Key)
    requires DistinctFields(fields) && EmitDocument(lib, fields, raw).Ok?
    ensures var r := Get(EmitDocument(lib, fields, raw).out, k);
      if k.KStr? && FieldIndex(fields, k.s).Some? && Get(raw, k).Some? then
        var e := Emit(lib, fields[FieldIndex(fields, k.s).value], Get(raw, k).value);
        !e.Raise? && r == (if e.Val? then Some(e.v) else None)
      else r == None
  {
    hide Get, HasKey, Emit;
    if fields == [] {
      NoneToGet(k);
    } else {
      var n := |fields| - 1;
      var prev, f := EmitDocument(lib, fields[..n], raw), fields[n];
      EmitDocumentGet(lib, fields[..n], raw, k);
      if Get(raw, KStr(f.key)).Some? {
        var e := Emit(lib, f, Get(raw, KStr(f.key)).value);
        if e.Val? { GetTail(prev.out, Entry(KStr(f.key), e.v), k); }
      }
      assert HasKey(prev.out, k) <==> Get(prev.out, k).Some?;
    }
  }

  lemma {:induction false} OthersGet(es: seq<Entry>, doc: seq<Entry>, k: Key)
    requires DistinctKeys(es)
    ensures Get(Others(es, doc), k) == if HasKey(doc, k) then None else Get(es, k)
  {
    hide Get, HasKey;
    if es == [] {
      NoneToGet(k);
    } else {
      var n := |es| - 1;
      var prev := Others(es[..n], doc);
      assert es == es[..n] + [es[n]];
      OthersGet(es[..n], doc, k);
      GetTail(es[..n], es[n], k);
      if !HasKey(doc, es[n].key) { GetTail(prev, es[n], k); }
      assert HasKey(prev, k) <==> Get(prev, k).Some?;
      assert HasKey(es[..n], k) <==> Get(es[..n], k).Some?;
    }
  }

  lemma {:induction false} OthersFrom(es: seq<Entry>, doc: seq<Entry>, j: nat)
    requires j < |Others(es, doc)|
    ensures Others(es, doc)[j] in es && !HasKey(doc, Others(es, doc)[j].key)
  {
    hide HasKey;
    var n := |es| - 1;
    if j < |Others(es[..n], doc)| {
      OthersFrom(es[..n], doc, j);
      assert forall e | e in es[..n] :: e in es;
    }
  }

  lemma {:induction false} OthersDistinct(es: seq<Entry>, doc: seq<Entry>)
    requires TidyKeys(es)
    ensures TidyKeys(Others(es, doc))
  {
    hide HasKey, ComparableKey;
    if es != [] {
      var n := |es| - 1;
      OthersDistinct(es[..n], doc);
      var prev := Others(es[..n], doc);
      forall j | 0 <= j < |prev| ensures ComparableKey(prev[j].key) != ComparableKey(es[n].key) {
        OthersFrom(es[..n], doc, j);
        var i :| 0 <= i < n && es[..n][i] == prev[j];
        assert es[i] == prev[j];
      }
    }
  }

  lemma OthersTidy(es: seq<Entry>, doc: seq<Entry>)
    requires Tidy(Dict(es))
    ensures Tidy(Dict(Others(es, doc)))
  {
    OthersDistinct(es, doc);
    var out := Others(es, doc);
    forall j | 0 <= j < |out| ensures Tidy(out[j].value) {
      OthersFrom(es, doc, j);
      var i :| 0 <= i < |es| && es[i] == out[j];
    }
  }

  lemma {:induction false} BlockifiedGet(es: seq<Entry>, k: Key)
    ensures Get(Blockified(es), k) == match Get(es, k) case Some(v) => Some(Blockify(v)) case None => None
  {
    hide Blockify;
    if es != [] {
      BlockifiedGet(es[1..], k);
      assert Blockified(es)[1..] == Blockified(es[1..]);
    }
  }

  // Unreadable never, and the same other keys as before.
  lemma AdvancedBack(lib: Lib, es: seq<Entry>, doc: seq<Entry>)
    requires Faithful(lib) && Tidy(Dict(es))
    ensures LoadExtra(lib, AdvancedText(lib, Others(es, doc))) == Ok(Others(es, doc))
  {
    hide Tidy;
    var extra := Others(es, doc);
    OthersTidy(es, doc);
    if extra != [] { assert lib.load(lib.dump(Dict(extra))) == Some(Dict(extra)); }
  }

  // ---- posting back what was shown

  // Every key the form shows holds a clean value.
  predicate CleanTop(lib: Lib, fields: seq<Field>, e: Entry) {
    match FieldOf(fields, e, None)
    case None => true
    case Some(i) => View(lib, fields[i], e.value, true).Shown? ==> Clean(lib, fields[i], e.value)
  }

  // What one key of the seed becomes.
  lemma KeyBack(lib: Lib, fields: seq<Field>, es: seq<Entry>, i: nat)
    requires Faithful(lib) && Tidy(Dict(es)) && DistinctFields(fields) && WfFields(fields) && Unnoted(lib, fields, es)
      && i < |es|
    requires EmitDocument(lib, fields, DocView(lib, fields, es)).Ok?
    ensures var doc := DocView(lib, fields, es);
      var r := Get(Blockified(Others(es, doc)) + EmitDocument(lib, fields, doc).out, es[i].key);
      r.Some? && SameMeaning(es[i].value, r.value) <==> CleanTop(lib, fields, es[i])
  {
    hide SameMeaning, View, Emit, Clean, Faithful, Tidy, Wf, HasKey, Get, Blockify;
    var doc, k, v := DocView(lib, fields, es), es[i].key, es[i].value;
    TidyDistinct(es);
    GetAt(es, i);
    DocGet(lib, fields, es, k);
    EmitDocumentGet(lib, fields, doc, k);
    OthersGet(es, doc, k);
    BlockifiedGet(Others(es, doc), k);
    GetAppend(Blockified(Others(es, doc)), EmitDocument(lib, fields, doc).out, k);
    assert HasKey(doc, k) <==> Get(doc, k).Some?;
    assert HasKey(Blockified(Others(es, doc)), k) <==> Get(Blockified(Others(es, doc)), k).Some?;
    TidyValue(es, i);
    if Get(doc, k).Some? {
      var f := fields[FieldIndex(fields, k.s).value];
      Lens(lib, f, v, true);
    } else {
      BlockifyMeans(v);
      MeansSame(v, Blockify(v));
    }
  }

  lemma TidyDistinct(es: seq<Entry>)
    requires Tidy(Dict(es))
    ensures DistinctKeys(es) && TidyKeys(es)
  {
    forall i, j | 0 <= i < j < |es|
      ensures es[i].key != es[j].key { assert ComparableKey(es[i].key) != ComparableKey(es[j].key); }
  }

  lemma TidyValue(es: seq<Entry>, i: nat)
    requires Tidy(Dict(es)) && i < |es|
    ensures Tidy(es[i].value)
  {
  }

  // The surviving keys hold the combined values.
  lemma {:induction false} SurvivorKept(es: seq<Entry>, combined: seq<Entry>)
    requires DistinctKeys(es)
    ensures DistinctKeys(Survivors(es, combined)) && KeysFrom(es, Survivors(es, combined))
    ensures forall i | 0 <= i < |es| ::
      (KeptIn(es[i], Survivors(es, combined)) <==>
        Get(combined, es[i].key).Some? && SameMeaning(es[i].value, Get(combined, es[i].key).value))
  {
    hide Get, SameMeaning;
    if es != [] {
      var n := |es| - 1;
      var prev, out := Survivors(es[..n], combined), Survivors(es, combined);
      SurvivorKept(es[..n], combined);
      forall j | 0 <= j < |prev| ensures prev[j].key != es[n].key && HasKey(es, prev[j].key) {
        assert HasKey(es[..n], prev[j].key);
        var i :| 0 <= i < n && es[..n][i].key == prev[j].key;
        assert es[i].key == prev[j].key;
      }
      assert HasKey(es, es[n].key);
      forall i | 0 <= i < |es|
        ensures KeptIn(es[i], out) <==>
          Get(combined, es[i].key).Some? && SameMeaning(es[i].value, Get(combined, es[i].key).value)
      {
        if i < n {
          assert es[..n][i] == es[i];
          if out != prev { KeptElsewhere(es[i], prev, out[|prev|]); }
        } else if out != prev {
          assert out[|prev|].key == es[n].key;
        }
      }
    }
  }

  // ---- refused saves

  predicate RefusedTop(lib: Lib, fields: seq<Field>, e: Entry) {
    match FieldOf(fields, e, None)
    case None => false
    case Some(i) => View(lib, fields[i], e.value, true).Shown? && Refused(lib, fields[i], e.value)
  }

  predicate CleanSeed(lib: Lib, fields: seq<Field>, es: seq<Entry>) {
    forall i | 0 <= i < |es| :: CleanTop(lib, fields, es[i])
  }

  predicate RefusedSeed(lib: Lib, fields: seq<Field>, es: seq<Entry>) {
    exists i | 0 <= i < |es| :: RefusedTop(lib, fields, es[i])
  }

  predicate Raises(lib: Lib, f: Field, raw: seq<Entry>) {
    Get(raw, KStr(f.key)).Some? && Emit(lib, f, Get(raw, KStr(f.key)).value).Raise?
  }

  lemma {:induction false} EmitDocumentRaises(lib: Lib, fields: seq<Field>, raw: seq<Entry>)
    ensures EmitDocument(lib, fields, raw).Bad? <==> exists i | 0 <= i < |fields| :: Raises(lib, fields[i], raw)
  {
    hide Get, Emit;
    if fields != [] {
      var n := |fields| - 1;
      EmitDocumentRaises(lib, fields[..n], raw);
      if i :| 0 <= i < n && Raises(lib, fields[..n][i], raw) { assert fields[i] == fields[..n][i]; }
      if i :| 0 <= i <= n && Raises(lib, fields[i], raw) {
        if i < n { assert fields[..n][i] == fields[i]; }
      }
    }
  }

  lemma {:induction false} FieldAt(fields: seq<Field>, i: nat)
    requires DistinctFields(fields) && i < |fields|
    ensures FieldIndex(fields, fields[i].key) == Some(i)
  {
    if i < |fields| - 1 {
      assert fields[i].key != fields[|fields| - 1].key;
      FieldAt(fields[..|fields| - 1], i);
    }
  }

  // Whether saving one shown key raises.
  lemma TopRaises(lib: Lib, fields: seq<Field>, es: seq<Entry>, i: nat, j: nat)
    requires Faithful(lib) && Tidy(Dict(es)) && DistinctFields(fields) && WfFields(fields) && Unnoted(lib, fields, es)
    requires i < |fields| && j < |es| && es[j].key == KStr(fields[i].key)
    ensures RefusedTop(lib, fields, es[j]) ==> Raises(lib, fields[i], DocView(lib, fields, es))
    ensures CleanTop(lib, fields, es[j]) && Raises(lib, fields[i], DocView(lib, fields, es)) ==>
      RefusedTop(lib, fields, es[j])
  {
    hide View, Emit, Clean, Refused, Faithful, Tidy, Wf, Get, HasKey, DistinctFields;
    FieldAt(fields, i);
    TidyDistinct(es);
    GetAt(es, j);
    TidyValue(es, j);
    DocGet(lib, fields, es, es[j].key);
    if View(lib, fields[i], es[j].value, true).Shown? { Refusal(lib, fields[i], es[j].value, true); }
  }

  // Saving the page unedited raises on every refused seed, and on no other clean one.
  lemma DocumentRefusal(lib: Lib, fields: seq<Field>, es: seq<Entry>)
    requires Faithful(lib) && Tidy(Dict(es)) && DistinctFields(fields) && WfFields(fields) && Unnoted(lib, fields, es)
    ensures var r := EmitDocument(lib, fields, DocView(lib, fields, es));
      && (RefusedSeed(lib, fields, es) ==> r.Bad?)
      && (CleanSeed(lib, fields, es) && !RefusedSeed(lib, fields, es) ==> r.Ok?)
  {
    hide Faithful, Tidy, WfFields, Unnoted, DistinctFields, Raises, DocView, CleanTop, RefusedTop;
    var doc := DocView(lib, fields, es);
    EmitDocumentRaises(lib, fields, doc);
    if j :| 0 <= j < |es| && RefusedTop(lib, fields, es[j]) {
      var i := RefusedField(lib, fields, es[j]);
      TopRaises(lib, fields, es, i, j);
    }
    if i :| 0 <= i < |fields| && Raises(lib, fields[i], doc) {
      var j := RaisedKey(lib, fields, es, i);
      TopRaises(lib, fields, es, i, j);
    }
  }

  lemma RefusedField(lib: Lib, fields: seq<Field>, e: Entry) returns (i: nat)
    requires RefusedTop(lib, fields, e)
    ensures i < |fields| && e.key == KStr(fields[i].key)
  {
    hide View, Refused;
    i := FieldOf(fields, e, None).value;
  }

  lemma RaisedKey(lib: Lib, fields: seq<Field>, es: seq<Entry>, i: nat) returns (j: nat)
    requires DistinctFields(fields) && i < |fields| && Raises(lib, fields[i], DocView(lib, fields, es))
    ensures j < |es| && es[j].key == KStr(fields[i].key)
  {
    hide View, Emit;
    FieldAt(fields, i);
    DocGet(lib, fields, es, KStr(fields[i].key));
    j :| 0 <= j < |es| && es[j] == Entry(KStr(fields[i].key), Get(es, KStr(fields[i].key)).value);
  }

  // No key is both in the form and in Advanced YAML.
  lemma NoOverlap(lib: Lib, fields: seq<Field>, es: seq<Entry>)
    requires DistinctFields(fields) && EmitDocument(lib, fields, DocView(lib, fields, es)).Ok?
    ensures var doc := DocView(lib, fields, es); !Overlap(EmitDocument(lib, fields, doc).out, Others(es, doc))
  {
    hide Get, HasKey, View, Emit, DistinctFields;
    var doc := DocView(lib, fields, es);
    var out, extra := EmitDocument(lib, fields, doc).out, Others(es, doc);
    forall j | 0 <= j < |extra| ensures !HasKey(out, extra[j].key) {
      OthersFrom(es, doc, j);
      EmitDocumentGet(lib, fields, doc, extra[j].key);
      assert HasKey(out, extra[j].key) <==> Get(out, extra[j].key).Some?;
      assert HasKey(doc, extra[j].key) <==> Get(doc, extra[j].key).Some?;
    }
  }

  // Posting back what the page shows: no key is added or doubled, the meaning is the seed's exactly when every shown
  // value is clean, a refused value is always an error, and a clean document meets no other error.
  lemma PostedBack(lib: Lib, fields: seq<Field>, es: seq<Entry>)
    requires Faithful(lib) && Tidy(Dict(es)) && DistinctFields(fields) && WfFields(fields) && Unnoted(lib, fields, es)
    ensures var doc := DocView(lib, fields, es);
      var r := Merged(lib, fields, doc, AdvancedText(lib, Others(es, doc)), es);
      && (RefusedSeed(lib, fields, es) ==> r.Bad?)
      && (CleanSeed(lib, fields, es) && !RefusedSeed(lib, fields, es) ==> r.Ok?)
      && (r.Ok? ==>
        DistinctKeys(r.out) && KeysFrom(es, r.out)
          && (SameMeaning(Dict(es), Dict(r.out)) <==> CleanSeed(lib, fields, es)))
  {
    hide SameMeaning, Faithful, Tidy, Wf, WfFields, Unnoted, DistinctFields, HasKey, Get, DocView, EmitDocument,
      LoadExtra, CleanTop, KeptIn, DistinctKeys, TidyKeys, RefusedSeed, Overlap;
    var doc := DocView(lib, fields, es);
    AdvancedBack(lib, es, doc);
    TidyDistinct(es);
    DocumentRefusal(lib, fields, es);
    if EmitDocument(lib, fields, doc).Ok? {
      var combined := Blockified(Others(es, doc)) + EmitDocument(lib, fields, doc).out;
      NoOverlap(lib, fields, es);
      CombinedFrom(lib, fields, es);
      NoNewcomers(es, combined);
      SurvivorKept(es, combined);
      assert Survivors(es, combined) + [] == Survivors(es, combined);
      DictMeaning(es, Survivors(es, combined));
      forall i | 0 <= i < |es|
        ensures Get(combined, es[i].key).Some? && SameMeaning(es[i].value, Get(combined, es[i].key).value) <==>
          CleanTop(lib, fields, es[i])
      {
        KeyBack(lib, fields, es, i);
      }
    }
  }

  lemma CombinedFrom(lib: Lib, fields: seq<Field>, es: seq<Entry>)
    requires Tidy(Dict(es)) && DistinctFields(fields) && EmitDocument(lib, fields, DocView(lib, fields, es)).Ok?
    ensures var doc := DocView(lib, fields, es);
      var combined := Blockified(Others(es, doc)) + EmitDocument(lib, fields, doc).out;
      forall j | 0 <= j < |combined| :: HasKey(es, combined[j].key)
  {
    hide Tidy, Get, Emit, View, Blockify, HasKey;
    var doc := DocView(lib, fields, es);
    var extra, out := Others(es, doc), EmitDocument(lib, fields, doc).out;
    forall j | 0 <= j < |extra| ensures HasKey(es, extra[j].key) {
      OthersFrom(es, doc, j);
      var i :| 0 <= i < |es| && es[i] == extra[j];
      HereKey(es, i);
    }
    forall j | 0 <= j < |out| ensures HasKey(es, out[j].key) {
      HereKey(out, j);
      EmitDocumentGet(lib, fields, doc, out[j].key);
      DocGet(lib, fields, es, out[j].key);
      assert HasKey(out, out[j].key) <==> Get(out, out[j].key).Some?;
      assert HasKey(es, out[j].key) <==> Get(es, out[j].key).Some?;
    }
  }

  // ---- the unedited page, saved

  // Without a notice no deprecated key was there to rename.
  lemma {:induction false} RenameTopNone(es: seq<Entry>, aliases: map<string, string>, n: nat)
    requires n <= |es| && DistinctKeys(es) && !RenameTop(es, aliases, n).tidied
    ensures RenameTop(es, aliases, n).entries == es[..n]
  {
    if n > 0 {
      RenameTopNone(es, aliases, n - 1);
      assert es[..n] == es[..n - 1] + [es[n - 1]];
      PutNew(es[..n - 1], es[n - 1]);
    }
  }

  lemma {:induction false} PutNew(es: seq<Entry>, e: Entry)
    requires forall i | 0 <= i < |es| :: es[i].key != e.key
    ensures Put(es, e.key, e.value) == es + [e]
  {
    if es != [] {
      assert es[0].key != e.key;
      PutNew(es[1..], e);
      assert es + [e] == [es[0]] + (es[1..] + [e]);
    }
  }

  // The mapping with one value replaced in place.
  function Replaced(es: seq<Entry>, k: Key, v: Value): seq<Entry> {
    seq(|es|, i requires 0 <= i < |es| => if es[i].key == k then Entry(k, v) else es[i])
  }

  lemma {:induction false} PutReplaces(es: seq<Entry>, k: Key, v: Value)
    requires DistinctKeys(es) && HasKey(es, k)
    ensures Put(es, k, v) == Replaced(es, k, v)
  {
    if es[0].key == k {
      forall i | 0 < i < |es| ensures es[i].key != k { assert es[0].key != es[i].key; }
    } else {
      var j :| 0 <= j < |es| && es[j].key == k;
      assert es[1..][j - 1].key == k;
      PutReplaces(es[1..], k, v);
      assert Replaced(es, k, v) == [es[0]] + Replaced(es[1..], k, v);
    }
  }

  // Replacing one value keeps the meaning of the mapping exactly when it keeps the meaning of that value.
  lemma ReplacedMeans(es: seq<Entry>, k: Key, v: Value, w: Value)
    requires Tidy(Dict(es)) && Get(es, k) == Some(v)
    ensures SameMeaning(Dict(es), Dict(Replaced(es, k, w))) <==> SameMeaning(v, w)
  {
    hide SameMeaning, Get, Tidy;
    TidyDistinct(es);
    var out := Replaced(es, k, w);
    var at :| 0 <= at < |es| && es[at] == Entry(k, v);
    assert out[at] == Entry(k, w);
    forall j | 0 <= j < |out| ensures HasKey(es, out[j].key) { assert es[j].key == out[j].key; }
    forall i, j | 0 <= i < j < |out| ensures out[i].key != out[j].key { assert es[i].key != es[j].key; }
    forall i | 0 <= i < |es| ensures KeptIn(es[i], out) <==> i != at || SameMeaning(v, w) {
      TidyValue(es, i);
      SameRefl(es[i].value);
      assert out[i].key == es[i].key;
      forall j | 0 <= j < |out| && out[j].key == es[i].key ensures j == i { assert es[j].key == es[i].key; }
    }
    DictMeaning(es, out);
  }

  // User-data the page can show, or none at all.
  predicate KeepsUserData(parsed: seq<Entry>) {
    match AutoOf(parsed)
    case None => true
    case Some(auto) => (match Get(auto, USER_DATA) case None => true case Some(v) => v.Dict?)
  }

  ghost predicate Saveable(lib: Lib, page: Page, parsed: seq<Entry>) {
    && Faithful(lib) && Tidy(Dict(parsed)) && DistinctFields(page.fields) && WfFields(page.fields) && WfForm(page.form)
    && !RenameTop(CloudConfig(parsed), page.aliases, |CloudConfig(parsed)|).tidied
    && Unnoted(lib, page.fields, CloudConfig(parsed))
  }

  lemma ConfigTidy(parsed: seq<Entry>)
    requires Tidy(Dict(parsed))
    ensures Tidy(Dict(CloudConfig(parsed)))
    ensures AutoOf(parsed).Some? ==> Tidy(Dict(AutoOf(parsed).value))
  {
    hide Tidy, Get;
    NoneTidy();
    if AutoOf(parsed).Some? {
      var auto := AutoOf(parsed).value;
      MemberTidy(parsed, AUTOINSTALL, Dict(auto));
      if Get(auto, USER_DATA).Some? { MemberTidy(auto, USER_DATA, Get(auto, USER_DATA).value); }
    }
  }

  lemma MemberTidy(es: seq<Entry>, k: Key, v: Value)
    requires Tidy(Dict(es)) && Get(es, k) == Some(v)
    ensures Tidy(v)
  {
    hide Get;
    var i :| 0 <= i < |es| && es[i] == Entry(k, v);
    TidyValue(es, i);
  }

  // The `autoinstall` mapping with its user-data rebuilt and every other key untouched.
  lemma RebuiltIs(auto: seq<Entry>, merged: seq<Entry>)
    requires Tidy(Dict(auto)) && (Get(auto, USER_DATA).None? ==> merged == [])
    ensures Rebuilt(auto, Dict(merged), InstallerOf(auto)) == Replaced(auto, USER_DATA, Dict(merged))
  {
    hide Tidy, Get, HasKey, RebuiltOld;
    TidyDistinct(auto);
    var only, installer := [Entry(USER_DATA, Null)], InstallerOf(auto);
    forall k: Key ensures Get(installer, k) == if k == USER_DATA then None else Get(auto, k) {
      OthersGet(auto, only, k);
      HasOne(only[0], k);
    }
    assert HasKey(auto, USER_DATA) <==> Get(auto, USER_DATA).Some?;
    RebuiltSame(auto, auto, Dict(merged), installer);
    NothingNew(auto, installer);
  }

  lemma {:induction false} RebuiltSame(auto: seq<Entry>, all: seq<Entry>, userData: Value, installer: seq<Entry>)
    requires DistinctKeys(all) && |auto| <= |all| && auto == all[..|auto|]
    requires forall k: Key :: Get(installer, k) == if k == USER_DATA then None else Get(all, k)
    ensures RebuiltOld(auto, userData, installer) == Replaced(auto, USER_DATA, userData)
  {
    hide Get, DistinctKeys;
    if auto != [] {
      var n := |auto| - 1;
      RebuiltSame(auto[..n], all, userData, installer);
      GetAt(all, n);
      assert auto[n] == all[n];
      assert Replaced(auto, USER_DATA, userData)
        == Replaced(auto[..n], USER_DATA, userData) + [Replaced(auto, USER_DATA, userData)[n]];
    }
  }

  lemma NothingNew(auto: seq<Entry>, installer: seq<Entry>)
    requires forall k: Key :: Get(installer, k).Some? ==> Get(auto, k).Some?
    ensures Newcomers(auto, installer) == []
  {
    hide Get, HasKey;
    forall i | 0 <= i < |installer| ensures HasKey(auto, installer[i].key) {
      HereKey(installer, i);
      assert HasKey(installer, installer[i].key) <==> Get(installer, installer[i].key).Some?;
      assert HasKey(auto, installer[i].key) <==> Get(auto, installer[i].key).Some?;
    }
    NoNewcomers(auto, installer);
  }

  // The installer keys come back as they were.
  lemma InstallerBack(form: Form, auto: seq<Entry>)
    requires WfForm(form) && Tidy(Dict(auto))
    ensures var installer := InstallerOf(auto);
      EmitInstaller(form, InstallerView(form, installer).doc, Unchanged, installer) == Ok(installer)
  {
    hide Tidy, Get, HasKey, InstallerView, EmitInstaller, WfForm, DistinctKeys, TidyKeys;
    TidyDistinct(auto);
    var only, installer := [Entry(USER_DATA, Null)], InstallerOf(auto);
    HasOne(only[0], USER_DATA);
    OthersTidy(auto, only);
    TidyDistinct(installer);
    OthersGet(auto, only, USER_DATA);
    assert HasKey(installer, USER_DATA) <==> Get(installer, USER_DATA).Some?;
    UntouchedInstaller(form, installer);
  }

  // The unedited page of an installer seed rebuilds the seed with its cloud-config merged in.
  lemma InstallerSaved(lib: Lib, page: Page, parsed: seq<Entry>)
    requires Saveable(lib, page, parsed) && AutoOf(parsed).Some?
    ensures var es, auto := CloudConfig(parsed), AutoOf(parsed).value;
      var doc := DocView(lib, page.fields, es);
      var r := Merged(lib, page.fields, doc, AdvancedText(lib, Others(es, doc)), es);
      && Tidy(Dict(es)) && Tidy(Dict(auto))
      && Unedited(lib, page, parsed)
           == (if r.Bad? then Bad else Ok(Replaced(parsed, AUTOINSTALL, Dict(Replaced(auto, USER_DATA, Dict(r.out))))))
  {
    hide SameMeaning, Faithful, Tidy, WfFields, WfForm, Unnoted, DistinctFields, Merged, DocView, Others, Get, HasKey,
      InstallerView, EmitInstaller, Rebuilt, DistinctKeys, KeysFrom, CleanSeed, RefusedSeed, InstallerOf;
    var es, auto := CloudConfig(parsed), AutoOf(parsed).value;
    ConfigTidy(parsed);
    TidyDistinct(parsed);
    TidyDistinct(es);
    RenameTopNone(es, page.aliases, |es|);
    assert es[..|es|] == es;
    InstallerBack(page.form, auto);
    PostedBack(lib, page.fields, es);
    var doc := DocView(lib, page.fields, es);
    var r := Merged(lib, page.fields, doc, AdvancedText(lib, Others(es, doc)), es);
    if r.Ok? {
      if Get(auto, USER_DATA).None? { EmptyFrom(r.out); }
      RebuiltIs(auto, r.out);
      assert HasKey(parsed, AUTOINSTALL) <==> Get(parsed, AUTOINSTALL).Some?;
      PutReplaces(parsed, AUTOINSTALL, Dict(Rebuilt(auto, Dict(r.out), InstallerOf(auto))));
    }
  }

  lemma EmptyFrom(out: seq<Entry>)
    ensures out != [] ==> !KeysFrom([], out)
  {
    if out != [] { HasNone(out[0].key); }
  }

  // Main theorem: saving the unedited page raises or keeps the meaning of the whole seed exactly when every shown value
  // is clean and none is refused and the user-data, if any, is a mapping; for clean values it raises exactly on a
  // refused one.
  lemma NoOp(lib: Lib, page: Page, parsed: seq<Entry>)
    requires Saveable(lib, page, parsed)
    ensures var r, es := Unedited(lib, page, parsed), CloudConfig(parsed);
      && ((r.Ok? && SameMeaning(Dict(parsed), Dict(r.out)))
          <==> (CleanSeed(lib, page.fields, es) && !RefusedSeed(lib, page.fields, es) && KeepsUserData(parsed)))
      && (CleanSeed(lib, page.fields, es) ==> (r.Bad? <==> RefusedSeed(lib, page.fields, es)))
  {
    hide SameMeaning, Faithful, Tidy, WfFields, WfForm, Unnoted, DistinctFields, Merged, DocView, Others, Get, HasKey,
      EmitInstaller, Rebuilt, DistinctKeys, KeysFrom, CleanSeed, RefusedSeed, Replaced, InstallerView, InstallerOf,
      RenameTop;
    var es := CloudConfig(parsed);
    ConfigTidy(parsed);
    PostedBack(lib, page.fields, es);
    var doc := DocView(lib, page.fields, es);
    var r := Merged(lib, page.fields, doc, AdvancedText(lib, Others(es, doc)), es);
    if AutoOf(parsed).Some? {
      InstallerSaved(lib, page, parsed);
      if r.Ok? {
        EmptyFrom(r.out);
        InstallerMeans(parsed, r.out);
      }
    } else {
      TidyDistinct(es);
      RenameTopNone(es, page.aliases, |es|);
      assert es[..|es|] == es;
    }
  }

  // What the new user-data means for the whole seed.
  lemma InstallerMeans(parsed: seq<Entry>, merged: seq<Entry>)
    requires Tidy(Dict(parsed)) && AutoOf(parsed).Some? && (CloudConfig(parsed) == [] ==> merged == [])
    ensures var auto := AutoOf(parsed).value;
      SameMeaning(Dict(parsed), Dict(Replaced(parsed, AUTOINSTALL, Dict(Replaced(auto, USER_DATA, Dict(merged))))))
      <==> SameMeaning(Dict(CloudConfig(parsed)), Dict(merged)) && KeepsUserData(parsed)
  {
    hide SameMeaning, Tidy, Get, HasKey;
    var auto := AutoOf(parsed).value;
    var after := Replaced(auto, USER_DATA, Dict(merged));
    ConfigTidy(parsed);
    ReplacedMeans(parsed, AUTOINSTALL, Dict(auto), Dict(after));
    match Get(auto, USER_DATA)
    case Some(v) =>
      ReplacedMeans(auto, USER_DATA, v, Dict(merged));
      if !v.Dict? { NotMapping(v, merged); }
    case None =>
      assert HasKey(auto, USER_DATA) <==> Get(auto, USER_DATA).Some?;
      forall i | 0 <= i < |auto| ensures auto[i].key != USER_DATA { HereKey(auto, i); }
      assert after == auto;
      SameRefl(Dict(auto));
      SameRefl(Dict(CloudConfig(parsed)));
  }

  lemma NotMapping(v: Value, merged: seq<Entry>)
    requires !v.Dict?
    ensures !SameMeaning(v, Dict(merged))
  {
  }

  // An installer seed whose one key is its user-data.
  function UserDataSeed(v: Value): seq<Entry> {
    [Entry(AUTOINSTALL, Dict([Entry(USER_DATA, v)]))]
  }

  lemma TextSeed(text: string)
    ensures var parsed := UserDataSeed(Str(text));
      && AutoOf(parsed) == Some([Entry(USER_DATA, Str(text))]) && CloudConfig(parsed) == [] && !KeepsUserData(parsed)
      && Tidy(Dict(parsed))
  {
    var auto := [Entry(USER_DATA, Str(text))];
    assert Get(auto, USER_DATA) == Some(Str(text)) && Get(UserDataSeed(Str(text)), AUTOINSTALL) == Some(Dict(auto));
    assert Tidy(Str(text)) && Tidy(Dict(auto));
  }

  // Text is user-data the installer accepts, but the page takes it for an empty mapping and the save stores that.
  lemma UserDataTextIsLost(lib: Lib, page: Page, text: string)
    requires Faithful(lib) && DistinctFields(page.fields) && WfFields(page.fields) && WfForm(page.form)
    ensures var parsed := UserDataSeed(Str(text));
      && Unedited(lib, page, parsed) == Ok(UserDataSeed(Dict([])))
      && !SameMeaning(Dict(parsed), Dict(UserDataSeed(Dict([]))))
  {
    hide SameMeaning, Faithful, WfFields, WfForm, DistinctFields, EmitInstaller, InstallerView, InstallerOf, Others,
      Tidy, Get, AutoOf, CloudConfig, KeepsUserData, Unedited, Merged;
    var auto := [Entry(USER_DATA, Str(text))];
    var parsed := UserDataSeed(Str(text));
    TextSeed(text);
    NothingShown(lib, page.fields);
    InstallerSaved(lib, page, parsed);
    NothingMerged(lib, page.fields);
    var after := [Entry(USER_DATA, Dict([]))];
    assert Replaced(auto, USER_DATA, Dict([])) == after;
    assert Replaced(parsed, AUTOINSTALL, Dict(after)) == UserDataSeed(Dict([]));
    InstallerMeans(parsed, []);
  }

  lemma {:induction false} NothingShown(lib: Lib, fields: seq<Field>)
    ensures DocView(lib, fields, []) == [] && Unnoted(lib, fields, [])
  {
    hide View;
    if fields != [] { NothingShown(lib, fields[..|fields| - 1]); }
  }

  lemma {:induction false} NothingMerged(lib: Lib, fields: seq<Field>)
    ensures Merged(lib, fields, [], AdvancedText(lib, Others([], [])), []) == Ok([])
  {
    hide Emit;
    NothingEmitted(lib, fields);
    assert Blockified([]) + [] == [];
  }

  lemma {:induction false} NothingEmitted(lib: Lib, fields: seq<Field>)
    ensures EmitDocument(lib, fields, []) == Ok([])
  {
    hide Emit;
    if fields != [] { NothingEmitted(lib, fields[..|fields| - 1]); }
  }
}
