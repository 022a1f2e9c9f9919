// The view/emit law for every field type: saving what the form shows keeps the meaning of the seed value
// exactly when the value is clean, by induction over schema and value together.

module EditorLens {
  import opened Text
  import opened Tokens
  import opened Values
  import opened EditorForm
  import opened EditorScalars

  // No sub-field takes the name under which the form keeps its other keys.
  predicate WfFields(fields: seq<Field>) {
    forall i | 0 <= i < |fields| :: fields[i].key != EXTRA && Wf(fields[i])
  }

  predicate Wf(f: Field) {
    match f.kind
    case KObject(fields, _, requireKey, _) => WfFields(fields) && requireKey != Some(EXTRA)
    case KRows(shape, itemFields, _, _, keyField, _, _) =>
      && WfFields(itemFields) && keyField != EXTRA && keyField != "value"
      && (shape.AsMapping? ==> Models(itemFields, keyField))
    case _ => true
  }

  // The entry is shown by a sub-field rather than kept in the other keys.
  predicate InForm(lib: Lib, fields: seq<Field>, e: Entry, skip: Option<string>) {
    match FieldOf(fields, e, skip)
    case None => false
    case Some(i) => View(lib, fields[i], e.value, false).Shown?
  }

  // ---- clean values

  predicate CleanChild(lib: Lib, fields: seq<Field>, e: Entry, skip: Option<string>)
    decreases fields, 0
  {
    match FieldOf(fields, e, skip)
    case None => true
    case Some(i) => View(lib, fields[i], e.value, false).Shown? ==> Clean(lib, fields[i], e.value)
  }

  predicate CleanFields(lib: Lib, fields: seq<Field>, es: seq<Entry>, skip: Option<string>)
    decreases fields, 1
  {
    forall i | 0 <= i < |es| :: CleanChild(lib, fields, es[i], skip)
  }

  predicate CleanListRow(lib: Lib, f: Field, v: Value)
    requires f.kind.KRows?
    decreases f, 0
  {
    match v
    case Dict(es) => CleanFields(lib, f.kind.itemFields, es, None)
    case Str(s) => CleanText(s)
    case _ => true
  }

  predicate CleanListRows(lib: Lib, f: Field, items: seq<Value>)
    requires f.kind.KRows?
    decreases f, 1
  {
    forall i | 0 <= i < |items| :: CleanListRow(lib, f, items[i])
  }

  // What a row saved under a name keeps.
  predicate CleanPayload(lib: Lib, f: Field, v: Value)
    requires f.kind.KRows?
    decreases f, 0
  {
    match v
    case Dict(es) => CleanFields(lib, f.kind.itemFields, es, Some(f.kind.keyField))
    case Str(s) => !Blank(s) && CleanText(s)
    case _ => true
  }

  predicate CleanNamed(lib: Lib, f: Field, e: Entry)
    requires f.kind.KRows?
    decreases f, 1
  {
    (e.key.KStr? ==> Trimmed(e.key.s)) && CleanPayload(lib, f, e.value)
  }

  predicate CleanNamedRows(lib: Lib, f: Field, es: seq<Entry>)
    requires f.kind.KRows?
    decreases f, 2
  {
    forall i | 0 <= i < |es| :: CleanNamed(lib, f, es[i])
  }

  // The values that survive a view and a save: no lone placeholder with blanks around it, no text the
  // save would read as another type, no blank, repeated or padded entry the save drops or merges.
  predicate Clean(lib: Lib, f: Field, v: Value)
    decreases f, 3
  {
    if f.kind.KObject? then v.Dict? ==> CleanFields(lib, f.kind.fields, v.entries, None)
    else if f.kind.KRows? then
      match v
      case List(items) => if f.kind.shape.AsListOrMap? then CleanItems(items) else CleanListRows(lib, f, items)
      case Dict(es) => CleanNamedRows(lib, f, es)
      case _ => true
    else CleanLeaf(f.kind, v)
  }

  // ---- shown values are never empty

  lemma LeafNotEmpty(lib: Lib, f: Field, v: Value, top: bool)
    requires Faithful(lib) && Tidy(v) && Leaf(f.kind) && View(lib, f, v, top).Shown?
    ensures !IsEmpty(View(lib, f, v, top).state)
    ensures !View(lib, f, v, top).tidied ==> !IsEmpty(v)
  {
    hide SameMeaning, Shield, OctalText, PaddedToken, Comparable, EmitPackages, Unshield, ShieldedToken, Blank, Tidy,
      EmitMapRows, MapText, ViewPackageItems, TupleRows, EmitTupleRows, EmitLayout, LayoutLines;
    match f.kind
    case KString(octal) =>
      if v.Str? { UnshieldBlank(v.s); } else if v.Int? { OctalShown(v.n); } else if v.Octal? { OctalShown(v.o); }
    case KText => UnshieldBlank(v.s);
    case KEnum(_) => if v.Str? { UnshieldBlank(v.s); } else { BoolTextFacts(v.b); }
    case KFlex => FlexNotEmpty(v);
    case KStringList => if v.Str? && BlockScalar(v).Some? { StripBlank(v.s); BlockNotBlank(v.s); }
    case KStringOrList(_) => if v.Str? { UnshieldBlank(v.s); }
    case KPackages(managers) =>
      if BlockScalar(v).Some? { StripBlank(v.s); BlockNotBlank(v.s); } else { PackagesShielded(managers, v.items); }
    case KMap(t) => MapShown(lib, t, v.entries);
    case KAllOrList => WordNotBlank("all");
    case KTuple(columns) => TupleNotEmpty(columns, v.items);
    case KLayout => WordNotBlank("remove");
    case _ =>
  }

  lemma {:induction false} TupleNotEmpty(columns: seq<string>, items: seq<Value>)
    requires TupleRows(columns, items).Some?
    ensures |TupleRows(columns, items).value| == |items|
  {
    hide TupleCells;
    if items != [] { TupleNotEmpty(columns, items[..|items| - 1]); }
  }

  lemma WordNotBlank(s: string)
    requires s != "" && !IsSpace(s[0])
    ensures !Blank(s)
  {
    assert s[0] in s;
  }

  lemma BlockNotBlank(s: string)
    ensures BlockToken(s).Some? ==> Strip(s) != ""
  {
  }

  lemma FlexNotEmpty(v: Value)
    requires ViewFlex(v).Shown?
    ensures !IsEmpty(ViewFlex(v).state) && !IsEmpty(v)
  {
    if v.Bool? { BoolTextFacts(v.b); }
    if v.Str? { UnshieldBlank(v.s); }
  }

  lemma {:induction false} ListRowsCount(lib: Lib, f: Field, items: seq<Value>)
    requires f.kind.KRows? && ViewListRows(lib, f, items).Shown?
    ensures var s := ViewListRows(lib, f, items).state; s.List? && |s.items| == |items|
  {
    hide ViewListRow;
    if items != [] { ListRowsCount(lib, f, items[..|items| - 1]); }
  }

  lemma {:induction false} NamedRowsCount(lib: Lib, f: Field, es: seq<Entry>)
    requires f.kind.KRows? && ViewNamedRows(lib, f, es).Shown?
    ensures var s := ViewNamedRows(lib, f, es).state; s.List? && |s.items| == |es|
  {
    hide ViewNamedRow;
    if es != [] { NamedRowsCount(lib, f, es[..|es| - 1]); }
  }

  lemma {:induction false} ValueRowsCount(items: seq<Value>)
    requires ViewValueRows(items).Shown?
    ensures var s := ViewValueRows(items).state; s.List? && |s.items| == |items|
  {
    hide Unshield, Blank;
    if items != [] { ValueRowsCount(items[..|items| - 1]); }
  }

  lemma ShownNotEmpty(lib: Lib, f: Field, v: Value, top: bool)
    requires Faithful(lib) && Tidy(v) && View(lib, f, v, top).Shown?
    ensures !IsEmpty(View(lib, f, v, top).state)
    ensures !View(lib, f, v, top).tidied ==> !IsEmpty(v)
  {
    if Leaf(f.kind) {
      LeafNotEmpty(lib, f, v, top);
    } else if f.kind.KRows? {
      RowsNotEmpty(lib, f, v, top);
    } else {
      hide Unshield, ViewMapping, Faithful;
    }
  }

  lemma RowsNotEmpty(lib: Lib, f: Field, v: Value, top: bool)
    requires f.kind.KRows? && ViewRows(lib, f, v, top).Shown?
    ensures !IsEmpty(ViewRows(lib, f, v, top).state)
    ensures !ViewRows(lib, f, v, top).tidied ==> !IsEmpty(v)
  {
    hide Blank, UsersAsList, ViewListRows, ViewNamedRows, ViewValueRows;
    if v.Dict? {
      if ViewNamedRows(lib, f, v.entries).Shown? { NamedRowsCount(lib, f, v.entries); }
      if UsersAsList(v.entries).Some? && ViewListRows(lib, f, UsersAsList(v.entries).value).Shown? {
        ListRowsCount(lib, f, UsersAsList(v.entries).value);
      }
    } else if v.List? {
      if ViewListRows(lib, f, v.items).Shown? { ListRowsCount(lib, f, v.items); }
      if ViewValueRows(v.items).Shown? { ValueRowsCount(v.items); }
    } else {
      if ViewListRows(lib, f, [v]).Shown? { ListRowsCount(lib, f, [v]); }
    }
  }

  // ---- objects

  lemma FieldOfExtra(fields: seq<Field>, v: Value, skip: Option<string>)
    requires WfFields(fields)
    ensures FieldOf(fields, Entry(KStr(EXTRA), v), skip).None?
    ensures !Models(fields, EXTRA)
  {
    hide Wf;
  }

  // Shown entries carry modelled keys of the mapping and are not empty.
  lemma {:induction false} FieldsShown(lib: Lib, fields: seq<Field>, es: seq<Entry>, skip: Option<string>, j: nat)
    requires Faithful(lib) && Tidy(Dict(es)) && j < |ViewFields(lib, fields, es, skip).shown|
    ensures var e := ViewFields(lib, fields, es, skip).shown[j];
      FieldOf(fields, e, skip).Some? && !IsEmpty(e.value) && HasKey(es, e.key)
  {
    hide View, Faithful, IsEmpty, Tidy, HasKey;
    var n := |es| - 1;
    TidyEntry(es, n);
    KeyAt(es, n);
    var i := FieldOf(fields, es[n], skip);
    var prev := ViewFields(lib, fields, es[..n], skip).shown;
    if j < |prev| {
      FieldsShown(lib, fields, es[..n], skip, j);
      KeyInPrefix(es, n, prev[j].key);
    } else {
      ShownNotEmpty(lib, fields[i.value], es[n].value, false);
    }
  }

  lemma TidyEntry(es: seq<Entry>, n: nat)
    requires Tidy(Dict(es)) && n < |es|
    ensures Tidy(Dict(es[..n])) && Tidy(es[n].value) && TidyKeys(es)
  {
  }

  lemma KeyInPrefix(es: seq<Entry>, n: nat, k: Key)
    requires n <= |es| && HasKey(es[..n], k)
    ensures HasKey(es, k)
  {
    var i :| 0 <= i < n && es[..n][i].key == k;
    assert es[i].key == k;
  }

  // A modelled entry the form shows reaches the shown list under its own key.
  lemma {:induction false} FieldsReach(lib: Lib, fields: seq<Field>, es: seq<Entry>, skip: Option<string>, i: nat)
    requires i < |es|
    ensures var fv := ViewFields(lib, fields, es, skip);
      if InForm(lib, fields, es[i], skip) then HasKey(fv.shown, es[i].key) else es[i] in fv.extra
  {
    hide View;
    var n := |es| - 1;
    var prev := ViewFields(lib, fields, es[..n], skip);
    var fv := ViewFields(lib, fields, es, skip);
    if i < n {
      FieldsReach(lib, fields, es[..n], skip, i);
      assert fv.shown[..|prev.shown|] == prev.shown;
      if InForm(lib, fields, es[i], skip) { KeyInPrefix(fv.shown, |prev.shown|, es[i].key); }
    } else if InForm(lib, fields, es[n], skip) {
      assert fv.shown[|prev.shown|].key == es[n].key;
    }
  }

  // The other keys are the entries the form does not show.
  lemma {:induction false} ExtraAside(lib: Lib, fields: seq<Field>, es: seq<Entry>, skip: Option<string>)
    requires Tidy(Dict(es))
    ensures var fv := ViewFields(lib, fields, es, skip);
      && Tidy(Dict(fv.extra))
      && (forall j | 0 <= j < |fv.extra| :: fv.extra[j] in es && !InForm(lib, fields, fv.extra[j], skip))
  {
    hide View, InForm, Tidy;
    if es == [] {
      NoneTidy();
    } else {
      var n := |es| - 1;
      TidyEntry(es, n);
      ExtraAside(lib, fields, es[..n], skip);
      var prev, extra := ViewFields(lib, fields, es[..n], skip).extra, ViewFields(lib, fields, es, skip).extra;
      TidySnoc(es, n, prev);
      AsideStep(lib, fields, es[n], skip);
      assert extra == prev || extra == prev + [es[n]];
      hide ViewFields;
      forall j | 0 <= j < |extra| ensures extra[j] in es && !InForm(lib, fields, extra[j], skip) {
        if j < |prev| {
          assert extra[j] == prev[j];
          InPrefix(es, n, prev[j]);
        }
      }
    }
  }

  lemma InPrefix(es: seq<Entry>, n: nat, e: Entry)
    requires n <= |es| && e in es[..n]
    ensures e in es
  {
  }

  lemma NoneTidy()
    ensures Tidy(Dict([]))
  {
  }

  lemma AsideStep(lib: Lib, fields: seq<Field>, e: Entry, skip: Option<string>)
    ensures InForm(lib, fields, e, skip)
        <==> FieldOf(fields, e, skip).Some? && View(lib, fields[FieldOf(fields, e, skip).value], e.value, false).Shown?
  {
    hide View;
  }

  lemma TidySnoc(es: seq<Entry>, n: nat, sub: seq<Entry>)
    requires Tidy(Dict(es)) && n < |es| && Tidy(Dict(sub)) && forall j | 0 <= j < |sub| :: sub[j] in es[..n]
    ensures Tidy(Dict(sub + [es[n]]))
  {
    var all := sub + [es[n]];
    forall i | 0 <= i < |sub| ensures ComparableKey(sub[i].key) != ComparableKey(es[n].key) {
      assert sub[i] in es[..n];
      var k :| 0 <= k < n && es[k] == sub[i];
    }
  }

  // Form entries saved under their own keys, each kept iff it is clean.
  ghost predicate FormSaved(lib: Lib, fields: seq<Field>, es: seq<Entry>, skip: Option<string>, out: seq<Entry>) {
    && DistinctKeys(out)
    && (forall j | 0 <= j < |out| :: HasKey(es, out[j].key))
    && (forall i | 0 <= i < |es| :: if InForm(lib, fields, es[i], skip)
          then KeptIn(es[i], out) <==> CleanChild(lib, fields, es[i], skip)
          else !HasKey(out, es[i].key))
  }

  lemma KeptElsewhere(e: Entry, out: seq<Entry>, x: Entry)
    requires x.key != e.key
    ensures KeptIn(e, out + [x]) <==> KeptIn(e, out)
    ensures HasKey(out + [x], e.key) <==> HasKey(out, e.key)
  {
    hide SameMeaning;
    var all := out + [x];
    assert forall j | 0 <= j < |out| :: all[j] == out[j];
  }

  lemma KeptHere(e: Entry, out: seq<Entry>, w: Value)
    requires !HasKey(out, e.key)
    ensures KeptIn(e, out + [Entry(e.key, w)]) <==> SameMeaning(e.value, w)
    ensures !KeptIn(e, out)
  {
    hide SameMeaning;
    var all := out + [Entry(e.key, w)];
    assert forall j | 0 <= j < |out| :: all[j] == out[j];
    assert all[|out|] == Entry(e.key, w);
  }

  lemma PrefixKeys(es: seq<Entry>, n: nat, out: seq<Entry>)
    requires TidyKeys(es) && n < |es| && forall j | 0 <= j < |out| :: HasKey(es[..n], out[j].key)
    ensures !HasKey(out, es[n].key)
    ensures forall i | 0 <= i < n :: es[i].key != es[n].key
  {
    forall i | 0 <= i < n ensures es[i].key != es[n].key {
      assert ComparableKey(es[i].key) != ComparableKey(es[n].key);
    }
    forall j | 0 <= j < |out| ensures out[j].key != es[n].key {
      assert HasKey(es[..n], out[j].key);
      var i :| 0 <= i < n && es[..n][i].key == out[j].key;
    }
  }

  // One more entry: saved at the end, or not saved at all.
  lemma FormSavedSnoc(lib: Lib, fields: seq<Field>, es: seq<Entry>, n: nat, skip: Option<string>, out: seq<Entry>,
                      w: Option<Value>)
    requires TidyKeys(es) && n + 1 == |es| && FormSaved(lib, fields, es[..n], skip, out)
    requires if InForm(lib, fields, es[n], skip)
             then CleanChild(lib, fields, es[n], skip) <==> (w.Some? && SameMeaning(es[n].value, w.value))
             else w.None?
    ensures FormSaved(lib, fields, es, skip, if w.Some? then out + [Entry(es[n].key, w.value)] else out)
  {
    hide SameMeaning, KeptIn, HasKey, CleanChild, InForm;
    var before := es[..n];
    PrefixKeys(es, n, out);
    var x := if w.Some? then w.value else Null;
    var all := if w.Some? then out + [Entry(es[n].key, x)] else out;
    forall j | 0 <= j < |out| ensures out[j].key != es[n].key { NotHere(out, es[n].key, j); }
    KeptHere(es[n], out, x);
    forall i | 0 <= i < n
      ensures KeptIn(es[i], all) <==> KeptIn(es[i], out)
      ensures HasKey(all, es[i].key) <==> HasKey(out, es[i].key)
    {
      KeptElsewhere(es[i], out, Entry(es[n].key, x));
    }
    forall j | 0 <= j < |all| ensures HasKey(es, all[j].key) {
      if j < |out| { KeyInPrefix(es, n, out[j].key); } else { KeyAt(es, n); }
    }
    assert forall i | 0 <= i < n :: es[i] == before[i];
  }

  lemma NotHere(out: seq<Entry>, k: Key, j: nat)
    requires !HasKey(out, k) && j < |out|
    ensures out[j].key != k
  {
  }

  lemma KeyAt(es: seq<Entry>, n: nat)
    requires n < |es|
    ensures HasKey(es, es[n].key)
  {
  }

  lemma {:induction false} FieldsLens(lib: Lib, fields: seq<Field>, es: seq<Entry>, skip: Option<string>)
    requires Faithful(lib) && WfFields(fields) && Tidy(Dict(es))
    requires !ViewFields(lib, fields, es, skip).tidied
    ensures var r := EmitFields(lib, fields, ViewFields(lib, fields, es, skip).shown, skip);
      r.Ok? ==> FormSaved(lib, fields, es, skip, r.out)
    decreases fields, 0, |es|
  {
    hide View, Emit, Clean, Faithful, Wf, SameMeaning, Tidy, FormSaved;
    if es == [] {
      FormSavedNone(lib, fields, skip);
    } else {
      var n := |es| - 1;
      var before, e := es[..n], es[n];
      TidyEntry(es, n);
      FieldsLens(lib, fields, before, skip);
      var prev, fv := ViewFields(lib, fields, before, skip), ViewFields(lib, fields, es, skip);
      var r := EmitFields(lib, fields, prev.shown, skip);
      var i := FieldOf(fields, e, skip);
      if r.Ok? {
        if i.Some? && View(lib, fields[i.value], e.value, false).Shown? {
          var f, state := fields[i.value], View(lib, fields[i.value], e.value, false).state;
          assert fv.shown[..|fv.shown| - 1] == prev.shown;
          Lens(lib, f, e.value, false);
          match Emit(lib, f, state)
          case Raise =>
          case Omit => FormSavedSnoc(lib, fields, es, n, skip, r.out, None);
          case Val(w) => FormSavedSnoc(lib, fields, es, n, skip, r.out, Some(w));
        } else {
          FormSavedSnoc(lib, fields, es, n, skip, r.out, None);
        }
      }
    }
  }

  lemma FormSavedNone(lib: Lib, fields: seq<Field>, skip: Option<string>)
    ensures FormSaved(lib, fields, [], skip, [])
  {
  }

  // ---- form fields and other keys together

  lemma {:induction false} RenameNone(es: seq<Entry>, aliases: map<string, string>, n: nat)
    requires n <= |es| && !RenameAliases(es, aliases, n).tidied
    ensures RenameAliases(es, aliases, n).entries == es[..n]
  {
    if n > 0 {
      RenameNone(es, aliases, n - 1);
      assert es[..n] == es[..n - 1] + [es[n - 1]];
    }
  }

  // An entry no sub-field emits changes nothing.
  lemma EmitFieldsSkips(lib: Lib, fields: seq<Field>, st: seq<Entry>, skip: Option<string>, x: Entry)
    requires FieldOf(fields, x, skip).None?
    ensures EmitFields(lib, fields, st + [x], skip) == EmitFields(lib, fields, st, skip)
  {
    hide Emit, FieldOf;
    assert (st + [x])[..|st|] == st;
  }

  lemma {:induction false} EmitFieldsAfter(lib: Lib, fields: seq<Field>, x: Entry, st: seq<Entry>, skip: Option<string>)
    requires FieldOf(fields, x, skip).None?
    ensures EmitFields(lib, fields, [x] + st, skip) == EmitFields(lib, fields, st, skip)
  {
    hide Emit, FieldOf;
    if st == [] {
      assert [x] + st == [x] && [x][..0] == [];
    } else {
      var n := |st| - 1;
      assert ([x] + st)[..n + 1] == [x] + st[..n] && ([x] + st)[n + 1] == st[n];
      EmitFieldsAfter(lib, fields, x, st[..n], skip);
    }
  }

  lemma {:induction false} GetLast(es: seq<Entry>, k: Key, v: Value)
    requires !HasKey(es, k)
    ensures Get(es + [Entry(k, v)], k) == Some(v)
  {
    var all := es + [Entry(k, v)];
    if es != [] {
      NotHere(es, k, 0);
      forall i | 0 <= i < |es[1..]| ensures es[1..][i].key != k { NotHere(es, k, i + 1); }
      GetLast(es[1..], k, v);
      assert all[1..] == es[1..] + [Entry(k, v)];
    }
  }

  lemma GetAfter(x: Entry, es: seq<Entry>, k: Key)
    requires x.key != k
    ensures Get([x] + es, k) == Get(es, k)
  {
    assert ([x] + es)[1..] == es;
  }

  // dict.get finds the entry with that key.
  lemma {:induction false} GetIs(es: seq<Entry>, j: nat)
    requires DistinctKeys(es) && j < |es|
    ensures Get(es, es[j].key) == Some(es[j].value)
  {
    if j > 0 {
      assert es[0].key != es[j].key && es[1..][j - 1] == es[j];
      GetIs(es[1..], j - 1);
    }
  }

  function Blockified(extra: seq<Entry>): seq<Entry> {
    seq(|extra|, i requires 0 <= i < |extra| => Entry(extra[i].key, Blockify(extra[i].value)))
  }

  lemma {:induction false} MergeAll(target: seq<Entry>, extra: seq<Entry>)
    requires TidyKeys(extra) && forall j | 0 <= j < |extra| :: !HasKey(target, extra[j].key)
    ensures MergeEntries(target, extra) == Ok(target + Blockified(extra))
  {
    hide Blockify, HasKey;
    if extra == [] {
      assert target + Blockified(extra) == target;
    } else {
      var n := |extra| - 1;
      MergeAll(target, extra[..n]);
      var last := Entry(extra[n].key, Blockify(extra[n].value));
      var prev := target + Blockified(extra[..n]);
      assert Blockified(extra) == Blockified(extra[..n]) + [last];
      forall i | 0 <= i < |prev| ensures prev[i].key != extra[n].key {
        if i < |target| {
          NotHere(target, extra[n].key, i);
        } else {
          assert ComparableKey(extra[i - |target|].key) != ComparableKey(extra[n].key);
        }
      }
      NoKey(prev, extra[n].key);
      hide Blockified;
      assert prev + [last] == target + Blockified(extra);
    }
  }

  lemma NoKey(es: seq<Entry>, k: Key)
    requires forall i | 0 <= i < |es| :: es[i].key != k
    ensures !HasKey(es, k)
  {
  }

  lemma {:induction false} KeptAppend(e: Entry, out: seq<Entry>, tail: seq<Entry>)
    requires forall j | 0 <= j < |tail| :: tail[j].key != e.key
    ensures KeptIn(e, out + tail) <==> KeptIn(e, out)
  {
    hide KeptIn;
    if tail == [] {
      assert out + tail == out;
    } else {
      var n := |tail| - 1;
      KeptAppend(e, out, tail[..n]);
      KeptElsewhere(e, out + tail[..n], tail[n]);
      assert out + tail == out + tail[..n] + [tail[n]];
    }
  }

  ghost predicate KeysFrom(es: seq<Entry>, out: seq<Entry>) {
    forall j | 0 <= j < |out| :: HasKey(es, out[j].key)
  }

  // The saved form entries and the untouched other keys together are the mapping, iff every shown entry is clean.
  lemma MergedMeaning(lib: Lib, fields: seq<Field>, es: seq<Entry>, skip: Option<string>, out: seq<Entry>)
    requires Tidy(Dict(es)) && FormSaved(lib, fields, es, skip, out)
    ensures var extra := ViewFields(lib, fields, es, skip).extra;
      && MergeEntries(out, extra) == Ok(out + Blockified(extra))
      && DistinctKeys(out + Blockified(extra)) && KeysFrom(es, out + Blockified(extra))
      && (SameMeaning(Dict(es), Dict(out + Blockified(extra))) <==> CleanFields(lib, fields, es, skip))
  {
    hide SameMeaning, KeptIn, InForm, CleanChild, Tidy, Blockify;
    var extra := ViewFields(lib, fields, es, skip).extra;
    ExtraAside(lib, fields, es, skip);
    TidyKeysOf(es);
    TidyKeysOf(extra);
    forall j | 0 <= j < |extra| ensures !HasKey(out, extra[j].key) && HasKey(es, extra[j].key) {
      assert extra[j] in es;
      var i :| 0 <= i < |es| && es[i] == extra[j];
    }
    MergeAll(out, extra);
    var all := out + Blockified(extra);
    AllDistinct(out, extra);
    assert KeysFrom(es, all);
    DictMeaning(es, all);
    forall i | 0 <= i < |es| ensures KeptIn(es[i], all) <==> CleanChild(lib, fields, es[i], skip) {
      EntryMeaning(lib, fields, es, skip, out, i);
    }
  }

  lemma AllDistinct(out: seq<Entry>, extra: seq<Entry>)
    requires DistinctKeys(out) && TidyKeys(extra) && forall j | 0 <= j < |extra| :: !HasKey(out, extra[j].key)
    ensures DistinctKeys(out + Blockified(extra))
  {
    hide Blockify;
    forall i, j | 0 <= i < |out| && 0 <= j < |extra|
      ensures out[i].key != extra[j].key { NotHere(out, extra[j].key, i); }
    forall i, j | 0 <= i < j < |extra| ensures extra[i].key != extra[j].key {
      assert ComparableKey(extra[i].key) != ComparableKey(extra[j].key);
    }
  }

  lemma TidyKeysOf(es: seq<Entry>)
    requires Tidy(Dict(es))
    ensures TidyKeys(es)
  {
  }

  lemma EntryMeaning(lib: Lib, fields: seq<Field>, es: seq<Entry>, skip: Option<string>, out: seq<Entry>, i: nat)
    requires Tidy(Dict(es)) && FormSaved(lib, fields, es, skip, out) && i < |es|
    ensures var all := out + Blockified(ViewFields(lib, fields, es, skip).extra);
      KeptIn(es[i], all) <==> CleanChild(lib, fields, es[i], skip)
  {
    hide SameMeaning, View, Clean;
    var extra := ViewFields(lib, fields, es, skip).extra;
    var tail := Blockified(extra);
    ExtraAside(lib, fields, es, skip);
    FieldsReach(lib, fields, es, skip, i);
    if InForm(lib, fields, es[i], skip) {
      forall j | 0 <= j < |tail| ensures tail[j].key != es[i].key {
        assert extra[j] in es && !InForm(lib, fields, extra[j], skip);
        var k :| 0 <= k < |es| && es[k] == extra[j];
        assert k != i && ComparableKey(es[k].key) != ComparableKey(es[i].key);
      }
      KeptAppend(es[i], out, tail);
    } else {
      var j :| 0 <= j < |extra| && extra[j] == es[i];
      BlockifyMeans(es[i].value);
      MeansSame(es[i].value, Blockify(es[i].value));
      assert (out + tail)[|out| + j] == tail[j];
    }
  }

  // What a shown mapping looks like.
  lemma MappingShown(lib: Lib, fields: seq<Field>, keepExtra: bool, aliases: map<string, string>, es: seq<Entry>,
                     skip: Option<string>)
    requires ViewMapping(lib, fields, keepExtra, aliases, es, skip).Shown?
    requires !ViewMapping(lib, fields, keepExtra, aliases, es, skip).tidied
    ensures var fv := ViewFields(lib, fields, es, skip);
      && !fv.tidied && (fv.extra != [] ==> keepExtra)
      && ViewMapping(lib, fields, keepExtra, aliases, es, skip).state
         == Dict(fv.shown + if fv.extra == [] then [] else [Entry(KStr(EXTRA), Str(lib.dump(Dict(fv.extra))))])
  {
    hide ViewFields;
    RenameNone(es, aliases, |es|);
    assert es[..|es|] == es;
    var fv := ViewFields(lib, fields, es, skip);
    assert fv.shown + [] == fv.shown;
  }

  lemma NoExtraShown(lib: Lib, fields: seq<Field>, es: seq<Entry>, skip: Option<string>)
    requires Faithful(lib) && Tidy(Dict(es)) && WfFields(fields)
    ensures !HasKey(ViewFields(lib, fields, es, skip).shown, KStr(EXTRA))
  {
    hide Faithful, Tidy, View, Wf;
    var shown := ViewFields(lib, fields, es, skip).shown;
    forall j | 0 <= j < |shown| ensures shown[j].key != KStr(EXTRA) {
      FieldsShown(lib, fields, es, skip, j);
    }
  }

  // The text of the other keys, as the form holds it.
  lemma ExtraText(lib: Lib, fields: seq<Field>, es: seq<Entry>, skip: Option<string>, st: seq<Entry>,
                  target: seq<Entry>)
    requires Faithful(lib) && Tidy(Dict(es)) && WfFields(fields)
    requires var fv := ViewFields(lib, fields, es, skip);
      st == fv.shown + if fv.extra == [] then [] else [Entry(KStr(EXTRA), Str(lib.dump(Dict(fv.extra))))]
    ensures EmitFields(lib, fields, st, skip) == EmitFields(lib, fields, ViewFields(lib, fields, es, skip).shown, skip)
    ensures MergeExtra(lib, target, Get(st, KStr(EXTRA)))
      == MergeEntries(target, ViewFields(lib, fields, es, skip).extra)
  {
    hide EmitFields, ViewFields, InForm, Wf, Tidy;
    var fv := ViewFields(lib, fields, es, skip);
    NoExtraShown(lib, fields, es, skip);
    ExtraAside(lib, fields, es, skip);
    if fv.extra == [] {
      assert st == fv.shown;
    } else {
      var x := Entry(KStr(EXTRA), Str(lib.dump(Dict(fv.extra))));
      FieldOfExtra(fields, x.value, skip);
      EmitFieldsSkips(lib, fields, fv.shown, skip, x);
      GetLast(fv.shown, KStr(EXTRA), x.value);
    }
  }

  // Saving a shown mapping.
  lemma MappingLens(lib: Lib, fields: seq<Field>, keepExtra: bool, aliases: map<string, string>, es: seq<Entry>,
                    skip: Option<string>)
    requires Faithful(lib) && WfFields(fields) && Tidy(Dict(es))
    requires ViewMapping(lib, fields, keepExtra, aliases, es, skip).Shown?
    requires !ViewMapping(lib, fields, keepExtra, aliases, es, skip).tidied
    ensures var s := ViewMapping(lib, fields, keepExtra, aliases, es, skip).state;
      && s.Dict?
      && var r := EmitMapping(lib, fields, keepExtra, s.entries, skip);
         r.Ok? ==>
           DistinctKeys(r.out) && KeysFrom(es, r.out)
           && (SameMeaning(Dict(es), Dict(r.out)) <==> CleanFields(lib, fields, es, skip))
    decreases fields, 1, 0
  {
    hide EmitFields, ViewFields, SameMeaning, Tidy, WfFields, Faithful, CleanFields, FormSaved, ViewMapping, MergeExtra,
      KeysFrom, DistinctKeys;
    MappingShown(lib, fields, keepExtra, aliases, es, skip);
    var st := ViewMapping(lib, fields, keepExtra, aliases, es, skip).state.entries;
    FieldsLens(lib, fields, es, skip);
    var fv := ViewFields(lib, fields, es, skip);
    var inner := EmitFields(lib, fields, fv.shown, skip);
    if inner.Ok? {
      ExtraText(lib, fields, es, skip, st, inner.out);
      MergedMeaning(lib, fields, es, skip, inner.out);
      if fv.extra == [] { assert inner.out + Blockified(fv.extra) == inner.out; }
    } else {
      ExtraText(lib, fields, es, skip, st, []);
    }
  }

  lemma ObjectLens(lib: Lib, f: Field, v: Value, top: bool)
    requires Faithful(lib) && f.kind.KObject? && Wf(f) && Tidy(v)
    requires ViewObject(lib, f, v, top).Shown? && !ViewObject(lib, f, v, top).tidied
    ensures var r := EmitObject(lib, f, ViewObject(lib, f, v, top).state);
      r.Raise? || (Kept(r, v) <==> v.Dict? && CleanFields(lib, f.kind.fields, v.entries, None))
    ensures v.Dict?
    decreases f, 4, 0
  {
    hide SameMeaning, Tidy, Faithful, CleanFields, ViewMapping, EmitMapping, WfFields;
    var es, fields := v.entries, f.kind.fields;
    MappingLens(lib, fields, f.kind.keepExtra, f.kind.aliases, es, None);
    var st := ViewMapping(lib, fields, f.kind.keepExtra, f.kind.aliases, es, None).state.entries;
    var r := EmitMapping(lib, fields, f.kind.keepExtra, st, None);
    if r.Ok? && CleanFields(lib, fields, es, None) {
      SameNotEmpty(Dict(es), Dict(r.out));
      if f.kind.requireKey.Some? {
        RequiredKept(lib, f, es, r.out, f.kind.requireKey.value);
      }
    }
  }

  // Where a shown entry comes from.
  lemma {:induction false} ShownFrom(lib: Lib, fields: seq<Field>, es: seq<Entry>, skip: Option<string>, j: nat)
    returns (i: nat)
    requires Faithful(lib) && Tidy(Dict(es)) && j < |ViewFields(lib, fields, es, skip).shown|
    requires !ViewFields(lib, fields, es, skip).tidied
    ensures i < |es| && es[i].key == ViewFields(lib, fields, es, skip).shown[j].key && !IsEmpty(es[i].value)
  {
    hide View, Faithful, IsEmpty, Tidy;
    var n := |es| - 1;
    TidyEntry(es, n);
    var prev := ViewFields(lib, fields, es[..n], skip).shown;
    if j < |prev| {
      i := ShownFrom(lib, fields, es[..n], skip, j);
    } else {
      i := n;
      ShownNotEmpty(lib, fields[FieldOf(fields, es[n], skip).value], es[n].value, false);
    }
  }

  // A key the view required is saved with a value that is not empty.
  lemma RequiredKept(lib: Lib, f: Field, es: seq<Entry>, out: seq<Entry>, k: string)
    requires Faithful(lib) && f.kind.KObject? && Tidy(Dict(es)) && k != EXTRA
    requires var vm := ViewMapping(lib, f.kind.fields, f.kind.keepExtra, f.kind.aliases, es, None);
      vm.Shown? && !vm.tidied && vm.state.Dict? && HasKey(vm.state.entries, KStr(k))
    requires DistinctKeys(out) && KeysFrom(es, out) && SameMeaning(Dict(es), Dict(out))
    ensures !EmptyAt(out, k)
  {
    hide Faithful, Tidy, ViewFields, SameMeaning, IsEmpty;
    MappingShown(lib, f.kind.fields, f.kind.keepExtra, f.kind.aliases, es, None);
    var shown := ViewFields(lib, f.kind.fields, es, None).shown;
    var st := ViewMapping(lib, f.kind.fields, f.kind.keepExtra, f.kind.aliases, es, None).state.entries;
    var j :| 0 <= j < |st| && st[j].key == KStr(k);
    assert j < |shown|;
    var i := ShownFrom(lib, f.kind.fields, es, None, j);
    TidyKeysOf(es);
    DictSame(es, out, i);
    var m :| 0 <= m < |out| && out[m].key == es[i].key && SameMeaning(es[i].value, out[m].value);
    SameNotEmpty(es[i].value, out[m].value);
    GetIs(out, m);
  }

  // ---- rows

  lemma {:induction false} AddUnknownNone(fields: seq<Field>, row: seq<Entry>, emitted: seq<Entry>)
    requires forall j | 0 <= j < |row| ::
      row[j].key.KStr? && (Models(fields, row[j].key.s) || StartsWith(row[j].key.s, "__"))
    ensures AddUnknown(fields, row, emitted) == emitted
  {
    hide FieldIndex, HasKey, IsEmpty;
    if row != [] {
      AddUnknownNone(fields, row[..|row| - 1], emitted);
    }
  }

  // A row as the form shows it: the mapping's state, under its name when it has one.
  ghost predicate ShownRow(lib: Lib, f: Field, es: seq<Entry>, skip: Option<string>, row: seq<Entry>)
    requires f.kind.KRows?
  {
    && ViewRow(lib, f, es, skip).Shown? && !ViewRow(lib, f, es, skip).tidied
    && var s := ViewRow(lib, f, es, skip).state;
       && s.Dict?
       && match skip
          case None => row == s.entries
          case Some(k) =>
            && k == f.kind.keyField && Models(f.kind.itemFields, k) && |row| > 0 && row[0].key == KStr(k)
            && !IsEmpty(row[0].value) && row == [row[0]] + s.entries
  }

  // Every key of a shown row is modelled, the row's own, or reserved; what a sub-field shows is not empty.
  lemma RowEntry(lib: Lib, f: Field, es: seq<Entry>, skip: Option<string>, row: seq<Entry>, j: nat)
    requires Faithful(lib) && f.kind.KRows? && Tidy(Dict(es)) && ShownRow(lib, f, es, skip, row) && j < |row|
    ensures row[j].key.KStr?
      && (row[j].key.s == EXTRA || (Models(f.kind.itemFields, row[j].key.s) && !IsEmpty(row[j].value)))
  {
    hide Faithful, Tidy, ViewFields, IsEmpty;
    MappingShown(lib, f.kind.itemFields, f.kind.keepExtra, f.kind.aliases, es, skip);
    var shown := ViewFields(lib, f.kind.itemFields, es, skip).shown;
    var k := if skip.Some? then j - 1 else j;
    if 0 <= k < |shown| {
      FieldsShown(lib, f.kind.itemFields, es, skip, k);
    }
  }

  lemma RowNotSkipped(lib: Lib, f: Field, es: seq<Entry>, skip: Option<string>, row: seq<Entry>)
    requires Faithful(lib) && f.kind.KRows? && Wf(f) && Tidy(Dict(es)) && ShownRow(lib, f, es, skip, row)
    ensures !CheckRow(lib, f, row).RowSkip?
  {
    hide Faithful, Tidy, ViewMapping, IsEmpty, Wf;
    forall i | 0 <= i < |f.kind.itemFields| && f.kind.itemFields[i].required
      ensures !EmptyAt(row, f.kind.itemFields[i].key)
    {
      var k := f.kind.itemFields[i].key;
      RowHasRequired(lib, f, es, skip, row, i);
      var v := Get(row, KStr(k)).value;
      var j :| 0 <= j < |row| && row[j] == Entry(KStr(k), v);
      RowEntry(lib, f, es, skip, row, j);
      WfKey(f, i);
    }
  }

  lemma WfKey(f: Field, i: nat)
    requires f.kind.KRows? && Wf(f) && i < |f.kind.itemFields|
    ensures f.kind.itemFields[i].key != EXTRA
  {
  }

  lemma RowHasRequired(lib: Lib, f: Field, es: seq<Entry>, skip: Option<string>, row: seq<Entry>, i: nat)
    requires f.kind.KRows? && ShownRow(lib, f, es, skip, row) && i < |f.kind.itemFields|
      && f.kind.itemFields[i].required
    ensures HasKey(row, KStr(f.kind.itemFields[i].key))
  {
    hide ViewMapping, IsEmpty;
    var k := KStr(f.kind.itemFields[i].key);
    if skip == Some(f.kind.itemFields[i].key) {
      KeyAt(row, 0);
    } else {
      var s := ViewRow(lib, f, es, skip).state.entries;
      assert HasKey(s, k);
      var j :| 0 <= j < |s| && s[j].key == k;
      KeyAt(row, if skip.Some? then j + 1 else j);
    }
  }

  // Saving a shown row saves the mapping it shows.
  lemma RowLens(lib: Lib, f: Field, es: seq<Entry>, skip: Option<string>, row: seq<Entry>)
    requires Faithful(lib) && f.kind.KRows? && Wf(f) && Tidy(Dict(es)) && ShownRow(lib, f, es, skip, row)
    ensures var r := EmitRow(lib, f, row, skip);
      r.Ok? ==> (SameMeaning(Dict(es), Dict(r.out)) <==> CleanFields(lib, f.kind.itemFields, es, skip))
    decreases f, 0, 0
  {
    hide SameMeaning, Tidy, Faithful, CleanFields, ViewMapping, EmitFields, WfFields, IsEmpty, MergeExtra, KeysFrom,
      DistinctKeys;
    var fields := f.kind.itemFields;
    MappingLens(lib, fields, f.kind.keepExtra, f.kind.aliases, es, skip);
    var st := ViewMapping(lib, fields, f.kind.keepExtra, f.kind.aliases, es, skip).state.entries;
    if skip.Some? {
      EmitFieldsAfter(lib, fields, row[0], st, skip);
      GetAfter(row[0], st, KStr(EXTRA));
    }
    var emitted := EmitFields(lib, fields, row, skip);
    if emitted.Ok? {
      forall j | 0 <= j < |row|
        ensures row[j].key.KStr? && (Models(fields, row[j].key.s) || StartsWith(row[j].key.s, "__"))
      {
        RowEntry(lib, f, es, skip, row, j);
      }
      AddUnknownNone(fields, row, emitted.out);
    }
  }

  lemma ListRowLens(lib: Lib, f: Field, v: Value)
    requires Faithful(lib) && f.kind.KRows? && Wf(f) && Tidy(v)
    requires ViewListRow(lib, f, v).Shown? && !ViewListRow(lib, f, v).tidied
    ensures var r := EmitListRow(lib, f, ViewListRow(lib, f, v).state);
      r.Raise? || (Kept(r, v) <==> CleanListRow(lib, f, v))
    decreases f, 1, 0
  {
    hide SameMeaning, Tidy, Faithful, CleanFields, ViewMapping, EmitRow, CheckRow, Wf, Shield, Unshield, PaddedToken;
    if v.Dict? {
      var row := ViewListRow(lib, f, v).state.entries;
      RowNotSkipped(lib, f, v.entries, None, row);
      RowLens(lib, f, v.entries, None, row);
      var r := EmitRow(lib, f, row, None);
      if r == Ok([]) && SameMeaning(v, Dict([])) {
        SameNotEmpty(v, Dict([]));
      }
    } else {
      StrKept(v.s);
    }
  }

  lemma TidyItem(items: seq<Value>, n: nat)
    requires Tidy(List(items)) && n < |items|
    ensures Tidy(List(items[..n])) && Tidy(items[n])
  {
  }

  lemma CleanRowsSnoc(lib: Lib, f: Field, items: seq<Value>)
    requires f.kind.KRows?
    ensures if items == [] then CleanListRows(lib, f, items) else
      var n := |items| - 1;
        CleanListRows(lib, f, items) <==> CleanListRows(lib, f, items[..n]) && CleanListRow(lib, f, items[n])
  {
    hide CleanListRow;
  }

  lemma NoRows(lib: Lib, f: Field)
    requires f.kind.KRows?
    ensures ViewListRows(lib, f, []).state == List([]) && EmitListRows(lib, f, []) == Ok([])
  {
  }

  lemma RowsSnoc(lib: Lib, f: Field, items: seq<Value>, n: nat)
    requires f.kind.KRows? && n + 1 == |items| && ViewListRows(lib, f, items).Shown?
      && !ViewListRows(lib, f, items).tidied
    ensures var prev, row := ViewListRows(lib, f, items[..n]), ViewListRow(lib, f, items[n]);
      && prev.Shown? && !prev.tidied && prev.state.List? && row.Shown? && !row.tidied
      && ViewListRows(lib, f, items).state == List(prev.state.items + [row.state])
      && EmitListRows(lib, f, prev.state.items + [row.state])
           == AddEmitted(EmitListRows(lib, f, prev.state.items), EmitListRow(lib, f, row.state))
  {
    hide ViewListRow, EmitListRow;
    var shown, row := ViewListRows(lib, f, items[..n]).state, ViewListRow(lib, f, items[n]).state;
    if shown.List? {
      assert (shown.items + [row])[..|shown.items|] == shown.items;
    }
  }

  lemma {:induction false} ListRowsLens(lib: Lib, f: Field, items: seq<Value>)
    requires Faithful(lib) && f.kind.KRows? && Wf(f) && Tidy(List(items))
    requires ViewListRows(lib, f, items).Shown? && !ViewListRows(lib, f, items).tidied
    ensures var s := ViewListRows(lib, f, items).state;
      && s.List?
      && var r := EmitListRows(lib, f, s.items);
         r.Ok? ==> |r.out| <= |items| && (SameMeaning(List(items), List(r.out)) <==> CleanListRows(lib, f, items))
    decreases f, 2, |items|
  {
    hide SameMeaning, Faithful, CleanListRow, ViewListRow, EmitListRow, Wf, Tidy, CleanListRows, ViewListRows,
      EmitListRows;
    CleanRowsSnoc(lib, f, items);
    if items == [] {
      ListMeaning([], []);
      NoRows(lib, f);
    } else {
      var n := |items| - 1;
      TidyItem(items, n);
      RowsSnoc(lib, f, items, n);
      ListRowsLens(lib, f, items[..n]);
      ListRowLens(lib, f, items[n]);
      var shown, row := ViewListRows(lib, f, items[..n]).state.items, ViewListRow(lib, f, items[n]).state;
      var r := EmitListRows(lib, f, shown);
      if r.Ok? && !EmitListRow(lib, f, row).Raise? {
        AddedMeaning(items, n, r.out, EmitListRow(lib, f, row), CleanListRows(lib, f, items[..n]),
          CleanListRow(lib, f, items[n]));
      }
    }
  }

  // ---- rows saved under a name

  // The outcome of saving one named row: an error, or its trimmed name with a value kept iff it is clean.
  ghost predicate NamedOutcome(lib: Lib, f: Field, e: Entry, o: RowOut)
    requires f.kind.KRows?
  {
    match o
    case RowBad => true
    case RowNone => !CleanPayload(lib, f, e.value)
    case RowBlank(name) => e.key.KStr? && name == Strip(e.key.s) && !CleanPayload(lib, f, e.value)
    case RowPair(name, w) =>
      e.key.KStr? && name == Strip(e.key.s) && name != ""
        && (SameMeaning(e.value, w) <==> CleanPayload(lib, f, e.value))
  }

  lemma NameCell(lib: Lib, k: string, name: string, rest: seq<Entry>)
    requires !Blank(name)
    ensures NameOf(lib, [Entry(KStr(k), Str(name))] + rest, k) == Strip(name) && Strip(name) != ""
  {
    StripBlank(name);
    assert name != "";
  }

  lemma TextRowCells(lib: Lib, k: string, name: string, text: string)
    requires !Blank(name) && k != "value"
    ensures var row := [Entry(KStr(k), Str(name)), Entry(KStr("value"), Str(text))];
      && NameOf(lib, row, k) == Strip(name) && Strip(name) != ""
      && Get(row, KStr("value")) == Some(Str(text))
  {
    var row := [Entry(KStr(k), Str(name)), Entry(KStr("value"), Str(text))];
    assert row == [row[0]] + [row[1]] && row[1..] == [row[1]];
    NameCell(lib, k, name, [row[1]]);
  }

  lemma NamedRowLens(lib: Lib, f: Field, e: Entry)
    requires Faithful(lib) && f.kind.KRows? && Wf(f) && Tidy(e.value) && !f.kind.shape.AsList?
    requires ViewNamedRow(lib, f, e).Shown? && !ViewNamedRow(lib, f, e).tidied
    ensures e.key.KStr?
    ensures var row := ViewNamedRow(lib, f, e).state;
      NamedOutcome(lib, f, e, if f.kind.shape.AsListOrMap? then EmitTextRow(lib, f, row) else EmitNamedRow(lib, f, row))
    decreases f, 1, 0
  {
    if f.kind.shape.AsMapping? {
      MappedRowLens(lib, f, e);
    } else {
      TextRowLens(lib, f, e);
    }
  }

  lemma MappedRowLens(lib: Lib, f: Field, e: Entry)
    requires Faithful(lib) && f.kind.KRows? && Wf(f) && Tidy(e.value) && f.kind.shape.AsMapping?
    requires ViewNamedRow(lib, f, e).Shown? && !ViewNamedRow(lib, f, e).tidied
    ensures e.key.KStr? && NamedOutcome(lib, f, e, EmitNamedRow(lib, f, ViewNamedRow(lib, f, e).state))
    decreases f, 0, 1
  {
    hide SameMeaning, Tidy, Faithful, CleanFields, ViewMapping, EmitRow, CheckRow, WfFields, Blank;
    var row := ViewNamedRow(lib, f, e).state.entries;
    var k := f.kind.keyField;
    NameCell(lib, k, e.key.s, row[1..]);
    assert row == [row[0]] + row[1..];
    RowNotSkipped(lib, f, e.value.entries, Some(k), row);
    RowLens(lib, f, e.value.entries, Some(k), row);
  }

  lemma TextRowLens(lib: Lib, f: Field, e: Entry)
    requires f.kind.KRows? && Wf(f) && (f.kind.shape.AsMappingScalar? || f.kind.shape.AsListOrMap?)
    requires ViewNamedRow(lib, f, e).Shown?
    ensures e.key.KStr?
    ensures var row := ViewNamedRow(lib, f, e).state;
      NamedOutcome(lib, f, e, if f.kind.shape.AsListOrMap? then EmitTextRow(lib, f, row) else EmitNamedRow(lib, f, row))
  {
    hide SameMeaning, Shield, Unshield, PaddedToken, WfFields, Blank, NameOf, Get;
    var s := e.value.s;
    TextRowCells(lib, f.kind.keyField, e.key.s, Unshield(s));
    StrKept(s);
    UnshieldBlank(s);
  }

  // Named entries saved in order: every name trimmed; when the names were trimmed before, each entry is kept iff clean.
  ghost predicate NamedSaved(lib: Lib, f: Field, es: seq<Entry>, out: seq<Entry>)
    requires f.kind.KRows?
  {
    && (forall i | 0 <= i < |es| :: es[i].key.KStr?)
    && (forall j | 0 <= j < |out| :: out[j].key.KStr? && Trimmed(out[j].key.s))
    && DistinctKeys(out)
    && (NamesTrimmed(es) ==>
          KeysFrom(es, out) && forall i | 0 <= i < |es| :: KeptIn(es[i], out) <==> CleanPayload(lib, f, es[i].value))
  }

  predicate NamesTrimmed(es: seq<Entry>) {
    forall i | 0 <= i < |es| && es[i].key.KStr? :: Trimmed(es[i].key.s)
  }

  // Saving one more named entry.
  function AddOutcome(out: seq<Entry>, o: RowOut): Built<seq<Entry>> {
    match o
    case RowBad => Bad
    case RowNone => Ok(out)
    case RowBlank(name) => if HasKey(out, KStr(name)) then Bad else Ok(out)
    case RowPair(name, w) => AddPair(out, name, w)
  }

  lemma NamedSnoc(lib: Lib, f: Field, es: seq<Entry>, n: nat, out: seq<Entry>, o: RowOut)
    requires f.kind.KRows? && TidyKeys(es) && n + 1 == |es| && es[n].key.KStr?
    requires NamedSaved(lib, f, es[..n], out) && NamedOutcome(lib, f, es[n], o) && AddOutcome(out, o).Ok?
    ensures NamedSaved(lib, f, es, AddOutcome(out, o).out)
  {
    hide SameMeaning, KeptIn, HasKey, CleanPayload, Trimmed, Strip, TidyKeys, KeysFrom;
    var before := es[..n];
    assert forall i | 0 <= i < n :: before[i] == es[i];
    if o.RowPair? {
      StripTrims(es[n].key.s);
      forall j | 0 <= j < |out| ensures out[j].key != KStr(o.name) { NotHere(out, KStr(o.name), j); }
    }
    if NamesTrimmed(es) {
      StripTrims(es[n].key.s);
      NamedSnocTrimmed(lib, f, es, n, out, if o.RowPair? then Some(o.value) else None);
    }
  }

  lemma NamedSnocTrimmed(lib: Lib, f: Field, es: seq<Entry>, n: nat, out: seq<Entry>, w: Option<Value>)
    requires f.kind.KRows? && TidyKeys(es) && n + 1 == |es| && KeysFrom(es[..n], out)
    requires forall i | 0 <= i < n :: KeptIn(es[i], out) <==> CleanPayload(lib, f, es[i].value)
    requires CleanPayload(lib, f, es[n].value) <==> w.Some? && SameMeaning(es[n].value, w.value)
    ensures var all := if w.Some? then out + [Entry(es[n].key, w.value)] else out;
      KeysFrom(es, all) && forall i | 0 <= i <= n :: KeptIn(es[i], all) <==> CleanPayload(lib, f, es[i].value)
  {
    hide SameMeaning, KeptIn, HasKey, CleanPayload;
    var x := Entry(es[n].key, if w.Some? then w.value else Null);
    var all := if w.Some? then out + [x] else out;
    NamedKeys(es, n, out);
    KeptHere(es[n], out, x.value);
    forall i | 0 <= i < n ensures KeptIn(es[i], all) <==> KeptIn(es[i], out) { KeptElsewhere(es[i], out, x); }
    forall j | 0 <= j < |all| ensures HasKey(es, all[j].key) {
      if j < |out| { KeyInPrefix(es, n, out[j].key); } else { KeyAt(es, n); }
    }
  }

  lemma NamedKeys(es: seq<Entry>, n: nat, out: seq<Entry>)
    requires TidyKeys(es) && n < |es| && KeysFrom(es[..n], out)
    ensures !HasKey(out, es[n].key)
    ensures forall i | 0 <= i < n :: es[i].key != es[n].key
  {
    PrefixKeys(es, n, out);
  }

  // A padded name is lost: every saved name is trimmed.
  lemma PaddedNameLost(es: seq<Entry>, out: seq<Entry>, i: nat)
    requires i < |es| && es[i].key.KStr? && !Trimmed(es[i].key.s)
    requires forall j | 0 <= j < |out| :: out[j].key.KStr? && Trimmed(out[j].key.s)
    ensures !SameMeaning(Dict(es), Dict(out))
  {
    hide ComparableText, Trimmed;
    var c, d := Comparable(Dict(es)).entries, Comparable(Dict(out)).entries;
    ComparableTrimmed(es[i].key.s);
    forall j | 0 <= j < |d| ensures d[j].key != c[i].key {
      ComparableTrimmed(out[j].key.s);
    }
    NoKey(d, c[i].key);
    assert Comparable(Dict(es)) == Dict(c) && Comparable(Dict(out)) == Dict(d);
  }

  lemma NamedMeaning(lib: Lib, f: Field, es: seq<Entry>, out: seq<Entry>)
    requires f.kind.KRows? && TidyKeys(es) && NamedSaved(lib, f, es, out)
    ensures SameMeaning(Dict(es), Dict(out)) <==> CleanNamedRows(lib, f, es)
  {
    hide SameMeaning, KeptIn, CleanPayload, Trimmed;
    if NamesTrimmed(es) {
      DictMeaning(es, out);
      assert forall i | 0 <= i < |es| :: CleanNamed(lib, f, es[i]) <==> CleanPayload(lib, f, es[i].value);
    } else {
      var i :| 0 <= i < |es| && es[i].key.KStr? && !Trimmed(es[i].key.s);
      PaddedNameLost(es, out, i);
      assert !CleanNamed(lib, f, es[i]);
    }
  }

  lemma NamedRowsSnoc(lib: Lib, f: Field, es: seq<Entry>, n: nat)
    requires f.kind.KRows? && n + 1 == |es| && ViewNamedRows(lib, f, es).Shown? && !ViewNamedRows(lib, f, es).tidied
    ensures var prev, row := ViewNamedRows(lib, f, es[..n]), ViewNamedRow(lib, f, es[n]);
      && prev.Shown? && !prev.tidied && prev.state.List? && row.Shown? && !row.tidied
      && ViewNamedRows(lib, f, es).state == List(prev.state.items + [row.state])
  {
    hide ViewNamedRow;
  }

  lemma MappedSnoc(lib: Lib, f: Field, shown: seq<Value>, row: Value)
    requires f.kind.KRows?
    ensures var r := EmitMappedRows(lib, f, shown);
      EmitMappedRows(lib, f, shown + [row]) == if r.Bad? then Bad else AddOutcome(r.out, EmitNamedRow(lib, f, row))
  {
    hide EmitNamedRow, AddPair;
    assert (shown + [row])[..|shown|] == shown;
  }

  lemma {:induction false} MappedRowsLens(lib: Lib, f: Field, es: seq<Entry>)
    requires Faithful(lib) && f.kind.KRows? && Wf(f) && Tidy(Dict(es))
    requires f.kind.shape.AsMapping? || f.kind.shape.AsMappingScalar?
    requires ViewNamedRows(lib, f, es).Shown? && !ViewNamedRows(lib, f, es).tidied
    ensures var s := ViewNamedRows(lib, f, es).state;
      s.List? && var r := EmitMappedRows(lib, f, s.items); r.Ok? ==> NamedSaved(lib, f, es, r.out)
    decreases f, 2, |es|
  {
    hide NamedOutcome, Faithful, ViewNamedRow, EmitNamedRow, Wf, NamedSaved, Tidy, AddPair;
    if es == [] {
      NamedSavedNone(lib, f);
    } else {
      hide ViewNamedRows, EmitMappedRows;
      var n := |es| - 1;
      TidyEntry(es, n);
      NamedRowsSnoc(lib, f, es, n);
      MappedRowsLens(lib, f, es[..n]);
      NamedRowLens(lib, f, es[n]);
      var shown, row := ViewNamedRows(lib, f, es[..n]).state.items, ViewNamedRow(lib, f, es[n]).state;
      MappedSnoc(lib, f, shown, row);
      var r, o := EmitMappedRows(lib, f, shown), EmitNamedRow(lib, f, row);
      if r.Ok? && AddOutcome(r.out, o).Ok? {
        NamedSnoc(lib, f, es, n, r.out, o);
      }
    }
  }

  lemma NamedSavedNone(lib: Lib, f: Field)
    requires f.kind.KRows?
    ensures NamedSaved(lib, f, [], [])
  {
  }

  // Named texts: a mapping whose every entry has a name.
  lemma TextsSnoc(lib: Lib, f: Field, shown: seq<Value>, row: Value)
    requires f.kind.KRows? && NamedTexts(lib, f, shown).Ok?
    ensures var p, o := NamedTexts(lib, f, shown).out, EmitTextRow(lib, f, row);
      && NamedTexts(lib, f, shown + [row])
           == (match o case RowBad => Bad case RowPair(name, w) => Ok(p + [(name, w)]) case _ => Ok(p))
      && (PairsAsDict(p).Ok? && o.RowPair? ==>
        PairsAsDict(p + [(o.name, o.value)]) == AddOutcome(PairsAsDict(p).out, o))
      && (PairsAsDict(p).Bad? && o.RowPair? ==> PairsAsDict(p + [(o.name, o.value)]).Bad?)
  {
    hide EmitTextRow;
    assert (shown + [row])[..|shown|] == shown;
    var p, o := NamedTexts(lib, f, shown).out, EmitTextRow(lib, f, row);
    if o.RowPair? {
      assert (p + [(o.name, o.value)])[..|p|] == p;
    }
  }

  lemma {:induction false} TextRowsLens(lib: Lib, f: Field, es: seq<Entry>)
    requires Faithful(lib) && f.kind.KRows? && Wf(f) && Tidy(Dict(es)) && f.kind.shape.AsListOrMap?
    requires ViewNamedRows(lib, f, es).Shown? && !ViewNamedRows(lib, f, es).tidied
    ensures var s := ViewNamedRows(lib, f, es).state;
      && s.List?
      && var p := NamedTexts(lib, f, s.items);
         p.Ok? ==> AllNamed(p.out) && (PairsAsDict(p.out).Ok? ==> NamedSaved(lib, f, es, PairsAsDict(p.out).out))
    decreases f, 2, |es|
  {
    hide Faithful, ViewNamedRow, EmitTextRow, Wf, NamedSaved, Tidy, AddPair, SameMeaning, CleanPayload, Strip;
    if es == [] {
      NamedSavedNone(lib, f);
    } else {
      hide ViewNamedRows, NamedTexts, PairsAsDict;
      var n := |es| - 1;
      TidyEntry(es, n);
      NamedRowsSnoc(lib, f, es, n);
      TextRowsLens(lib, f, es[..n]);
      NamedRowLens(lib, f, es[n]);
      var shown, row := ViewNamedRows(lib, f, es[..n]).state.items, ViewNamedRow(lib, f, es[n]).state;
      TextsMonotone(lib, f, shown, row);
      var p, o := NamedTexts(lib, f, shown), EmitTextRow(lib, f, row);
      if p.Ok? && !o.RowBad? {
        TextsSnoc(lib, f, shown, row);
        if PairsAsDict(p.out).Ok? && AddOutcome(PairsAsDict(p.out).out, o).Ok? {
          NamedSnoc(lib, f, es, n, PairsAsDict(p.out).out, o);
        }
      }
    }
  }

  lemma TextsMonotone(lib: Lib, f: Field, shown: seq<Value>, row: Value)
    requires f.kind.KRows?
    ensures NamedTexts(lib, f, shown + [row]).Ok? ==> NamedTexts(lib, f, shown).Ok? && !EmitTextRow(lib, f, row).RowBad?
  {
    hide EmitTextRow;
    assert (shown + [row])[..|shown|] == shown;
  }

  function Seconds(pairs: seq<(string, Value)>): seq<Value> {
    seq(|pairs|, i requires 0 <= i < |pairs| => pairs[i].1)
  }

  // A plain list of texts stays a list.
  lemma {:induction false} ValueRowsLens(lib: Lib, f: Field, items: seq<Value>)
    requires f.kind.KRows? && f.kind.keyField != "value" && f.kind.shape.AsListOrMap?
    requires ViewValueRows(items).Shown?
    ensures var s := ViewValueRows(items).state;
      && s.List?
      && var p := NamedTexts(lib, f, s.items);
         p.Ok? ==> NoneNamed(p.out) && |p.out| == |items|
                   && (SameMeaning(List(items), List(Seconds(p.out))) <==> CleanItems(items))
  {
    hide SameMeaning, ViewValueRow, EmitTextRow, CleanItem, CleanItems;
    CleanItemsSnoc(items);
    if items == [] {
      ListMeaning([], []);
      assert Seconds([]) == [];
    } else {
      var n := |items| - 1;
      ValueRowsLens(lib, f, items[..n]);
      ValueRowLens(lib, f, items[n]);
      var shown, row := ViewValueRows(items[..n]).state.items, ViewValueRow(items[n]).state;
      assert (shown + [row])[..|shown|] == shown;
      var p, o := NamedTexts(lib, f, shown), EmitTextRow(lib, f, row);
      if p.Ok? && o.RowPair? {
        assert Seconds(p.out + [("", o.value)]) == Seconds(p.out) + [o.value];
        AddedMeaning(items, n, Seconds(p.out), Val(o.value), CleanItems(items[..n]), CleanItem(items[n]));
      }
    }
  }

  lemma CleanItemsSnoc(items: seq<Value>)
    ensures if items == [] then CleanItems(items) else
      var n := |items| - 1; CleanItems(items) <==> CleanItems(items[..n]) && CleanItem(items[n])
  {
    hide CleanItem;
  }

  lemma ValueRowLens(lib: Lib, f: Field, v: Value)
    requires f.kind.KRows? && f.kind.keyField != "value" && f.kind.shape.AsListOrMap? && ViewValueRow(v).Shown?
    ensures var o := EmitTextRow(lib, f, ViewValueRow(v).state);
      o.RowBad? || (o.RowPair? && o.name == "" && (SameMeaning(v, o.value) <==> CleanItem(v)))
  {
    hide SameMeaning, Shield, Unshield, PaddedToken, Blank, NameOf, Get;
    StrKept(v.s);
    ValueRowCells(lib, f.kind.keyField, Unshield(v.s));
  }

  lemma ValueRowCells(lib: Lib, k: string, text: string)
    requires k != "value"
    ensures var row := [Entry(KStr("value"), Str(text))];
      NameOf(lib, row, k) == "" && Get(row, KStr("value")) == Some(Str(text))
  {
    var row := [Entry(KStr("value"), Str(text))];
    assert row[1..] == [];
  }

  lemma RowsLens(lib: Lib, f: Field, v: Value, top: bool)
    requires Faithful(lib) && f.kind.KRows? && Wf(f) && Tidy(v)
    requires ViewRows(lib, f, v, top).Shown? && !ViewRows(lib, f, v, top).tidied
    ensures var r := EmitRows(lib, f, ViewRows(lib, f, v, top).state); r.Raise? || (Kept(r, v) <==> Clean(lib, f, v))
    decreases f, 4, 0
  {
    hide SameMeaning, Faithful, CleanListRows, CleanNamedRows, ViewListRows, ViewNamedRows, ViewValueRows, EmitListRows,
      EmitMappedRows, NamedTexts, PairsAsDict, CleanItems, Tidy, NamedSaved, UsersAsList, WfFields;
    match v
    case List(items) =>
      if f.kind.shape.AsListOrMap? {
        ValueRowsLens(lib, f, items);
        var p := NamedTexts(lib, f, ViewValueRows(items).state.items);
        if p.Ok? { EmitListOfTexts(p.out); }
      } else {
        ListRowsLens(lib, f, items);
        var r := EmitListRows(lib, f, ViewListRows(lib, f, items).state.items);
        if r.Ok? { SameLength(items, r.out); }
      }
    case Dict(es) =>
      TidyKeysOf(es);
      if f.kind.shape.AsListOrMap? {
        TextRowsLens(lib, f, es);
        var p := NamedTexts(lib, f, ViewNamedRows(lib, f, es).state.items);
        if p.Ok? && PairsAsDict(p.out).Ok? {
          NamedMeaning(lib, f, es, PairsAsDict(p.out).out);
          EmptyIsLost(es, PairsAsDict(p.out).out);
        }
        NoPairs();
      } else {
        MappedRowsLens(lib, f, es);
        var r := EmitMappedRows(lib, f, ViewNamedRows(lib, f, es).state.items);
        if r.Ok? {
          NamedMeaning(lib, f, es, r.out);
          EmptyIsLost(es, r.out);
        }
      }
    case _ =>
  }

  lemma EmitListOfTexts(pairs: seq<(string, Value)>)
    requires NoneNamed(pairs) && pairs != []
    ensures EmitNamed(pairs) == Val(List(Seconds(pairs)))
  {
    assert pairs[0].0 == "";
  }

  lemma NoPairs()
    ensures PairsAsDict([]) == Ok([])
  {
  }

  lemma EmptyIsLost(es: seq<Entry>, out: seq<Entry>)
    requires es != []
    ensures out == [] ==> !SameMeaning(Dict(es), Dict(out))
  {
    if SameMeaning(Dict(es), Dict(out)) {
      SameNotEmpty(Dict(es), Dict(out));
    }
  }

  // ---- the law

  // For every schema and value: when the view shows the value without announcing a normalisation, saving what it
  // shows raises an error or gives a value of the same meaning, exactly when the value is clean.
  lemma Lens(lib: Lib, f: Field, v: Value, top: bool)
    requires Faithful(lib) && Wf(f) && Tidy(v)
    requires View(lib, f, v, top).Shown? && !View(lib, f, v, top).tidied
    ensures var r := Emit(lib, f, View(lib, f, v, top).state); r.Raise? || (Kept(r, v) <==> Clean(lib, f, v))
    decreases f, 5, 0
  {
    hide SameMeaning, Faithful, Tidy, Wf, CleanLeaf, CleanFields, ViewObject, EmitObject, ViewRows, EmitRows;
    if f.kind.KObject? {
      ObjectLens(lib, f, v, top);
    } else if f.kind.KRows? {
      RowsLens(lib, f, v, top);
    } else {
      LeafLens(lib, f, v, top);
    }
  }
}
