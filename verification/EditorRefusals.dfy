// When saving what the form shows is refused: a shown password row without its name or password, and nothing else.

module EditorRefusals {
  import opened Text
  import opened Tokens
  import opened Values
  import opened EditorForm
  import opened EditorScalars
  import opened EditorLens

  // ---- refused values

  // A shown row that breaks the password-row rule: no name, or no password although none is to be generated.
  predicate RefusedRow(lib: Lib, f: Field, row: Viewed)
    requires f.kind.KRows?
  {
    row.Shown? && row.state.Dict? && CheckRow(lib, f, row.state.entries).RowError?
  }

  predicate RefusedChild(lib: Lib, fields: seq<Field>, e: Entry, skip: Option<string>)
    decreases fields, 0
  {
    match FieldOf(fields, e, skip)
    case None => false
    case Some(i) => View(lib, fields[i], e.value, false).Shown? && Refused(lib, fields[i], e.value)
  }

  predicate RefusedFields(lib: Lib, fields: seq<Field>, es: seq<Entry>, skip: Option<string>)
    decreases fields, 1
  {
    exists i | 0 <= i < |es| :: RefusedChild(lib, fields, es[i], skip)
  }

  predicate RefusedListRow(lib: Lib, f: Field, v: Value)
    requires f.kind.KRows?
    decreases f, 0
  {
    v.Dict? && (RefusedRow(lib, f, ViewListRow(lib, f, v)) || RefusedFields(lib, f.kind.itemFields, v.entries, None))
  }

  predicate RefusedNamed(lib: Lib, f: Field, e: Entry)
    requires f.kind.KRows?
    decreases f, 0
  {
    || RefusedRow(lib, f, ViewNamedRow(lib, f, e))
    || (f.kind.shape.AsMapping? && e.value.Dict?
      && RefusedFields(lib, f.kind.itemFields, e.value.entries, Some(f.kind.keyField)))
  }

  predicate RefusedListRows(lib: Lib, f: Field, items: seq<Value>)
    requires f.kind.KRows?
    decreases f, 1
  {
    exists i | 0 <= i < |items| :: RefusedListRow(lib, f, items[i])
  }

  predicate RefusedNamedRows(lib: Lib, f: Field, es: seq<Entry>)
    requires f.kind.KRows?
    decreases f, 1
  {
    exists i | 0 <= i < |es| :: RefusedNamed(lib, f, es[i])
  }

  predicate RefusedValueRows(lib: Lib, f: Field, items: seq<Value>)
    requires f.kind.KRows?
  {
    exists i | 0 <= i < |items| :: RefusedRow(lib, f, ViewValueRow(items[i]))
  }

  // Somewhere in the value a shown row breaks the rule.
  predicate Refused(lib: Lib, f: Field, v: Value)
    decreases f, 2
  {
    if f.kind.KObject? then v.Dict? && RefusedFields(lib, f.kind.fields, v.entries, None)
    else if f.kind.KRows? then
      match v
      case List(items) => if f.kind.shape.AsListOrMap? then RefusedValueRows(lib, f, items)
        else RefusedListRows(lib, f, items)
      case Dict(es) => RefusedNamedRows(lib, f, es)
      case _ => false
    else false
  }

  // ---- objects

  lemma CleanFieldsSnoc(lib: Lib, fields: seq<Field>, es: seq<Entry>, skip: Option<string>)
    requires es != []
    ensures var n := |es| - 1;
      CleanFields(lib, fields, es, skip) <==>
        CleanFields(lib, fields, es[..n], skip) && CleanChild(lib, fields, es[n], skip)
  {
    hide CleanChild;
  }

  lemma RefusedFieldsSnoc(lib: Lib, fields: seq<Field>, es: seq<Entry>, skip: Option<string>)
    requires es != []
    ensures var n := |es| - 1;
      RefusedFields(lib, fields, es, skip) <==>
        RefusedFields(lib, fields, es[..n], skip) || RefusedChild(lib, fields, es[n], skip)
  {
    hide RefusedChild;
    var n := |es| - 1;
    if i :| 0 <= i < n && RefusedChild(lib, fields, es[..n][i], skip) { assert es[i] == es[..n][i]; }
    if i :| 0 <= i <= n && RefusedChild(lib, fields, es[i], skip) {
      if i < n { assert es[..n][i] == es[i]; }
    }
  }

  lemma {:induction false} FieldsRefusal(lib: Lib, fields: seq<Field>, es: seq<Entry>, skip: Option<string>)
    requires Faithful(lib) && WfFields(fields) && Tidy(Dict(es)) && !ViewFields(lib, fields, es, skip).tidied
    ensures var r := EmitFields(lib, fields, ViewFields(lib, fields, es, skip).shown, skip);
      && (RefusedFields(lib, fields, es, skip) ==> r.Bad?)
      && (CleanFields(lib, fields, es, skip) && !RefusedFields(lib, fields, es, skip) ==> r.Ok?)
    decreases fields, 0, |es|
  {
    hide View, Emit, Clean, Faithful, Wf, Tidy, Refused;
    if es != [] {
      hide CleanFields, RefusedFields;
      var n := |es| - 1;
      var before, e := es[..n], es[n];
      TidyEntry(es, n);
      CleanFieldsSnoc(lib, fields, es, skip);
      RefusedFieldsSnoc(lib, fields, es, skip);
      FieldsRefusal(lib, fields, before, skip);
      var prev, fv := ViewFields(lib, fields, before, skip), ViewFields(lib, fields, es, skip);
      var i := FieldOf(fields, e, skip);
      if i.Some? && View(lib, fields[i.value], e.value, false).Shown? {
        assert fv.shown[..|fv.shown| - 1] == prev.shown;
        Refusal(lib, fields[i.value], e.value, false);
      }
    }
  }

  // The other keys never stand in the way of a save.
  lemma MappingSaved(lib: Lib, fields: seq<Field>, keepExtra: bool, aliases: map<string, string>, es: seq<Entry>,
                     skip: Option<string>)
    requires Faithful(lib) && WfFields(fields) && Tidy(Dict(es))
    requires ViewMapping(lib, fields, keepExtra, aliases, es, skip).Shown?
      && !ViewMapping(lib, fields, keepExtra, aliases, es, skip).tidied
    ensures var s, fv :=
      ViewMapping(lib, fields, keepExtra, aliases, es, skip).state, ViewFields(lib, fields, es, skip);
      && s.Dict? && !fv.tidied
      && (EmitMapping(lib, fields, keepExtra, s.entries, skip).Ok? <==> EmitFields(lib, fields, fv.shown, skip).Ok?)
  {
    hide EmitFields, ViewFields, SameMeaning, Tidy, WfFields, Faithful, CleanFields, FormSaved, ViewMapping, MergeExtra,
      KeysFrom, DistinctKeys;
    MappingShown(lib, fields, keepExtra, aliases, es, skip);
    var st := ViewMapping(lib, fields, keepExtra, aliases, es, skip).state.entries;
    FieldsLens(lib, fields, es, skip);
    var fv := ViewFields(lib, fields, es, skip);
    var inner := EmitFields(lib, fields, fv.shown, skip);
    if inner.Ok? {
      ExtraText(lib, fields, es, skip, st, inner.out);
      MergedMeaning(lib, fields, es, skip, inner.out);
    } else {
      ExtraText(lib, fields, es, skip, st, []);
    }
  }

  lemma ObjectRefusal(lib: Lib, f: Field, v: Value, top: bool)
    requires Faithful(lib) && f.kind.KObject? && Wf(f) && Tidy(v)
    requires ViewObject(lib, f, v, top).Shown? && !ViewObject(lib, f, v, top).tidied
    ensures var r := EmitObject(lib, f, ViewObject(lib, f, v, top).state);
      && v.Dict?
      && (RefusedFields(lib, f.kind.fields, v.entries, None) ==> r.Raise?)
      && (CleanFields(lib, f.kind.fields, v.entries, None) && !RefusedFields(lib, f.kind.fields, v.entries, None) ==>
        !r.Raise?)
    decreases f, 4, 0
  {
    hide Tidy, Faithful, CleanFields, RefusedFields, ViewMapping, EmitMapping, WfFields, EmitFields, ViewFields;
    ObjectLens(lib, f, v, top);
    MappingSaved(lib, f.kind.fields, f.kind.keepExtra, f.kind.aliases, v.entries, None);
    FieldsRefusal(lib, f.kind.fields, v.entries, None);
  }

  // ---- rows

  lemma RowRefusal(lib: Lib, f: Field, es: seq<Entry>, skip: Option<string>, row: seq<Entry>)
    requires Faithful(lib) && f.kind.KRows? && Wf(f) && Tidy(Dict(es)) && ShownRow(lib, f, es, skip, row)
    ensures var r := EmitRow(lib, f, row, skip);
      && (RefusedFields(lib, f.kind.itemFields, es, skip) ==> r.Bad?)
      && (CleanFields(lib, f.kind.itemFields, es, skip) && !RefusedFields(lib, f.kind.itemFields, es, skip) ==> r.Ok?)
    decreases f, 0, 0
  {
    hide Tidy, Faithful, CleanFields, RefusedFields, ViewMapping, EmitFields, ViewFields, WfFields, IsEmpty, MergeExtra;
    var fields := f.kind.itemFields;
    MappingSaved(lib, fields, f.kind.keepExtra, f.kind.aliases, es, skip);
    FieldsRefusal(lib, fields, es, skip);
    var st := ViewMapping(lib, fields, f.kind.keepExtra, f.kind.aliases, es, skip).state.entries;
    MappingShown(lib, fields, f.kind.keepExtra, f.kind.aliases, es, skip);
    ExtraText(lib, fields, es, skip, st, []);
    if skip.Some? {
      EmitFieldsAfter(lib, fields, row[0], st, skip);
      GetAfter(row[0], st, KStr(EXTRA));
    }
    var emitted := EmitFields(lib, fields, row, skip);
    if emitted.Ok? {
      forall j | 0 <= j < |row|
        ensures row[j].key.KStr? && (Models(fields, row[j].key.s) || StartsWith(row[j].key.s, "__"))
      {
        RowEntry(lib, f, es, skip, row, j);
      }
      AddUnknownNone(fields, row, emitted.out);
    }
  }

  lemma ListRowRefusal(lib: Lib, f: Field, v: Value)
    requires Faithful(lib) && f.kind.KRows? && Wf(f) && Tidy(v)
    requires ViewListRow(lib, f, v).Shown? && !ViewListRow(lib, f, v).tidied
    ensures var r := EmitListRow(lib, f, ViewListRow(lib, f, v).state);
      && (RefusedListRow(lib, f, v) ==> r.Raise?)
      && (CleanListRow(lib, f, v) && !RefusedListRow(lib, f, v) ==> !r.Raise?)
    decreases f, 1, 0
  {
    hide Tidy, Faithful, CleanFields, RefusedFields, ViewMapping, EmitRow, CheckRow, Wf, Shield, Unshield, PaddedToken;
    if v.Dict? {
      var row := ViewListRow(lib, f, v).state.entries;
      RowNotSkipped(lib, f, v.entries, None, row);
      RowRefusal(lib, f, v.entries, None, row);
    }
  }

  lemma RefusedRowsSnoc(lib: Lib, f: Field, items: seq<Value>)
    requires f.kind.KRows? && items != []
    ensures var n := |items| - 1;
      RefusedListRows(lib, f, items) <==> RefusedListRows(lib, f, items[..n]) || RefusedListRow(lib, f, items[n])
  {
    hide RefusedListRow;
    var n := |items| - 1;
    if i :| 0 <= i < n && RefusedListRow(lib, f, items[..n][i]) { assert items[i] == items[..n][i]; }
    if i :| 0 <= i <= n && RefusedListRow(lib, f, items[i]) {
      if i < n { assert items[..n][i] == items[i]; }
    }
  }

  lemma {:induction false} ListRowsRefusal(lib: Lib, f: Field, items: seq<Value>)
    requires Faithful(lib) && f.kind.KRows? && Wf(f) && Tidy(List(items))
    requires ViewListRows(lib, f, items).Shown? && !ViewListRows(lib, f, items).tidied
    ensures var s := ViewListRows(lib, f, items).state;
      && s.List?
      && var r := EmitListRows(lib, f, s.items);
         && (RefusedListRows(lib, f, items) ==> r.Bad?)
         && (CleanListRows(lib, f, items) && !RefusedListRows(lib, f, items) ==> r.Ok?)
    decreases f, 2, |items|
  {
    hide Faithful, CleanListRow, RefusedListRow, ViewListRow, EmitListRow, Wf, Tidy, CleanListRows, ViewListRows,
      EmitListRows;
    CleanRowsSnoc(lib, f, items);
    if items == [] {
      NoRows(lib, f);
    } else {
      hide RefusedListRows;
      var n := |items| - 1;
      TidyItem(items, n);
      RowsSnoc(lib, f, items, n);
      RefusedRowsSnoc(lib, f, items);
      ListRowsRefusal(lib, f, items[..n]);
      ListRowRefusal(lib, f, items[n]);
    }
  }

  // ---- rows saved under a name

  lemma NamedRowRefusal(lib: Lib, f: Field, e: Entry)
    requires Faithful(lib) && f.kind.KRows? && Wf(f) && Tidy(e.value) && !f.kind.shape.AsList?
    requires ViewNamedRow(lib, f, e).Shown? && !ViewNamedRow(lib, f, e).tidied
    ensures var row := ViewNamedRow(lib, f, e).state;
      var o := if f.kind.shape.AsListOrMap? then EmitTextRow(lib, f, row) else EmitNamedRow(lib, f, row);
      && (RefusedNamed(lib, f, e) ==> o.RowBad?)
      && (CleanPayload(lib, f, e.value) && !RefusedNamed(lib, f, e) ==> !o.RowBad?)
    decreases f, 1, 0
  {
    hide Tidy, Faithful, CleanFields, RefusedFields, ViewMapping, EmitRow, CheckRow, WfFields, Blank, NameOf, Unshield,
      Shield;
    var row := ViewNamedRow(lib, f, e).state.entries;
    if f.kind.shape.AsMapping? {
      var k := f.kind.keyField;
      NameCell(lib, k, e.key.s, row[1..]);
      assert row == [row[0]] + row[1..];
      RowNotSkipped(lib, f, e.value.entries, Some(k), row);
      RowRefusal(lib, f, e.value.entries, Some(k), row);
    }
  }

  lemma RefusedNamedSnoc(lib: Lib, f: Field, es: seq<Entry>)
    requires f.kind.KRows? && es != []
    ensures var n := |es| - 1;
      RefusedNamedRows(lib, f, es) <==> RefusedNamedRows(lib, f, es[..n]) || RefusedNamed(lib, f, es[n])
  {
    hide RefusedNamed;
    var n := |es| - 1;
    if i :| 0 <= i < n && RefusedNamed(lib, f, es[..n][i]) { assert es[i] == es[..n][i]; }
    if i :| 0 <= i <= n && RefusedNamed(lib, f, es[i]) {
      if i < n { assert es[..n][i] == es[i]; }
    }
  }

  lemma CleanNamedSnoc(lib: Lib, f: Field, es: seq<Entry>)
    requires f.kind.KRows? && es != []
    ensures var n := |es| - 1;
      CleanNamedRows(lib, f, es) <==> CleanNamedRows(lib, f, es[..n]) && CleanNamed(lib, f, es[n])
  {
    hide CleanNamed;
  }

  // Trimmed names of one mapping never meet.
  lemma NameFree(lib: Lib, f: Field, es: seq<Entry>, n: nat, out: seq<Entry>, o: RowOut)
    requires f.kind.KRows? && TidyKeys(es) && n + 1 == |es| && CleanNamedRows(lib, f, es)
    requires NamedSaved(lib, f, es[..n], out) && NamedOutcome(lib, f, es[n], o) && !o.RowBad? && es[n].key.KStr?
    ensures AddOutcome(out, o).Ok?
  {
    hide SameMeaning, KeptIn, HasKey, CleanPayload, Trimmed, Strip, TidyKeys, KeysFrom;
    var before := es[..n];
    assert forall i | 0 <= i < n :: before[i] == es[i];
    assert forall i | 0 <= i < n :: CleanNamed(lib, f, es[i]);
    assert CleanNamed(lib, f, es[n]);
    StripTrims(es[n].key.s);
    NamedKeys(es, n, out);
  }

  lemma {:induction false} MappedRowsRefusal(lib: Lib, f: Field, es: seq<Entry>)
    requires Faithful(lib) && f.kind.KRows? && Wf(f) && Tidy(Dict(es))
    requires f.kind.shape.AsMapping? || f.kind.shape.AsMappingScalar?
    requires ViewNamedRows(lib, f, es).Shown? && !ViewNamedRows(lib, f, es).tidied
    ensures var s := ViewNamedRows(lib, f, es).state;
      && s.List?
      && var r := EmitMappedRows(lib, f, s.items);
         && (RefusedNamedRows(lib, f, es) ==> r.Bad?)
         && (CleanNamedRows(lib, f, es) && !RefusedNamedRows(lib, f, es) ==> r.Ok?)
    decreases f, 2, |es|
  {
    hide NamedOutcome, Faithful, ViewNamedRow, EmitNamedRow, Wf, NamedSaved, Tidy, AddPair, RefusedNamed, CleanPayload;
    if es != [] {
      hide ViewNamedRows, EmitMappedRows, RefusedNamedRows, CleanNamedRows;
      var n := |es| - 1;
      TidyEntry(es, n);
      NamedRowsSnoc(lib, f, es, n);
      RefusedNamedSnoc(lib, f, es);
      CleanNamedSnoc(lib, f, es);
      MappedRowsRefusal(lib, f, es[..n]);
      MappedRowsLens(lib, f, es[..n]);
      NamedRowLens(lib, f, es[n]);
      NamedRowRefusal(lib, f, es[n]);
      var shown, row := ViewNamedRows(lib, f, es[..n]).state.items, ViewNamedRow(lib, f, es[n]).state;
      MappedSnoc(lib, f, shown, row);
      var r, o := EmitMappedRows(lib, f, shown), EmitNamedRow(lib, f, row);
      if r.Ok? && CleanNamedRows(lib, f, es) && !o.RowBad? {
        NameFree(lib, f, es, n, r.out, o);
      }
    }
  }

  lemma {:induction false} TextRowsRefusal(lib: Lib, f: Field, es: seq<Entry>)
    requires Faithful(lib) && f.kind.KRows? && Wf(f) && Tidy(Dict(es)) && f.kind.shape.AsListOrMap?
    requires ViewNamedRows(lib, f, es).Shown? && !ViewNamedRows(lib, f, es).tidied
    ensures var s := ViewNamedRows(lib, f, es).state;
      && s.List?
      && var p := NamedTexts(lib, f, s.items);
         && (RefusedNamedRows(lib, f, es) ==> p.Bad?)
         && (CleanNamedRows(lib, f, es) && !RefusedNamedRows(lib, f, es) ==> p.Ok? && PairsAsDict(p.out).Ok?)
    decreases f, 2, |es|
  {
    hide Faithful, ViewNamedRow, EmitTextRow, Wf, NamedSaved, Tidy, AddPair, SameMeaning, CleanPayload, Strip,
      RefusedNamed;
    if es != [] {
      hide ViewNamedRows, NamedTexts, PairsAsDict, RefusedNamedRows, CleanNamedRows, NamedOutcome;
      var n := |es| - 1;
      TidyEntry(es, n);
      NamedRowsSnoc(lib, f, es, n);
      RefusedNamedSnoc(lib, f, es);
      CleanNamedSnoc(lib, f, es);
      TextRowsRefusal(lib, f, es[..n]);
      TextRowsLens(lib, f, es[..n]);
      NamedRowLens(lib, f, es[n]);
      NamedRowRefusal(lib, f, es[n]);
      var shown, row := ViewNamedRows(lib, f, es[..n]).state.items, ViewNamedRow(lib, f, es[n]).state;
      TextsMonotone(lib, f, shown, row);
      var p, o := NamedTexts(lib, f, shown), EmitTextRow(lib, f, row);
      if p.Ok? && !o.RowBad? {
        TextsSnoc(lib, f, shown, row);
        if PairsAsDict(p.out).Ok? && CleanNamedRows(lib, f, es) {
          NameFree(lib, f, es, n, PairsAsDict(p.out).out, o);
        }
      }
    }
  }

  lemma {:induction false} ValueRowsRefusal(lib: Lib, f: Field, items: seq<Value>)
    requires f.kind.KRows? && ViewValueRows(items).Shown?
    ensures var s := ViewValueRows(items).state;
      s.List? && (RefusedValueRows(lib, f, items) <==> NamedTexts(lib, f, s.items).Bad?)
  {
    hide ViewValueRow, CheckRow;
    if items != [] {
      var n := |items| - 1;
      ValueRowsRefusal(lib, f, items[..n]);
      var shown, row := ViewValueRows(items[..n]).state.items, ViewValueRow(items[n]);
      assert (shown + [row.state])[..|shown|] == shown;
      assert EmitTextRow(lib, f, row.state).RowBad? <==> RefusedRow(lib, f, row);
      if i :| 0 <= i < n && RefusedRow(lib, f, ViewValueRow(items[..n][i])) { assert items[i] == items[..n][i]; }
      if i :| 0 <= i <= n && RefusedRow(lib, f, ViewValueRow(items[i])) {
        if i < n { assert items[..n][i] == items[i]; }
      }
    }
  }

  lemma RowsRefusal(lib: Lib, f: Field, v: Value, top: bool)
    requires Faithful(lib) && f.kind.KRows? && Wf(f) && Tidy(v)
    requires ViewRows(lib, f, v, top).Shown? && !ViewRows(lib, f, v, top).tidied
    ensures var r := EmitRows(lib, f, ViewRows(lib, f, v, top).state);
      (Refused(lib, f, v) ==> r.Raise?) && (Clean(lib, f, v) && !Refused(lib, f, v) ==> !r.Raise?)
    decreases f, 4, 0
  {
    hide Faithful, CleanListRows, CleanNamedRows, ViewListRows, ViewNamedRows, ViewValueRows, EmitListRows,
      EmitMappedRows, NamedTexts, PairsAsDict, CleanItems, Tidy, NamedSaved, UsersAsList, WfFields, RefusedListRows,
      RefusedNamedRows, RefusedValueRows;
    match v
    case List(items) =>
      if f.kind.shape.AsListOrMap? {
        ValueRowsLens(lib, f, items);
        ValueRowsRefusal(lib, f, items);
        var p := NamedTexts(lib, f, ViewValueRows(items).state.items);
        if p.Ok? { EmitListOfTexts(p.out); }
      } else {
        ListRowsRefusal(lib, f, items);
      }
    case Dict(es) =>
      if f.kind.shape.AsListOrMap? {
        TextRowsLens(lib, f, es);
        TextRowsRefusal(lib, f, es);
      } else {
        MappedRowsRefusal(lib, f, es);
      }
    case _ =>
  }

  // A refused value always raises; a clean one raises for no other reason.
  lemma Refusal(lib: Lib, f: Field, v: Value, top: bool)
    requires Faithful(lib) && Wf(f) && Tidy(v) && View(lib, f, v, top).Shown? && !View(lib, f, v, top).tidied
    ensures var r := Emit(lib, f, View(lib, f, v, top).state);
      (Refused(lib, f, v) ==> r.Raise?) && (Clean(lib, f, v) && !Refused(lib, f, v) ==> !r.Raise?)
    decreases f, 5, 0
  {
    hide Faithful, Tidy, Wf, CleanLeaf, CleanFields, RefusedFields, ViewObject, EmitObject, ViewRows, EmitRows;
    if f.kind.KObject? {
      ObjectRefusal(lib, f, v, top);
    } else if f.kind.KRows? {
      RowsRefusal(lib, f, v, top);
    } else {
      LeafLens(lib, f, v, top);
    }
  }

  // The law with nothing left open: an unedited save keeps the meaning exactly when the value is clean and not refused,
  // and a clean value raises exactly when it is refused.
  lemma ExactLens(lib: Lib, f: Field, v: Value, top: bool)
    requires Faithful(lib) && Wf(f) && Tidy(v) && View(lib, f, v, top).Shown? && !View(lib, f, v, top).tidied
    ensures var r := Emit(lib, f, View(lib, f, v, top).state);
      && (Kept(r, v) <==> Clean(lib, f, v) && !Refused(lib, f, v))
      && (Clean(lib, f, v) ==> (r.Raise? <==> Refused(lib, f, v)))
  {
    hide Faithful, Tidy, Wf, Clean, Refused, View, Emit, SameMeaning;
    Lens(lib, f, v, top);
    Refusal(lib, f, v, top);
  }

  // ---- what the rule reads

  // A cell of a shown row is empty exactly when the form does not show that key of the mapping.
  lemma EmptyIsUnshown(lib: Lib, f: Field, es: seq<Entry>, k: string)
    requires Faithful(lib) && f.kind.KRows? && Wf(f) && Tidy(Dict(es)) && k != EXTRA
    requires ViewRow(lib, f, es, None).Shown? && !ViewRow(lib, f, es, None).tidied
    ensures ViewRow(lib, f, es, None).state.Dict?
    ensures EmptyAt(ViewRow(lib, f, es, None).state.entries, k)
        <==> !exists i | 0 <= i < |es| :: es[i].key == KStr(k) && InForm(lib, f.kind.itemFields, es[i], None)
  {
    hide Faithful, Tidy, ViewFields, InForm, ViewMapping, Wf, IsEmpty;
    var fields := f.kind.itemFields;
    MappingShown(lib, fields, f.kind.keepExtra, f.kind.aliases, es, None);
    var st, shown := ViewRow(lib, f, es, None).state.entries, ViewFields(lib, fields, es, None).shown;
    if i :| 0 <= i < |es| && es[i].key == KStr(k) && InForm(lib, fields, es[i], None) {
      FieldsReach(lib, fields, es, None, i);
      var j :| 0 <= j < |shown| && shown[j].key == KStr(k);
      assert st[j].key == KStr(k);
      KeyAt(st, j);
      var w := Get(st, KStr(k)).value;
      var m :| 0 <= m < |st| && st[m] == Entry(KStr(k), w);
      assert m < |shown|;
      FieldsShown(lib, fields, es, None, m);
    } else {
      if Get(st, KStr(k)).Some? {
        var m :| 0 <= m < |st| && st[m] == Entry(KStr(k), Get(st, KStr(k)).value);
        assert m < |shown|;
        var i := ShownInForm(lib, fields, es, None, m);
      }
    }
  }

  // Every shown entry is one the form models.
  lemma {:induction false} ShownInForm(lib: Lib, fields: seq<Field>, es: seq<Entry>, skip: Option<string>, j: nat)
    returns (i: nat)
    requires j < |ViewFields(lib, fields, es, skip).shown|
    ensures i < |es| && es[i].key == ViewFields(lib, fields, es, skip).shown[j].key && InForm(lib, fields, es[i], skip)
  {
    hide View;
    var n := |es| - 1;
    var prev := ViewFields(lib, fields, es[..n], skip).shown;
    if j < |prev| {
      i := ShownInForm(lib, fields, es[..n], skip, j);
    } else {
      i := n;
    }
  }
}
