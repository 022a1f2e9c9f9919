// Package lists: rows and YAML entries describe the same packages, one group per run of a manager.

module EditorPackages {
  import opened Text
  import opened Tokens
  import opened Values
  import opened EditorForm
  import opened EditorInstaller

  // ---- rows a form can hold

  predicate ManagersOk(managers: seq<string>) {
    forall m | m in managers :: m != "" && Trimmed(m)
  }

  // Text the form shows as it is: trimmed, and no spelled-out shield in it.
  predicate Plain(s: string) {
    Trimmed(s) && Unshield(s) == s
  }

  predicate RowOk(managers: seq<string>, row: (string, string, string)) {
    var (name, version, manager) := row;
    && Plain(name) && name != "" && Plain(version)
    && (version == "" ==> '\n' !in Shield(name))
    && (manager == "" || manager in managers)
  }

  function Rows(rows: seq<(string, string, string)>): seq<Value> {
    seq(|rows|, i requires 0 <= i < |rows| => PackageRow(rows[i].0, rows[i].1, rows[i].2))
  }

  // ---- one row

  lemma UnshieldTwice(s: string)
    ensures Unshield(Unshield(s)) == Unshield(s)
  {
    hide Embedded;
    match ShieldedToken(s)
    case Some(t) =>
      BetweenSpells(s, PXE, "__");
      UnshieldOfBrace(t);
    case None => UnshieldFixed(s);
  }

  // Writing a plain text shields it to one the form shows as that text again.
  lemma PlainBack(s: string)
    requires Plain(s)
    ensures Unshield(Shield(s)) == s && Trimmed(Shield(s)) && (Shield(s) == "" <==> s == "")
  {
    hide Embedded;
    StripTrims(s);
    match BraceToken(Strip(s))
    case Some(t) =>
      BetweenSpells(s, "{{", "}}");
      ShieldedTokenOf(t);
    case None =>
  }

  lemma TrimmedText(s: string)
    requires Trimmed(s) && s != ""
    ensures !Blank(s)
  {
    assert s[0] in s;
  }

  lemma RowBack(managers: seq<string>, name: string, version: string, manager: string)
    requires RowOk(managers, (name, version, manager))
    ensures ViewPackage(PackageItem(name, version), manager) == Some(PackageRow(name, version, manager))
    ensures !PackageItem(name, version).Dict?
  {
    hide Shield, Unshield, Blank, Trimmed;
    PlainBack(name);
    TrimmedText(Shield(name));
    if version != "" {
      PlainBack(version);
      TrimmedText(Shield(version));
    }
  }

  lemma CellsOf(name: string, version: string, manager: string)
    ensures var es := PackageRow(name, version, manager).entries;
      && Get(es, KStr("name")) == Some(Str(name)) && Get(es, KStr("version")) == Some(Str(version))
      && Get(es, KStr("manager")) == Some(Str(manager))
  {
    var es := PackageRow(name, version, manager).entries;
    assert es[1..] == [Entry(KStr("version"), Str(version)), Entry(KStr("manager"), Str(manager))];
    assert es[1..][1..] == [Entry(KStr("manager"), Str(manager))];
    assert Get(es[1..][1..], KStr("manager")) == Some(Str(manager));
    assert Get(es[1..], KStr("manager")) == Get(es[1..][1..], KStr("manager"));
  }

  lemma CellRead(lib: Lib, es: seq<Entry>, k: string, s: string)
    requires Get(es, KStr(k)) == Some(Str(s)) && Trimmed(s)
    ensures NameOf(lib, es, k) == s
  {
    hide Get, Strip, Trimmed;
    StripTrims(s);
  }

  lemma PackageRead(lib: Lib, managers: seq<string>, name: string, version: string, manager: string)
    requires RowOk(managers, (name, version, manager)) && ManagersOk(managers)
    ensures PackageOf(lib, PackageRow(name, version, manager)) == Some((name, version, manager))
  {
    hide Unshield, Shield, NameOf, Get;
    var es := PackageRow(name, version, manager).entries;
    CellsOf(name, version, manager);
    CellRead(lib, es, "name", name);
    CellRead(lib, es, "version", version);
    CellRead(lib, es, "manager", manager);
  }

  // ---- runs and groups

  lemma RunLonger(items: seq<Value>, item: Value, manager: string)
    requires ViewPackageRun(items, manager).Some? && ViewPackage(item, manager).Some?
    ensures ViewPackageRun(items + [item], manager)
      == Some(ViewPackageRun(items, manager).value + [ViewPackage(item, manager).value])
  {
    var all := items + [item];
    assert all[..|all| - 1] == items && all[|all| - 1] == item;
  }

  lemma ItemsLonger(managers: seq<string>, items: seq<Value>, item: Value, row: Value)
    requires ViewPackageItems(managers, items).Some? && !item.Dict? && ViewPackage(item, "") == Some(row)
    ensures ViewPackageItems(managers, items + [item]) == Some(ViewPackageItems(managers, items).value + [row])
  {
    hide ViewPackage;
    var all := items + [item];
    assert all[..|all| - 1] == items && all[|all| - 1] == item;
    RunLonger([], item, "");
    assert [] + [item] == [item] && [] + [row] == [row];
  }

  lemma GroupShown(managers: seq<string>, items: seq<Value>, manager: string, members: seq<Value>)
    requires ViewPackageItems(managers, items).Some? && manager in managers && members != []
    requires ViewPackageRun(members, manager).Some?
    ensures ViewPackageItems(managers, items + [ManagerGroup(manager, members)])
         == Some(ViewPackageItems(managers, items).value + ViewPackageRun(members, manager).value)
  {
    hide ViewPackageRun;
    var group := ManagerGroup(manager, members);
    var all := items + [group];
    assert all[..|all| - 1] == items && all[|all| - 1] == group;
    var es := group.entries;
    assert es[..0] == [] && es[0] == Entry(KStr(manager), List(members));
    var rows := ViewPackageRun(members, manager).value;
    assert ViewPackageGroups(managers, []) == Some([]) && [] + rows == rows;
    assert ViewPackageGroups(managers, es) == Some(rows);
  }

  // What has been emitted for the first rows shows those rows.
  ghost predicate Shows(managers: seq<string>, p: PackagesOut, rows: seq<Value>) {
    ViewPackageItems(managers, p.out).Some? &&
    match p.group
    case None => ViewPackageItems(managers, p.out).value == rows
    case Some(m) =>
      m in managers && m != "" && p.members != [] && ViewPackageRun(p.members, m).Some?
      && ViewPackageItems(managers, p.out).value + ViewPackageRun(p.members, m).value == rows
  }

  lemma ShownSoFar(managers: seq<string>, p: PackagesOut, rows: seq<Value>)
    requires Shows(managers, p, rows)
    ensures ViewPackageItems(managers, PackagesSoFar(p)) == Some(rows)
  {
    hide ViewPackageItems, ViewPackageRun;
    if p.group.Some? { GroupShown(managers, p.out, p.group.value, p.members); }
  }

  lemma ShowsLonger(managers: seq<string>, p: PackagesOut, rows: seq<Value>, name: string, version: string,
                    manager: string)
    requires Shows(managers, p, rows) && RowOk(managers, (name, version, manager)) && ManagersOk(managers)
    ensures Shows(managers, AddPackage(p, PackageItem(name, version), manager),
      rows + [PackageRow(name, version, manager)])
  {
    hide ViewPackageItems, ViewPackageRun, ViewPackage, Plain;
    var item, row := PackageItem(name, version), PackageRow(name, version, manager);
    RowBack(managers, name, version, manager);
    ShownSoFar(managers, p, rows);
    if manager == "" {
      ItemsLonger(managers, PackagesSoFar(p), item, row);
    } else if p.group == Some(manager) {
      RunLonger(p.members, item, manager);
      var a, b := ViewPackageItems(managers, p.out).value, ViewPackageRun(p.members, manager).value;
      assert (a + b) + [row] == a + (b + [row]);
    } else {
      EmptyRun(manager);
      RunLonger([], item, manager);
      assert [] + [item] == [item] && [] + [row] == [row];
    }
  }

  lemma EmptyRun(manager: string)
    ensures ViewPackageRun([], manager) == Some([])
  {
  }

  // One more well-formed row.
  lemma EmitStep(lib: Lib, managers: seq<string>, rows: seq<Value>, name: string, version: string, manager: string)
    requires RowOk(managers, (name, version, manager)) && ManagersOk(managers)
      && EmitPackageRows(lib, managers, rows).Ok?
    ensures EmitPackageRows(lib, managers, rows + [PackageRow(name, version, manager)])
         == Ok(AddPackage(EmitPackageRows(lib, managers, rows).out, PackageItem(name, version), manager))
  {
    hide RowOk, PackageOf, ManagersOk, PackageRow, PackageItem, AddPackage;
    var row := PackageRow(name, version, manager);
    var all := rows + [row];
    assert all[..|all| - 1] == rows && all[|all| - 1] == row;
    PackageRead(lib, managers, name, version, manager);
    RowManager(managers, (name, version, manager));
  }

  lemma RowsStep(rows: seq<(string, string, string)>)
    requires rows != []
    ensures var n := |rows| - 1; Rows(rows) == Rows(rows[..n]) + [PackageRow(rows[n].0, rows[n].1, rows[n].2)]
  {
    hide PackageRow;
  }

  lemma {:induction false} EmitShows(lib: Lib, managers: seq<string>, rows: seq<(string, string, string)>)
    requires ManagersOk(managers) && forall i | 0 <= i < |rows| :: RowOk(managers, rows[i])
    ensures var r := EmitPackageRows(lib, managers, Rows(rows)); r.Ok? && Shows(managers, r.out, Rows(rows))
  {
    hide RowOk, Shows, ManagersOk, EmitPackageRows, PackageRow, PackageItem, AddPackage, Rows;
    if rows == [] {
      NothingEmitted(lib, managers);
      NothingShown(managers);
    } else {
      var n := |rows| - 1;
      var (name, version, manager) := rows[n];
      RowsStep(rows);
      EmitShows(lib, managers, rows[..n]);
      EmitStep(lib, managers, Rows(rows[..n]), name, version, manager);
      ShowsLonger(managers, EmitPackageRows(lib, managers, Rows(rows[..n])).out, Rows(rows[..n]), name, version,
        manager);
    }
  }

  lemma NothingEmitted(lib: Lib, managers: seq<string>)
    ensures Rows([]) == [] && EmitPackageRows(lib, managers, []) == Ok(PackagesOut([], None, []))
  {
  }

  lemma RowManager(managers: seq<string>, row: (string, string, string))
    requires RowOk(managers, row)
    ensures row.2 == "" || row.2 in managers
  {
  }

  lemma NothingShown(managers: seq<string>)
    ensures Shows(managers, PackagesOut([], None, []), [])
  {
  }

  // Saving rows and viewing the result gives the rows back.
  lemma RowsRoundTrip(lib: Lib, managers: seq<string>, rows: seq<(string, string, string)>)
    requires ManagersOk(managers) && rows != [] && forall i | 0 <= i < |rows| :: RowOk(managers, rows[i])
    ensures var emitted := EmitPackages(lib, managers, List(Rows(rows)));
      && emitted.Val? && emitted.v.List?
      && ViewPackages(lib, managers, emitted.v).Shown?
      && ViewPackages(lib, managers, emitted.v).state == List(Rows(rows))
      && !ViewPackages(lib, managers, emitted.v).tidied == (ShieldValue(emitted.v) == emitted.v)
  {
    hide ViewPackageItems, EmitPackageRows, ShieldValue, RowOk, ManagersOk;
    EmitShows(lib, managers, rows);
    var p := EmitPackageRows(lib, managers, Rows(rows)).out;
    ShownSoFar(managers, p, Rows(rows));
    NoBlock(rows);
    assert |Rows(rows)| > 0;
    if PackagesSoFar(p) == [] { EmptyItems(managers); }
  }

  lemma EmptyItems(managers: seq<string>)
    ensures ViewPackageItems(managers, []) == Some([])
  {
  }

  lemma NoBlock(rows: seq<(string, string, string)>)
    ensures BlockTokenOf(List(Rows(rows))).None?
  {
    if |rows| == 1 { assert |PackageRow(rows[0].0, rows[0].1, rows[0].2).entries| == 3; }
  }

  // ---- the normal form

  // One manager per group, no empty group, and neighbouring groups of different managers.
  ghost predicate MaximalRuns(items: seq<Value>) {
    && (forall i | 0 <= i < |items| && items[i].Dict? ::
          |items[i].entries| == 1 && items[i].entries[0].value.List? && items[i].entries[0].value.items != [])
    && (forall i | 0 <= i < |items| - 1 && items[i].Dict? && items[i + 1].Dict? ::
          |items[i].entries| == 1 && |items[i + 1].entries| == 1
            && items[i].entries[0].key != items[i + 1].entries[0].key)
  }

  ghost predicate Settled(p: PackagesOut) {
    MaximalRuns(PackagesSoFar(p)) && (p.group.Some? ==> p.members != [])
      && (p.group.None? && p.out != [] ==> !p.out[|p.out| - 1].Dict?)
  }

  lemma MaximalLonger(items: seq<Value>, item: Value)
    requires MaximalRuns(items)
    requires item.Dict? ==> |item.entries| == 1 && item.entries[0].value.List? && item.entries[0].value.items != []
    requires item.Dict? && items != [] && items[|items| - 1].Dict? ==>
      items[|items| - 1].entries[0].key != item.entries[0].key
    ensures MaximalRuns(items + [item])
  {
    var all := items + [item];
    forall i | 0 <= i < |all| ensures all[i] == if i < |items| then items[i] else item {}
  }

  lemma AddSettled(p: PackagesOut, name: string, version: string, manager: string)
    requires Settled(p)
    ensures Settled(AddPackage(p, PackageItem(name, version), manager))
  {
    hide Shield, MaximalRuns;
    var item := PackageItem(name, version);
    if manager == "" {
      MaximalLonger(PackagesSoFar(p), item);
    } else if p.group == Some(manager) {
      OutMaximal(p.out, ManagerGroup(manager, p.members), ManagerGroup(manager, p.members + [item]));
    } else {
      MaximalLonger(PackagesSoFar(p), ManagerGroup(manager, [item]));
    }
  }

  lemma OutMaximal(out: seq<Value>, group: Value, longer: Value)
    requires MaximalRuns(out + [group]) && group.Dict? && longer.Dict? && |group.entries| == 1 && |longer.entries| == 1
    requires group.entries[0].key == longer.entries[0].key && longer.entries[0].value.List?
      && longer.entries[0].value.items != []
    ensures MaximalRuns(out + [longer])
  {
    var a, b := out + [group], out + [longer];
    forall i | 0 <= i < |out| ensures a[i] == b[i] {}
    assert a[|out|] == group && b[|out|] == longer;
  }

  lemma {:induction false} RowsSettled(lib: Lib, managers: seq<string>, rows: seq<Value>)
    ensures var r := EmitPackageRows(lib, managers, rows); r.Ok? ==> Settled(r.out)
  {
    hide Settled, PackageOf, PackageItem, AddPackage;
    if rows == [] {
      assert Settled(PackagesOut([], None, [])) by { StartSettled(); }
    } else {
      var n := |rows| - 1;
      RowsSettled(lib, managers, rows[..n]);
      var prev := EmitPackageRows(lib, managers, rows[..n]);
      if prev.Ok? {
        match PackageOf(lib, rows[n])
        case None =>
        case Some((name, version, manager)) => AddSettled(prev.out, name, version, manager);
      }
    }
  }

  lemma StartSettled()
    ensures Settled(PackagesOut([], None, []))
  {
  }

  // Whatever is saved has one group per run of a manager.
  lemma SavesMaximalRuns(lib: Lib, managers: seq<string>, v: Value)
    requires EmitPackages(lib, managers, v).Val? && EmitPackages(lib, managers, v).v.List?
    ensures MaximalRuns(EmitPackages(lib, managers, v).v.items)
  {
    hide MaximalRuns, EmitPackageRows;
    RowsSettled(lib, managers, v.items);
  }

  // ---- what is viewed is kept

  lemma {:induction false} EmbeddedChars(s: string, c: char)
    requires c !in s && c != '{' && c != '}'
    ensures c !in Embedded(s)
    decreases |s|
  {
    hide QuotedLength;
    var n := QuotedLength(s);
    if n > 0 {
      assert forall d | d in s[n..] :: d in s;
      assert forall d | d in s[|QUOTED_PXE|..n - 3] :: d in s;
      EmbeddedChars(s[n..], c);
    } else if s != "" {
      assert forall d | d in s[1..] :: d in s;
      EmbeddedChars(s[1..], c);
    }
  }

  // Showing and writing back adds no line break.
  lemma NoNewLine(s: string)
    requires '\n' !in s
    ensures '\n' !in Shield(Unshield(s))
  {
    hide Embedded;
    var u := Unshield(s);
    assert '\n' !in u by {
      match ShieldedToken(s)
      case Some(t) => BetweenSpells(s, PXE, "__");
      case None => EmbeddedChars(s, '\n');
    }
    match BraceToken(Strip(u))
    case Some(t) => BetweenSpells(Strip(u), "{{", "}}");
    case None =>
  }

  // A shown package is a row the form can hold.
  lemma ViewedRow(managers: seq<string>, v: Value, manager: string) returns (row: (string, string, string))
    requires ViewPackage(v, manager).Some? && (manager == "" || manager in managers)
    ensures RowOk(managers, row) && ViewPackage(v, manager) == Some(PackageRow(row.0, row.1, row.2))
  {
    hide Shield, Unshield, Blank, Trimmed;
    if v.Str? && '\n' !in v.s {
      ShownPlain(v.s);
      NoNewLine(v.s);
      row := (Unshield(v.s), "", manager);
      EmptyPlain();
    } else {
      ShownPlain(v.items[0].s);
      ShownPlain(v.items[1].s);
      row := (Unshield(v.items[0].s), Unshield(v.items[1].s), manager);
    }
  }

  lemma EmptyPlain()
    ensures Plain("")
  {
  }

  lemma ShownPlain(s: string)
    requires !Blank(s) && Trimmed(s)
    ensures Plain(Unshield(s)) && Unshield(s) != ""
  {
    UnshieldTwice(s);
    UnshieldEnds(s);
  }

  ghost predicate RowsOk(managers: seq<string>, rows: seq<(string, string, string)>) {
    forall i | 0 <= i < |rows| :: RowOk(managers, rows[i])
  }

  lemma RowsJoin(managers: seq<string>, a: seq<(string, string, string)>, b: seq<(string, string, string)>)
    requires RowsOk(managers, a) && RowsOk(managers, b)
    ensures RowsOk(managers, a + b) && Rows(a + b) == Rows(a) + Rows(b)
  {
    hide RowOk;
  }

  lemma {:induction false} ViewedRun(managers: seq<string>, items: seq<Value>, manager: string)
    returns (rows: seq<(string, string, string)>)
    requires ViewPackageRun(items, manager).Some? && (manager == "" || manager in managers)
    ensures RowsOk(managers, rows) && ViewPackageRun(items, manager) == Some(Rows(rows))
  {
    hide RowOk, ViewPackage;
    if items == [] {
      rows := [];
      assert Rows(rows) == [];
    } else {
      var before := ViewedRun(managers, items[..|items| - 1], manager);
      var row := ViewedRow(managers, items[|items| - 1], manager);
      rows := before + [row];
      RowsJoin(managers, before, [row]);
      assert Rows([row]) == [PackageRow(row.0, row.1, row.2)];
    }
  }

  lemma {:induction false} ViewedGroups(managers: seq<string>, es: seq<Entry>)
    returns (rows: seq<(string, string, string)>)
    requires ViewPackageGroups(managers, es).Some?
    ensures RowsOk(managers, rows) && ViewPackageGroups(managers, es) == Some(Rows(rows))
  {
    hide RowOk, ViewPackageRun;
    if es == [] {
      rows := [];
      assert Rows(rows) == [];
    } else {
      var last := es[|es| - 1];
      var before := ViewedGroups(managers, es[..|es| - 1]);
      var run := ViewedRun(managers, last.value.items, last.key.s);
      rows := before + run;
      RowsJoin(managers, before, run);
    }
  }

  lemma {:induction false} ViewedItems(managers: seq<string>, items: seq<Value>)
    returns (rows: seq<(string, string, string)>)
    requires ViewPackageItems(managers, items).Some?
    ensures RowsOk(managers, rows) && ViewPackageItems(managers, items) == Some(Rows(rows))
  {
    hide RowOk, ViewPackageRun, ViewPackageGroups;
    if items == [] {
      rows := [];
      assert Rows(rows) == [];
    } else {
      var last := items[|items| - 1];
      var before := ViewedItems(managers, items[..|items| - 1]);
      var more: seq<(string, string, string)>;
      if last.Dict? { more := ViewedGroups(managers, last.entries); } else { more := ViewedRun(managers, [last], ""); }
      rows := before + more;
      RowsJoin(managers, before, more);
    }
  }

  // Viewing a list, saving it and viewing it again shows the same packages in the same order, and what was saved has
  // one group per run of a manager.
  lemma ViewedIsKept(lib: Lib, managers: seq<string>, v: Value)
    requires ManagersOk(managers) && v.List? && ViewPackages(lib, managers, v).Shown?
    ensures var state := ViewPackages(lib, managers, v).state; var emitted := EmitPackages(lib, managers, state);
      && emitted.Val? && emitted.v.List? && MaximalRuns(emitted.v.items)
      && ViewPackages(lib, managers, emitted.v).Shown? && ViewPackages(lib, managers, emitted.v).state == state
  {
    hide ViewPackageItems, EmitPackageRows, ShieldValue, RowOk, ManagersOk, EmitPackages, MaximalRuns;
    var rows := ViewedItems(managers, v.items);
    ViewedNotEmpty(managers, v.items);
    assert |Rows(rows)| == |rows|;
    RowsRoundTrip(lib, managers, rows);
    SavesMaximalRuns(lib, managers, List(Rows(rows)));
  }

  lemma {:induction false} GroupsNotEmpty(managers: seq<string>, es: seq<Entry>)
    requires es != [] && ViewPackageGroups(managers, es).Some?
    ensures ViewPackageGroups(managers, es).value != []
  {
    var last := es[|es| - 1];
    var run := ViewPackageRun(last.value.items, last.key.s);
    assert run.Some? && run.value != [] by { RunNotEmpty(last.value.items, last.key.s); }
  }

  lemma RunNotEmpty(items: seq<Value>, manager: string)
    requires items != [] && ViewPackageRun(items, manager).Some?
    ensures ViewPackageRun(items, manager).value != []
  {
    hide ViewPackage;
  }

  lemma ViewedNotEmpty(managers: seq<string>, items: seq<Value>)
    requires items != [] && ViewPackageItems(managers, items).Some?
    ensures ViewPackageItems(managers, items).value != []
  {
    hide ViewPackageGroups, ViewPackageRun;
    var last := items[|items| - 1];
    if last.Dict? { GroupsNotEmpty(managers, last.entries); } else { RunNotEmpty([last], ""); }
  }
}
