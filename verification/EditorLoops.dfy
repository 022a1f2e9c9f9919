// The editor's loops as it runs them: rows and fields collected one by one, and mappings merged in place.

module EditorLoops {
  import opened Text
  import opened Values
  import opened EditorForm

  lemma Prefix(es: seq<Entry>, n: nat)
    requires n < |es|
    ensures es[..n + 1][..n] == es[..n] && es[..n + 1][n] == es[n]
  {
  }

  // A mapping that `__extra__` text is merged into.
  class Mapping {
    var entries: seq<Entry>

    // False on a syntax error, a text that is no mapping, or a key set twice.
    method MergeExtraText(lib: Lib, text: Option<Value>) returns (ok: bool)
      modifies this
      ensures ok <==> MergeExtra(lib, old(entries), text).Ok?
      ensures ok ==> entries == MergeExtra(lib, old(entries), text).out
    {
      if text.None? || !text.value.Str? || Blank(text.value.s) { return true; }
      var loaded := lib.load(text.value.s);
      if loaded.None? { return false; }
      if loaded.value.Null? { return true; }
      if !loaded.value.Dict? { return false; }
      var extra := loaded.value.entries;
      var n := 0;
      assert extra[..0] == [];
      while n < |extra|
        invariant n <= |extra| && MergeEntries(old(entries), extra[..n]) == Ok(entries)
      {
        Prefix(extra, n);
        if HasKey(entries, extra[n].key) {
          BadStays(old(entries), extra, n + 1);
          return false;
        }
        entries := entries + [Entry(extra[n].key, Blockify(extra[n].value))];
        n := n + 1;
      }
      assert extra[..n] == extra;
      return true;
    }
  }

  // A key set twice stays an error.
  lemma {:induction false} BadStays(target: seq<Entry>, extra: seq<Entry>, n: nat)
    requires n <= |extra| && MergeEntries(target, extra[..n]).Bad?
    ensures MergeEntries(target, extra).Bad?
    decreases |extra| - n
  {
    if n < |extra| {
      Prefix(extra, n);
      BadStays(target, extra, n + 1);
    } else {
      assert extra[..n] == extra;
    }
  }

  // Deprecated keys move to their canonical name.
  method RenameKeys(es: seq<Entry>, aliases: map<string, string>) returns (entries: seq<Entry>, tidied: bool)
    ensures Renamed(entries, tidied) == RenameAliases(es, aliases, |es|)
  {
    entries, tidied := [], false;
    var n := 0;
    while n < |es|
      invariant n <= |es| && Renamed(entries, tidied) == RenameAliases(es, aliases, n)
    {
      var e := es[n];
      if e.key.KStr? && e.key.s in aliases && !HasKey(es, KStr(aliases[e.key.s])) {
        entries, tidied := Put(entries, KStr(aliases[e.key.s]), e.value), true;
      } else {
        entries := entries + [e];
      }
      n := n + 1;
    }
  }

  // Sub-fields the form shows, the keys it keeps aside, and whether saving will normalise something.
  method CollectFields(lib: Lib, fields: seq<Field>, es: seq<Entry>, skip: Option<string>)
    returns (shown: seq<Entry>, extra: seq<Entry>, tidied: bool)
    ensures FieldsView(shown, extra, tidied) == ViewFields(lib, fields, es, skip)
  {
    hide View, FieldOf;
    shown, extra, tidied := [], [], false;
    var n := 0;
    while n < |es|
      invariant n <= |es| && FieldsView(shown, extra, tidied) == ViewFields(lib, fields, es[..n], skip)
    {
      Prefix(es, n);
      var i := FieldOf(fields, es[n], skip);
      if i.None? {
        extra := extra + [es[n]];
      } else {
        match View(lib, fields[i.value], es[n].value, false) {
          case Unrepresentable => extra := extra + [es[n]];
          case Shown(state, t) =>
            shown := shown + [Entry(es[n].key, state)];
            tidied := tidied || t;
        }
      }
      n := n + 1;
    }
    assert es[..n] == es;
  }

  // The loop over posted cells; ok is false when one cannot be saved.
  method CollectEmitted(lib: Lib, fields: seq<Field>, st: seq<Entry>, skip: Option<string>)
    returns (ok: bool, out: seq<Entry>)
    ensures EmitFields(lib, fields, st, skip) == if ok then Ok(out) else Bad
  {
    hide Emit, FieldOf;
    out := [];
    var n := 0;
    while n < |st|
      invariant n <= |st| && EmitFields(lib, fields, st[..n], skip) == Ok(out)
    {
      Prefix(st, n);
      var i := FieldOf(fields, st[n], skip);
      if i.Some? {
        match Emit(lib, fields[i.value], st[n].value) {
          case Raise =>
            FieldErrorStays(lib, fields, st, skip, n + 1);
            return false, out;
          case Omit =>
          case Val(w) => out := out + [Entry(st[n].key, w)];
        }
      }
      n := n + 1;
    }
    assert st[..n] == st;
    ok := true;
  }

  lemma {:induction false} FieldErrorStays(lib: Lib, fields: seq<Field>, st: seq<Entry>, skip: Option<string>, n: nat)
    requires n <= |st| && EmitFields(lib, fields, st[..n], skip).Bad?
    ensures EmitFields(lib, fields, st, skip).Bad?
    decreases |st| - n
  {
    hide Emit, FieldOf;
    if n < |st| {
      Prefix(st, n);
      FieldErrorStays(lib, fields, st, skip, n + 1);
    } else {
      assert st[..n] == st;
    }
  }

  // Rows of a list field, in order.
  method CollectRows(lib: Lib, f: Field, rows: seq<Value>) returns (ok: bool, out: seq<Value>)
    requires f.kind.KRows?
    ensures EmitListRows(lib, f, rows) == if ok then Ok(out) else Bad
  {
    hide EmitListRow;
    out := [];
    var n := 0;
    while n < |rows|
      invariant n <= |rows| && EmitListRows(lib, f, rows[..n]) == Ok(out)
    {
      assert rows[..n + 1][..n] == rows[..n];
      match EmitListRow(lib, f, rows[n]) {
        case Raise =>
          RowErrorStays(lib, f, rows, n + 1);
          return false, out;
        case Omit =>
        case Val(w) => out := out + [w];
      }
      n := n + 1;
    }
    assert rows[..n] == rows;
    ok := true;
  }

  lemma {:induction false} RowErrorStays(lib: Lib, f: Field, rows: seq<Value>, n: nat)
    requires f.kind.KRows? && n <= |rows| && EmitListRows(lib, f, rows[..n]).Bad?
    ensures EmitListRows(lib, f, rows).Bad?
    decreases |rows| - n
  {
    hide EmitListRow;
    if n < |rows| {
      assert rows[..n + 1][..n] == rows[..n];
      RowErrorStays(lib, f, rows, n + 1);
    } else {
      assert rows[..n] == rows;
    }
  }

  // Package rows; the open group is the last entry of the list and grows in place.
  method CollectPackages(lib: Lib, managers: seq<string>, rows: seq<Value>) returns (ok: bool, out: seq<Value>)
    ensures match EmitPackageRows(lib, managers, rows)
      case Bad => !ok
      case Ok(p) => ok && out == PackagesSoFar(p)
  {
    hide PackageOf, PackageItem;
    out := [];
    var group: Option<string>, members: seq<Value> := None, [];
    ghost var p := PackagesOut([], None, []);
    var n := 0;
    while n < |rows|
      invariant n <= |rows| && EmitPackageRows(lib, managers, rows[..n]) == Ok(p)
      invariant group == p.group && members == p.members && out == PackagesSoFar(p)
    {
      assert rows[..n + 1][..n] == rows[..n];
      match PackageOf(lib, rows[n]) {
        case None =>
        case Some((name, version, manager)) =>
          if manager != "" && manager !in managers {
            PackageErrorStays(lib, managers, rows, n + 1);
            return false, out;
          }
          var item := PackageItem(name, version);
          p := AddPackage(p, item, manager);
          if manager == "" {
            group, members, out := None, [], out + [item];
          } else {
            if group != Some(manager) {
              group, members := Some(manager), [];
              out := out + [ManagerGroup(manager, [])];
            }
            members := members + [item];
            out := out[..|out| - 1] + [ManagerGroup(manager, members)];
          }
      }
      n := n + 1;
    }
    assert rows[..n] == rows;
    ok := true;
  }

  lemma {:induction false} PackageErrorStays(lib: Lib, managers: seq<string>, rows: seq<Value>, n: nat)
    requires n <= |rows| && EmitPackageRows(lib, managers, rows[..n]).Bad?
    ensures EmitPackageRows(lib, managers, rows).Bad?
    decreases |rows| - n
  {
    hide PackageOf, PackageItem;
    if n < |rows| {
      assert rows[..n + 1][..n] == rows[..n];
      PackageErrorStays(lib, managers, rows, n + 1);
    } else {
      assert rows[..n] == rows;
    }
  }
}
