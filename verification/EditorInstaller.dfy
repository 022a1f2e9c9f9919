// The installer half of the editor: posted form state back to the `autoinstall` mapping, key by key.
// The field views and emitters are arbitrary here, so the results do not depend on any schema.

module EditorInstaller {
  import opened Text
  import opened Values
  import opened EditorForm

  const USER_DATA := KStr("user-data")

  // The installer form: modelled keys in schema order, and what the editor does with each.
  datatype Form = Form(
    order: seq<string>,
    view: (string, Value) -> Option<Value>,
    emit: (string, Value) -> Emitted,
    sameState: (Value, Value) -> bool)

  ghost predicate WfForm(form: Form) {
    && (forall i, j | 0 <= i < j < |form.order| :: form.order[i] != form.order[j])
    && (forall s: Value {:trigger form.sameState(s, s)} :: form.sameState(s, s))
  }

  // The other installer keys, as posted: left alone, or replaced by a parsed mapping; None is unreadable text.
  datatype ExtraEdit = Unchanged | Edited(entries: Option<seq<Entry>>)

  datatype InstallerState = InstallerState(doc: seq<Entry>, extra: seq<Entry>)

  function ShownState(form: Form, e: Entry): Option<Value> {
    if e.key.KStr? && e.key.s in form.order then form.view(e.key.s, e.value) else None
  }

  // Split the mapping into what the form shows and the rest.
  function InstallerView(form: Form, original: seq<Entry>): InstallerState {
    if original == [] then InstallerState([], []) else
    var prev, last := InstallerView(form, original[..|original| - 1]), original[|original| - 1];
    match ShownState(form, last)
    case Some(state) => InstallerState(prev.doc + [Entry(last.key, state)], prev.extra)
    case None => InstallerState(prev.doc, prev.extra + [last])
  }

  // One modelled key: untouched keys keep their original value.
  function EmitKey(form: Form, raw: seq<Entry>, doc: seq<Entry>, original: seq<Entry>, k: string): Emitted {
    var posted, shown, was := Get(raw, KStr(k)), Get(doc, KStr(k)), Get(original, KStr(k));
    if posted.None? then Omit
    else if shown.Some? && was.Some? && form.sameState(posted.value, shown.value) then Val(was.value)
    else form.emit(k, posted.value)
  }

  // Emitted values of the first n modelled keys.
  function EmitKeys(form: Form, raw: seq<Entry>, doc: seq<Entry>, original: seq<Entry>, n: nat): Built<seq<Entry>>
    requires n <= |form.order|
  {
    if n == 0 then Ok([]) else
    var prev, k := EmitKeys(form, raw, doc, original, n - 1), form.order[n - 1];
    if prev.Bad? then Bad
    else match EmitKey(form, raw, doc, original, k)
      case Raise => Bad
      case Omit => prev
      case Val(v) => Ok(prev.out + [Entry(KStr(k), v)])
  }

  function ExtraOf(view: InstallerState, edit: ExtraEdit): Built<seq<Entry>> {
    match edit
    case Unchanged => Ok(view.extra)
    case Edited(None) => Bad
    case Edited(Some(es)) => Ok(Blockify(Dict(es)).entries)
  }

  // Original keys first, in their order, then the new ones.
  function Survivors(original: seq<Entry>, combined: seq<Entry>): seq<Entry> {
    if original == [] then [] else
    var prev, k := Survivors(original[..|original| - 1], combined), original[|original| - 1].key;
    match Get(combined, k)
    case Some(v) => prev + [Entry(k, v)]
    case None => prev
  }

  function Newcomers(original: seq<Entry>, combined: seq<Entry>): seq<Entry> {
    if combined == [] then [] else
    var prev, last := Newcomers(original, combined[..|combined| - 1]), combined[|combined| - 1];
    if HasKey(original, last.key) then prev else prev + [last]
  }

  function Ordered(original: seq<Entry>, combined: seq<Entry>): seq<Entry> {
    Survivors(original, combined) + Newcomers(original, combined)
  }

  predicate Overlap(a: seq<Entry>, b: seq<Entry>) {
    exists i | 0 <= i < |b| :: HasKey(a, b[i].key)
  }

  function EmitInstaller(form: Form, raw: seq<Entry>, edit: ExtraEdit, original: seq<Entry>): Built<seq<Entry>> {
    var view := InstallerView(form, original);
    var emitted := EmitKeys(form, raw, view.doc, original, |form.order|);
    var extra := ExtraOf(view, edit);
    if emitted.Bad? || extra.Bad? || HasKey(extra.out, USER_DATA) || Overlap(emitted.out, extra.out) then Bad
    else Ok(Ordered(original, emitted.out + extra.out))
  }

  // ---- the posted keys, in the source's own loop

  method EmitModelledKeys(form: Form, raw: seq<Entry>, doc: seq<Entry>, original: seq<Entry>)
    returns (result: Built<seq<Entry>>)
    ensures result == EmitKeys(form, raw, doc, original, |form.order|)
  {
    var emitted: seq<Entry> := [];
    var i := 0;
    while i < |form.order|
      invariant i <= |form.order|
      invariant EmitKeys(form, raw, doc, original, i) == Ok(emitted)
    {
      var k := form.order[i];
      match EmitKey(form, raw, doc, original, k) {
        case Raise =>
          BadStays(form, raw, doc, original, i + 1, |form.order|);
          return Bad;
        case Omit =>
        case Val(v) => emitted := emitted + [Entry(KStr(k), v)];
      }
      i := i + 1;
    }
    result := Ok(emitted);
  }

  lemma {:induction false} BadStays(form: Form, raw: seq<Entry>, doc: seq<Entry>, original: seq<Entry>, i: nat, n: nat)
    requires i <= n <= |form.order| && EmitKeys(form, raw, doc, original, i).Bad?
    ensures EmitKeys(form, raw, doc, original, n).Bad?
  {
    if i < n { BadStays(form, raw, doc, original, i, n - 1); }
  }

  // ---- lookups

  lemma {:induction false} GetAppend(a: seq<Entry>, b: seq<Entry>, k: Key)
    ensures Get(a + b, k) == if HasKey(a, k) then Get(a, k) else Get(b, k)
  {
    if a == [] {
      assert a + b == b;
    } else {
      assert (a + b)[1..] == a[1..] + b && (a + b)[0] == a[0];
      GetAppend(a[1..], b, k);
      if HasKey(a, k) && a[0].key != k {
        var i :| 0 <= i < |a| && a[i].key == k;
        assert a[1..][i - 1].key == k;
      }
    }
  }

  lemma HasAppend(a: seq<Entry>, b: seq<Entry>, k: Key)
    ensures HasKey(a + b, k) <==> HasKey(a, k) || HasKey(b, k)
  {
    var all := a + b;
    assert forall i | 0 <= i < |a| :: all[i] == a[i];
    assert forall i | 0 <= i < |b| :: all[|a| + i] == b[i];
  }

  // What the view keeps of each original key.
  lemma {:induction false} ViewGet(form: Form, original: seq<Entry>, i: nat)
    requires DistinctKeys(original) && i < |original|
    ensures var view, e := InstallerView(form, original), original[i];
      && Get(view.doc, e.key) == ShownState(form, e)
      && Get(view.extra, e.key) == (if ShownState(form, e).Some? then None else Some(e.value))
  {
    hide Get;
    var n := |original| - 1;
    var before, last := original[..n], original[n];
    var prev, e := InstallerView(form, before), original[i];
    if i < n {
      assert before[i] == e && last.key != e.key;
      ViewGet(form, before, i);
    } else {
      ViewKeys(form, before, e.key);
    }
    OneEntry(last, e.key);
    match ShownState(form, last)
    case Some(state) => GetAppend(prev.doc, [Entry(last.key, state)], e.key); OneEntry(Entry(last.key, state), e.key);
    case None => GetAppend(prev.extra, [last], e.key);
  }

  lemma OneEntry(e: Entry, k: Key)
    ensures Get([e], k) == if e.key == k then Some(e.value) else None
  {
    assert [e][1..] == [];
  }

  lemma {:induction false} ViewKeys(form: Form, original: seq<Entry>, k: Key)
    ensures var view := InstallerView(form, original);
      (HasKey(view.doc, k) || HasKey(view.extra, k) ==> HasKey(original, k))
      && (HasKey(view.doc, k) ==> k.KStr? && k.s in form.order)
  {
    hide HasKey;
    if original != [] {
      var n := |original| - 1;
      var prev, last := InstallerView(form, original[..n]), original[n];
      ViewKeys(form, original[..n], k);
      assert original == original[..n] + [last];
      HasAppend(original[..n], [last], k);
      HasOne(last, k);
      match ShownState(form, last)
      case Some(state) => HasAppend(prev.doc, [Entry(last.key, state)], k); HasOne(Entry(last.key, state), k);
      case None => HasAppend(prev.extra, [last], k);
    } else {
      HasNone(k);
    }
  }

  lemma HasOne(e: Entry, k: Key)
    ensures HasKey([e], k) <==> e.key == k
  {
    assert [e][0] == e;
  }

  lemma HasNone(k: Key)
    ensures !HasKey([], k)
  {
  }

  // The emitted value of every modelled key.
  lemma {:induction false} EmitGet(form: Form, raw: seq<Entry>, doc: seq<Entry>, original: seq<Entry>, n: nat, k: Key)
    requires WfForm(form) && n <= |form.order| && EmitKeys(form, raw, doc, original, n).Ok?
    ensures var r := Get(EmitKeys(form, raw, doc, original, n).out, k);
      if k.KStr? && k.s in form.order[..n]
      then var e := EmitKey(form, raw, doc, original, k.s); !e.Raise? && r == (if e.Val? then Some(e.v) else None)
      else r.None?
  {
    hide Get, EmitKey, HasKey;
    if n > 0 {
      var key := form.order[n - 1];
      var prev := EmitKeys(form, raw, doc, original, n - 1);
      EmitGet(form, raw, doc, original, n - 1, k);
      assert form.order[..n] == form.order[..n - 1] + [key];
      assert key !in form.order[..n - 1];
      match EmitKey(form, raw, doc, original, key)
      case Val(v) =>
        GetAppend(prev.out, [Entry(KStr(key), v)], k);
        OneEntry(Entry(KStr(key), v), k);
        assert HasKey(prev.out, k) <==> Get(prev.out, k).Some?;
      case _ =>
    } else {
      NoneToGet(k);
    }
  }

  lemma NoneToGet(k: Key)
    ensures Get([], k) == None
  {
  }

  // A combined mapping over the original keys is laid out in the original order.
  lemma {:induction false} SurvivorsAre(original: seq<Entry>, combined: seq<Entry>, target: seq<Entry>)
    requires |target| == |original|
    requires forall i | 0 <= i < |original| ::
      target[i].key == original[i].key && Get(combined, original[i].key) == Some(target[i].value)
    ensures Survivors(original, combined) == target
  {
    hide Get;
    if original != [] {
      var n := |original| - 1;
      SurvivorsAre(original[..n], combined, target[..n]);
      assert target == target[..n] + [target[n]];
    }
  }

  lemma {:induction false} NoNewcomers(original: seq<Entry>, combined: seq<Entry>)
    requires forall i | 0 <= i < |combined| :: HasKey(original, combined[i].key)
    ensures Newcomers(original, combined) == []
  {
    hide HasKey;
    if combined != [] { NoNewcomers(original, combined[..|combined| - 1]); }
  }

  // ---- the results

  // Every key of the emitted and other keys, when the other keys are left alone.
  lemma CombinedGet(form: Form, raw: seq<Entry>, original: seq<Entry>, i: nat)
    requires WfForm(form) && DistinctKeys(original) && i < |original|
    requires EmitKeys(form, raw, InstallerView(form, original).doc, original, |form.order|).Ok?
    requires forall j | 0 <= j < |raw| :: HasKey(InstallerView(form, original).doc, raw[j].key)
    ensures var view, e := InstallerView(form, original), original[i];
      var combined := EmitKeys(form, raw, view.doc, original, |form.order|).out + view.extra;
      if ShownState(form, e).None? then Get(combined, e.key) == Some(e.value)
      else
        var r := EmitKey(form, raw, view.doc, original, e.key.s);
        Get(combined, e.key) == if r.Val? then Some(r.v) else None
  {
    hide Get, EmitKey, EmitKeys, HasKey;
    var view, e := InstallerView(form, original), original[i];
    var out := EmitKeys(form, raw, view.doc, original, |form.order|).out;
    ViewGet(form, original, i);
    EmitGet(form, raw, view.doc, original, |form.order|, e.key);
    assert form.order[..|form.order|] == form.order;
    GetAppend(out, view.extra, e.key);
    assert HasKey(out, e.key) <==> Get(out, e.key).Some?;
    if ShownState(form, e).None? && e.key.KStr? {
      NotPosted(form, raw, view.doc, original, e.key.s);
    }
  }

  lemma NotPosted(form: Form, raw: seq<Entry>, doc: seq<Entry>, original: seq<Entry>, k: string)
    requires forall j | 0 <= j < |raw| :: HasKey(doc, raw[j].key)
    requires Get(doc, KStr(k)).None?
    ensures EmitKey(form, raw, doc, original, k) == Omit
  {
    forall j | 0 <= j < |raw| ensures raw[j].key != KStr(k) {
      assert HasKey(doc, raw[j].key);
    }
  }

  // The combined mapping has no key the original lacks, and the two halves never share one.
  lemma CombinedKeys(form: Form, raw: seq<Entry>, original: seq<Entry>)
    requires WfForm(form) && DistinctKeys(original) && !HasKey(original, USER_DATA)
    requires EmitKeys(form, raw, InstallerView(form, original).doc, original, |form.order|).Ok?
    requires forall j | 0 <= j < |raw| :: HasKey(InstallerView(form, original).doc, raw[j].key)
    ensures var view := InstallerView(form, original);
      var out := EmitKeys(form, raw, view.doc, original, |form.order|).out;
      && !HasKey(view.extra, USER_DATA) && !Overlap(out, view.extra)
      && (forall j | 0 <= j < |out + view.extra| :: HasKey(original, (out + view.extra)[j].key))
  {
    hide EmitKey, EmitKeys, InstallerView, HasKey;
    var view := InstallerView(form, original);
    var out := EmitKeys(form, raw, view.doc, original, |form.order|).out;
    ViewKeys(form, original, USER_DATA);
    forall k: Key ensures HasKey(out, k) ==> HasKey(view.doc, k) && HasKey(original, k) {
      EmitGet(form, raw, view.doc, original, |form.order|, k);
      ViewKeys(form, original, k);
      if k.KStr? && !HasKey(view.doc, k) { NotPosted(form, raw, view.doc, original, k.s); }
    }
    forall j | 0 <= j < |view.extra| ensures !HasKey(out, view.extra[j].key) && HasKey(original, view.extra[j].key) {
      HereKey(view.extra, j);
      ViewKeys(form, original, view.extra[j].key);
      Apart(form, original, view.extra[j].key);
    }
    forall j | 0 <= j < |out + view.extra| ensures HasKey(original, (out + view.extra)[j].key) {
      if j < |out| { HereKey(out, j); }
    }
  }

  lemma HereKey(es: seq<Entry>, j: nat)
    requires j < |es|
    ensures HasKey(es, es[j].key)
  {
  }

  // No key is both in the form and among the other keys.
  lemma Apart(form: Form, original: seq<Entry>, k: Key)
    requires DistinctKeys(original) && HasKey(InstallerView(form, original).extra, k)
    ensures !HasKey(InstallerView(form, original).doc, k)
  {
    ViewKeys(form, original, k);
    var i :| 0 <= i < |original| && original[i].key == k;
    ViewGet(form, original, i);
  }

  // Posting back exactly what the view showed returns the original mapping: same keys, values and order.
  lemma UntouchedInstaller(form: Form, original: seq<Entry>)
    requires WfForm(form) && DistinctKeys(original) && !HasKey(original, USER_DATA)
    ensures EmitInstaller(form, InstallerView(form, original).doc, Unchanged, original) == Ok(original)
  {
    hide HasKey, Get;
    var view := InstallerView(form, original);
    DocReturns(form, original, |form.order|);
    forall j | 0 <= j < |view.doc| ensures HasKey(view.doc, view.doc[j].key) { HereKey(view.doc, j); }
    CombinedKeys(form, view.doc, original);
    var combined := EmitKeys(form, view.doc, view.doc, original, |form.order|).out + view.extra;
    forall i | 0 <= i < |original| ensures Get(combined, original[i].key) == Some(original[i].value) {
      CombinedGet(form, view.doc, original, i);
      ViewGet(form, original, i);
      GetAt(original, i);
    }
    SurvivorsAre(original, combined, original);
    NoNewcomers(original, combined);
    assert Survivors(original, combined) + [] == original;
  }

  lemma {:induction false} GetAt(es: seq<Entry>, i: nat)
    requires DistinctKeys(es) && i < |es|
    ensures Get(es, es[i].key) == Some(es[i].value)
  {
    if i > 0 {
      assert es[0].key != es[i].key && es[1..][i - 1] == es[i];
      GetAt(es[1..], i - 1);
    }
  }

  // No untouched key raises.
  lemma {:induction false} DocReturns(form: Form, original: seq<Entry>, n: nat)
    requires WfForm(form) && DistinctKeys(original) && n <= |form.order|
    ensures var doc := InstallerView(form, original).doc; EmitKeys(form, doc, doc, original, n).Ok?
  {
    hide Get, InstallerView;
    if n > 0 {
      DocReturns(form, original, n - 1);
      var doc, k := InstallerView(form, original).doc, KStr(form.order[n - 1]);
      ViewKeys(form, original, k);
      assert HasKey(doc, k) <==> Get(doc, k).Some?;
      assert HasKey(original, k) <==> Get(original, k).Some?;
    }
  }

  // Changing one shown key replaces exactly that value, in place; clearing it removes exactly that key.
  lemma EditOneKey(form: Form, original: seq<Entry>, raw: seq<Entry>, i: nat)
    requires WfForm(form) && DistinctKeys(original) && !HasKey(original, USER_DATA) && i < |original|
    requires var doc, k := InstallerView(form, original).doc, original[i].key;
      && ShownState(form, original[i]).Some? && HasKey(raw, k)
      && (forall j | 0 <= j < |raw| :: HasKey(doc, raw[j].key))
      && (forall j | 0 <= j < |original| && j != i :: Get(raw, original[j].key) == Get(doc, original[j].key))
      && !form.sameState(Get(raw, k).value, ShownState(form, original[i]).value)
      && !form.emit(k.s, Get(raw, k).value).Raise?
    ensures EmitInstaller(form, raw, Unchanged, original)
         == match form.emit(original[i].key.s, Get(raw, original[i].key).value)
            case Val(v) => Ok(original[i := Entry(original[i].key, v)])
            case _ => Ok(original[..i] + original[i + 1..])
  {
    hide HasKey, Get, InstallerView, EmitKeys, EmitKey;
    var view, k := InstallerView(form, original), original[i].key;
    var r := form.emit(k.s, Get(raw, k).value);
    EditReturns(form, original, raw, i, |form.order|);
    CombinedKeys(form, raw, original);
    var combined := EmitKeys(form, raw, view.doc, original, |form.order|).out + view.extra;
    forall j | 0 <= j < |original|
      ensures Get(combined, original[j].key)
        == if j != i then Some(original[j].value) else if r.Val? then Some(r.v) else None
    {
      CombinedGet(form, raw, original, j);
      EditKey(form, original, raw, i, j);
    }
    NoNewcomers(original, combined);
    if r.Val? {
      SurvivorsAre(original, combined, original[i := Entry(k, r.v)]);
      assert original[i := Entry(k, r.v)] + [] == original[i := Entry(k, r.v)];
    } else {
      SurvivorsWithout(original, combined, i);
      var left := original[..i] + original[i + 1..];
      assert left + [] == left;
    }
  }

  lemma {:induction false} SurvivorsWithout(original: seq<Entry>, combined: seq<Entry>, i: nat)
    requires i < |original| && Get(combined, original[i].key).None?
    requires forall j | 0 <= j < |original| && j != i :: Get(combined, original[j].key) == Some(original[j].value)
    ensures Survivors(original, combined) == original[..i] + original[i + 1..]
  {
    hide Get;
    var n := |original| - 1;
    var before := original[..n];
    if i == n {
      SurvivorsAre(before, combined, before);
    } else {
      SurvivorsWithout(before, combined, i);
      assert before[..i] == original[..i] && before[i + 1..] + [original[n]] == original[i + 1..];
    }
  }

  // What one original key becomes when only key i was edited.
  lemma EditKey(form: Form, original: seq<Entry>, raw: seq<Entry>, i: nat, j: nat)
    requires WfForm(form) && DistinctKeys(original) && i < |original| && j < |original|
    requires var doc, k := InstallerView(form, original).doc, original[i].key;
      && ShownState(form, original[i]).Some? && HasKey(raw, k)
      && (j != i ==> Get(raw, original[j].key) == Get(doc, original[j].key))
      && !form.sameState(Get(raw, k).value, ShownState(form, original[i]).value)
    ensures ShownState(form, original[j]).Some? ==>
      EmitKey(form, raw, InstallerView(form, original).doc, original, original[j].key.s)
        == if j == i then form.emit(original[i].key.s, Get(raw, original[i].key).value) else Val(original[j].value)
  {
    ViewGet(form, original, j);
    GetAt(original, j);
  }

  lemma {:induction false} EditReturns(form: Form, original: seq<Entry>, raw: seq<Entry>, i: nat, n: nat)
    requires WfForm(form) && DistinctKeys(original) && i < |original| && n <= |form.order|
    requires var doc, k := InstallerView(form, original).doc, original[i].key;
      && ShownState(form, original[i]).Some? && HasKey(raw, k)
      && (forall j | 0 <= j < |raw| :: HasKey(doc, raw[j].key))
      && (forall j | 0 <= j < |original| && j != i :: Get(raw, original[j].key) == Get(doc, original[j].key))
      && !form.sameState(Get(raw, k).value, ShownState(form, original[i]).value)
      && !form.emit(k.s, Get(raw, k).value).Raise?
    ensures EmitKeys(form, raw, InstallerView(form, original).doc, original, n).Ok?
  {
    hide Get, InstallerView, EmitKey;
    if n > 0 {
      EditReturns(form, original, raw, i, n - 1);
      var doc, k := InstallerView(form, original).doc, form.order[n - 1];
      if Get(doc, KStr(k)).None? {
        NotPosted(form, raw, doc, original, k);
      } else {
        ViewKeys(form, original, KStr(k));
        var j :| 0 <= j < |original| && original[j].key == KStr(k);
        ViewGet(form, original, j);
        EditKey(form, original, raw, i, j);
      }
    }
  }

  // ---- any edit

  // What an original key becomes: kept when the form never showed it or shows it unchanged, gone when it was cleared,
  // and emitted anew when it was changed.
  function EditedValue(form: Form, raw: seq<Entry>, e: Entry): Emitted {
    match ShownState(form, e)
    case None => Val(e.value)
    case Some(shown) =>
      match Get(raw, e.key)
      case None => Omit
      case Some(posted) => if form.sameState(posted, shown) then Val(e.value) else form.emit(e.key.s, posted)
  }

  // The original keys after the edit, in their order.
  function EditedKeys(form: Form, raw: seq<Entry>, es: seq<Entry>): seq<Entry> {
    if es == [] then [] else
    var prev, e := EditedKeys(form, raw, es[..|es| - 1]), es[|es| - 1];
    match EditedValue(form, raw, e)
    case Val(v) => prev + [Entry(e.key, v)]
    case _ => prev
  }

  // Posted keys the seed did not have, in schema order.
  function NewKeys(form: Form, raw: seq<Entry>, original: seq<Entry>, n: nat): seq<Entry>
    requires n <= |form.order|
  {
    if n == 0 then [] else
    var prev, k := NewKeys(form, raw, original, n - 1), form.order[n - 1];
    if HasKey(original, KStr(k)) || Get(raw, KStr(k)).None? then prev
    else match form.emit(k, Get(raw, KStr(k)).value)
      case Val(v) => prev + [Entry(KStr(k), v)]
      case _ => prev
  }

  // The posted state of one modelled key cannot be saved: it raises, or the seed has the key in a shape the form never
  // showed, so that it would be set twice.
  predicate Refuses(form: Form, raw: seq<Entry>, original: seq<Entry>, k: string) {
    var posted, was := Get(raw, KStr(k)), Get(original, KStr(k));
    posted.Some? &&
    var shown := if was.Some? then ShownState(form, Entry(KStr(k), was.value)) else None;
    var emitted := form.emit(k, posted.value);
    if was.Some? && shown.None? then !emitted.Omit?
    else !(was.Some? && form.sameState(posted.value, shown.value)) && emitted.Raise?
  }

  // The document the form shows.
  function Doc(form: Form, original: seq<Entry>): seq<Entry> {
    InstallerView(form, original).doc
  }

  // What the view says about one key.
  lemma ViewOf(form: Form, original: seq<Entry>, k: Key)
    requires DistinctKeys(original)
    ensures var view, was := InstallerView(form, original), Get(original, k);
      && Get(view.doc, k) == (if was.None? then None else ShownState(form, Entry(k, was.value)))
      && Get(view.extra, k) == (if was.None? || ShownState(form, Entry(k, was.value)).Some? then None else was)
  {
    hide Get, HasKey, InstallerView, ShownState;
    ViewKeys(form, original, k);
    var view := InstallerView(form, original);
    assert HasKey(view.doc, k) <==> Get(view.doc, k).Some?;
    assert HasKey(view.extra, k) <==> Get(view.extra, k).Some?;
    assert HasKey(original, k) <==> Get(original, k).Some?;
    if Get(original, k).Some? {
      var i :| 0 <= i < |original| && original[i] == Entry(k, Get(original, k).value);
      ViewGet(form, original, i);
    }
  }

  lemma {:induction false} KeysRefused(form: Form, raw: seq<Entry>, doc: seq<Entry>, original: seq<Entry>, n: nat)
    requires n <= |form.order|
    ensures EmitKeys(form, raw, doc, original, n).Bad? <==> exists i | 0 <= i < n ::
      EmitKey(form, raw, doc, original, form.order[i]).Raise?
  {
    hide EmitKey;
    if n > 0 { KeysRefused(form, raw, doc, original, n - 1); }
  }

  // The emitted keys and the kept ones never meet unless some key is refused.
  lemma RefusedIs(form: Form, raw: seq<Entry>, original: seq<Entry>)
    requires WfForm(form) && DistinctKeys(original)
    ensures var view := InstallerView(form, original);
      var r := EmitKeys(form, raw, view.doc, original, |form.order|);
      (r.Bad? || Overlap(r.out, view.extra)) <==> exists i | 0 <= i < |form.order| ::
        Refuses(form, raw, original, form.order[i])
  {
    hide Get, HasKey, InstallerView, ShownState, WfForm, EmitKeys;
    var view := InstallerView(form, original);
    var r := EmitKeys(form, raw, view.doc, original, |form.order|);
    KeysRefused(form, raw, view.doc, original, |form.order|);
    forall i | 0 <= i < |form.order|
      ensures EmitKey(form, raw, view.doc, original, form.order[i]).Raise? ==>
        Refuses(form, raw, original, form.order[i]) {
      ViewOf(form, original, KStr(form.order[i]));
    }
    if i :| 0 <= i < |form.order| && Refuses(form, raw, original, form.order[i]) {
      var k := KStr(form.order[i]);
      ViewOf(form, original, k);
      if r.Ok? {
        EmitGet(form, raw, view.doc, original, |form.order|, k);
        assert form.order[i] in form.order[..|form.order|];
        OverlapAt(r.out, view.extra, k);
      }
    }
    if r.Ok? && Overlap(r.out, view.extra) {
      var j :| 0 <= j < |view.extra| && HasKey(r.out, view.extra[j].key);
      var k := view.extra[j].key;
      EmitGet(form, raw, view.doc, original, |form.order|, k);
      assert HasKey(r.out, k) <==> Get(r.out, k).Some?;
      assert HasKey(view.extra, k) <==> Get(view.extra, k).Some?;
      HereKey(view.extra, j);
      ViewOf(form, original, k);
      var i :| 0 <= i < |form.order| && form.order[i] == k.s;
      assert Refuses(form, raw, original, form.order[i]);
    }
  }

  lemma OverlapAt(a: seq<Entry>, b: seq<Entry>, k: Key)
    requires Get(a, k).Some? && Get(b, k).Some?
    ensures Overlap(a, b)
  {
    hide Get;
    var j :| 0 <= j < |b| && b[j].key == k;
    assert HasKey(a, b[j].key);
  }

  lemma {:induction false} SurvivorsEdited(form: Form, raw: seq<Entry>, es: seq<Entry>, combined: seq<Entry>)
    requires forall i | 0 <= i < |es| :: Get(combined, es[i].key) == match EditedValue(form, raw, es[i])
      case Val(v) => Some(v) case _ => None
    ensures Survivors(es, combined) == EditedKeys(form, raw, es)
  {
    hide Get, EditedValue;
    if es != [] {
      assert forall i | 0 <= i < |es| - 1 :: es[..|es| - 1][i] == es[i];
      SurvivorsEdited(form, raw, es[..|es| - 1], combined);
    }
  }

  // What one original key becomes, once nothing is refused.
  lemma CombinedEdited(form: Form, raw: seq<Entry>, original: seq<Entry>, i: nat)
    requires WfForm(form) && DistinctKeys(original) && i < |original|
    requires EmitKeys(form, raw, Doc(form, original), original, |form.order|).Ok?
    requires !Overlap(EmitKeys(form, raw, Doc(form, original), original, |form.order|).out,
      InstallerView(form, original).extra)
    ensures var combined :=
      EmitKeys(form, raw, Doc(form, original), original, |form.order|).out + InstallerView(form, original).extra;
      Get(combined, original[i].key) == match EditedValue(form, raw, original[i]) case Val(v) => Some(v) case _ => None
  {
    hide Get, HasKey, InstallerView, WfForm, EmitKeys, Overlap;
    var view, e := InstallerView(form, original), original[i];
    var out := EmitKeys(form, raw, view.doc, original, |form.order|).out;
    GetAt(original, i);
    ViewOf(form, original, e.key);
    GetAppend(out, view.extra, e.key);
    EmitGet(form, raw, view.doc, original, |form.order|, e.key);
    assert HasKey(out, e.key) <==> Get(out, e.key).Some?;
    if Get(out, e.key).Some? && Get(view.extra, e.key).Some? { OverlapAt(out, view.extra, e.key); }
    assert form.order[..|form.order|] == form.order;
  }

  lemma {:induction false} NewKeysAre(form: Form, raw: seq<Entry>, original: seq<Entry>, n: nat)
    requires DistinctKeys(original) && n <= |form.order| && EmitKeys(form, raw, Doc(form, original), original, n).Ok?
    ensures Newcomers(original, EmitKeys(form, raw, Doc(form, original), original, n).out)
      == NewKeys(form, raw, original, n)
  {
    hide Get, HasKey, InstallerView, ShownState;
    if n > 0 {
      NewKeysAre(form, raw, original, n - 1);
      var k := KStr(form.order[n - 1]);
      ViewOf(form, original, k);
      assert HasKey(original, k) <==> Get(original, k).Some?;
      var prev := EmitKeys(form, raw, Doc(form, original), original, n - 1).out;
      var e := EmitKey(form, raw, Doc(form, original), original, form.order[n - 1]);
      if e.Val? { assert (prev + [Entry(k, e.v)])[..|prev|] == prev; }
    }
  }

  lemma {:induction false} NewcomersAppend(original: seq<Entry>, a: seq<Entry>, b: seq<Entry>)
    requires forall j | 0 <= j < |b| :: HasKey(original, b[j].key)
    ensures Newcomers(original, a + b) == Newcomers(original, a)
  {
    hide HasKey;
    if b == [] {
      assert a + b == a;
    } else {
      var n := |b| - 1;
      assert (a + b)[..|a| + n] == a + b[..n] && (a + b)[|a| + n] == b[n];
      NewcomersAppend(original, a, b[..n]);
    }
  }

  // Main theorem: any posted document is refused key by key, or every original key is edited where it stands by what
  // was posted for it alone, and the keys the seed did not have follow in schema order.
  lemma EditInstaller(form: Form, original: seq<Entry>, raw: seq<Entry>)
    requires WfForm(form) && DistinctKeys(original) && !HasKey(original, USER_DATA)
    ensures EmitInstaller(form, raw, Unchanged, original)
         == if exists i | 0 <= i < |form.order| :: Refuses(form, raw, original, form.order[i]) then Bad
            else Ok(EditedKeys(form, raw, original) + NewKeys(form, raw, original, |form.order|))
  {
    hide Get, HasKey, InstallerView, WfForm, EmitKeys, Overlap, Refuses, EditedValue;
    var view := InstallerView(form, original);
    RefusedIs(form, raw, original);
    ViewKeys(form, original, USER_DATA);
    var r := EmitKeys(form, raw, view.doc, original, |form.order|);
    if r.Ok? && !Overlap(r.out, view.extra) {
      forall i | 0 <= i < |original|
        ensures Get(r.out + view.extra, original[i].key) == match EditedValue(form, raw, original[i])
          case Val(v) => Some(v) case _ => None
      {
        CombinedEdited(form, raw, original, i);
      }
      SurvivorsEdited(form, raw, original, r.out + view.extra);
      forall j | 0 <= j < |view.extra| ensures HasKey(original, view.extra[j].key) {
        HereKey(view.extra, j);
        ViewKeys(form, original, view.extra[j].key);
      }
      NewcomersAppend(original, r.out, view.extra);
      NewKeysAre(form, raw, original, |form.order|);
    }
  }
}
