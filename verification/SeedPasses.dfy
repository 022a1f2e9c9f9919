// The passes as the pipeline runs them: each edits the mapping in place and says whether it changed anything.

module SeedPasses {
  import opened Text
  import opened Values
  import opened WgetText
  import opened SeedCommands
  import opened SeedSections
  import opened SeedRender
  import opened SeedSettles
  import opened SeedIdentity
  import opened SeedPipeline

  // The early, error and late command passes find nothing to do.
  predicate CommandsQuiet(c: Config, a: Auto) {
    && EarlyCommands in a && ErrorCommands in a
    && (var v := a[EarlyCommands];
        && WithWifi(c.py, c.generated, Some(v)) == v && WithImaging(c.py, c.generated, Some(v)) == v
        && WithConfirm(c.py, c.generated, Some(v)) == v && Rewritten(Some(v)) == Some(v))
    && WithLog(c.py, c.generated, Some(a[ErrorCommands])) == a[ErrorCommands]
    && Rewritten(At(a, LateCommands)) == At(a, LateCommands)
  }

  predicate MappingsQuiet(c: Config, a: Auto) {
    && WithNetwork(a) == a && Timezone !in a
    && Source in a && Sourced(c, Some(a[Source])) == a[Source]
    && WithIdentity(c.py, a) == a
  }

  predicate LateQuiet(c: Config, a: Auto) {
    && LateCommands in a && WithReboot(c.py, c.generated, Some(a[LateCommands])) == a[LateCommands]
    && (c.order ==> WithUefi(c.py, c.generated, Some(a[LateCommands])) == a[LateCommands])
  }

  lemma EarlyQuiet(c: Config, v: Value)
    requires v.List? && HasWifi(c.py, v.items) && HasImaging(c.py, v.items) && HasConfirm(c.py, v.items)
      && NoInline(c.py, v.items)
    requires RewrittenAll(v.items) == v.items
    ensures WithWifi(c.py, c.generated, Some(v)) == v && WithImaging(c.py, c.generated, Some(v)) == v
    ensures WithConfirm(c.py, c.generated, Some(v)) == v && Rewritten(Some(v)) == Some(v)
  {
    hide HasWifi, HasImaging, HasConfirm, RewrittenAll;
    NotInlineIs(c.py, v.items);
  }

  lemma LateIsQuiet(c: Config, v: Value)
    requires v.List? && LateSettled(c.py, c.order, v.items)
    ensures WithReboot(c.py, c.generated, Some(v)) == v && Rewritten(Some(v)) == Some(v)
    ensures c.order ==> WithUefi(c.py, c.generated, Some(v)) == v
  {
    hide HasReboot, RewrittenAll, AnyMentions, Async;
    assert Synchronous(c.py, c.generated, v.items) == v.items;
  }

  // A finished and marked mapping is quiet for every pass.
  lemma FinishedQuiet(c: Config, a: Auto)
    requires ConfigOk(c) && Done(c, a) && Marked(c, a)
    ensures Filled(c, a) == a && CommandsQuiet(c, a) && MappingsQuiet(c, a) && LateQuiet(c, a) && DropAuto(a) == a
  {
    hide DropEmpty, DropAuto, AllClean, WithLog, HasConfirm, NoInline, RewrittenAll, HasLog, LateSettled, NetworkOk,
      SourceOk, HasWifi, HasImaging, WellMade, Sound, Filled, Sourced, OptionalNetwork, Sanitized, Identified,
      FromUserData, IdentityOk, WithWifi, WithImaging, WithConfirm, WithReboot, WithUefi, Rewritten;
    EarlyQuiet(c, a[EarlyCommands]);
    LogUnchanged(c.py, c.generated, a[ErrorCommands]);
    LateIsQuiet(c, a[LateCommands]);
    if Network in a { NetworkMade(a[Network]); }
    SourceSettles(c, At(a, Source));
    IdentityUnchanged(c.py, At(a, Identity), FromUserData(c.py, EntriesOf(At(a, UserData))));
    IdentityFrom(c.py, a);
  }

  // ---- the sweep, down the tree

  // A section after the sweep: gone, or swept itself.
  function SectionSwept(m: Auto, k: Slot): Option<Value>
    requires k in m
  {
    if SshSlot(k) && m[k] == List([]) then None else Some(DropEmpty(m[k]))
  }

  lemma SectionsSwept(m: Auto, k: Slot)
    ensures At(DropAuto(m), k) == if k in m then SectionSwept(m, k) else None
  {
    hide DropEmpty;
  }

  lemma {:induction false} WithoutLonger(es: seq<Entry>, e: Entry)
    ensures WithoutEmptyKeys(es + [e]) == WithoutEmptyKeys(es) + if EmptyKeyList(e) then [] else [e]
  {
    if es == [] {
      assert es + [e] == [e] && [e][1..] == [];
    } else {
      assert (es + [e])[1..] == es[1..] + [e];
      WithoutLonger(es[1..], e);
    }
  }

  lemma PrefixDropped(es: seq<Entry>, n: nat)
    requires n < |es|
    ensures DropEntries(es[..n + 1]) == DropEntries(es[..n]) + if EmptyKeyList(DropEntry(es[n])) then []
      else [DropEntry(es[n])]
  {
    hide DropEmpty, EmptyKeyList;
    var a := seq(n, i requires 0 <= i < n => DropEntry(es[..n][i]));
    var b := seq(n + 1, i requires 0 <= i < n + 1 => DropEntry(es[..n + 1][i]));
    assert b == a + [DropEntry(es[n])];
    WithoutLonger(a, DropEntry(es[n]));
  }

  // Delete the empty key lists of a mapping and sweep everything below; the flag says whether anything went.
  method SweepTree(v: Value) returns (w: Value, changed: bool)
    ensures w == DropEmpty(v) && (changed <==> w != v)
    decreases v, 1
  {
    match v
    case Dict(es) =>
      var kept: seq<Entry>;
      kept, changed := SweepEntries(v);
      DropDict(es);
      w := Dict(kept);
    case List(items) =>
      var swept: seq<Value> := [];
      changed := false;
      var n := 0;
      while n < |items|
        invariant n <= |items| && |swept| == n && forall i | 0 <= i < n :: swept[i] == DropEmpty(items[i])
        invariant changed <==> swept != items[..n]
      {
        assert items[..n + 1] == items[..n] + [items[n]];
        var x, c := SweepTree(items[n]);
        ghost var before := swept;
        swept := swept + [x];
        changed := changed || c;
        assert swept[..n] == before && swept[n] == x;
        n := n + 1;
      }
      assert items[..n] == items;
      w := List(swept);
    case _ => w, changed := v, false;
  }

  method SweepEntries(v: Value) returns (kept: seq<Entry>, changed: bool)
    requires v.Dict?
    ensures kept == DropEntries(v.entries) && (changed <==> kept != v.entries)
    decreases v, 0
  {
    var es := v.entries;
    hide DropEmpty;
    kept, changed := [], false;
    DropNone();
    var n := 0;
    while n < |es|
      invariant n <= |es| && kept == DropEntries(es[..n]) && |kept| <= n
      invariant changed <==> kept != es[..n]
    {
      var e := es[n];
      PrefixDropped(es, n);
      EmptyListIs(e.value);
      assert es[..n + 1] == es[..n] + [e];
      if EmptyKeyList(e) {
        changed := true;
      } else {
        var x, c := SweepTree(e.value);
        ghost var before := kept;
        kept := kept + [Entry(e.key, x)];
        changed := changed || c;
        assert kept[..|before|] == before && kept[|before|] == Entry(e.key, x);
        if |before| == n { assert kept == es[..n + 1] <==> before == es[..n] && x == e.value; }
      }
      n := n + 1;
    }
    assert es[..n] == es;
  }

  // ---- what the passes make of each section

  function CommandAt(c: Config, d: Auto, k: Slot): Option<Value> {
    match k
    case EarlyCommands => Some(Early(c.py, c.generated, At(d, k)))
    case ErrorCommands => Some(WithLog(c.py, c.generated, At(d, k)))
    case LateCommands => Rewritten(At(d, k))
    case _ => At(d, k)
  }

  lemma CommandsAt(c: Config, d: Auto, before: Auto, after: Auto, k: Slot)
    requires var wifi := WithWifi(c.py, c.generated, At(d, EarlyCommands));
      var early := WithConfirm(c.py, c.generated, Some(WithImaging(c.py, c.generated, Some(wifi))));
      before == d[EarlyCommands := early][ErrorCommands := WithLog(c.py, c.generated, At(d, ErrorCommands))]
    requires before.Keys == after.Keys
    requires forall k | k in after ::
      Some(after[k]) == if k == EarlyCommands || k == LateCommands then Rewritten(At(before, k)) else At(before, k)
    ensures At(after, k) == CommandAt(c, d, k)
  {
    hide WithWifi, WithImaging, WithConfirm, WithLog, RewrittenAll;
    assert before[EarlyCommands].List? by { ConfirmList(c, At(d, EarlyCommands)); }
    if k == LateCommands && k !in after { assert Rewritten(None) == None; }
  }

  lemma NothingRewritten(before: Auto, after: Auto)
    requires before.Keys == after.Keys
    requires forall k | k in after ::
      Some(after[k]) == if k == EarlyCommands || k == LateCommands then Rewritten(At(before, k)) else At(before, k)
    ensures Rewritten(At(before, EarlyCommands)) == At(before, EarlyCommands)
      && Rewritten(At(before, LateCommands)) == At(before, LateCommands)
      ==> after == before
  {
    hide Rewritten;
    if Rewritten(At(before, EarlyCommands)) == At(before, EarlyCommands)
      && Rewritten(At(before, LateCommands)) == At(before, LateCommands) {
      forall k | k in after ensures after[k] == before[k] { assert Some(after[k]) == At(before, k); }
    }
  }

  function MappingAt(c: Config, d: Auto, k: Slot): Option<Value> {
    match k
    case Network => (match At(d, k) case Some(v) => Some(OptionalNetwork(v)) case None => None)
    case Timezone => None
    case Source => Some(Sourced(c, At(d, k)))
    case Identity => IdentityOf(c.py, d)
    case _ => At(d, k)
  }

  lemma MappingsAt(c: Config, d: Auto, k: Slot)
    ensures var cards := WithNetwork(d) - {Timezone};
      At(WithIdentity(c.py, cards[Source := Sourced(c, At(cards, Source))]), k) == MappingAt(c, d, k)
  {
    hide OptionalNetwork, Sourced, Sanitized, Identified, FromUserData;
    IdentityFrom(c.py, d);
  }

  class Seed {
    var auto: Auto
    var rest: seq<Entry>

    // Missing top-level defaults, key by key.
    static method FillKeys(m: Auto, ds: Auto) returns (r: Auto, changed: bool)
      ensures forall k :: k in r <==> k in m || k in ds
      ensures forall k | k in r :: r[k] == if k in m then m[k] else ds[k]
      ensures if changed then exists k :: k in r && k !in m else r == m
    {
      r, changed := m, false;
      ghost var added := Apt;
      var todo := ds.Keys;
      while todo != {}
        invariant todo <= ds.Keys && forall k :: k in r <==> k in m || (k in ds && k !in todo)
        invariant forall k | k in r :: r[k] == if k in m then m[k] else ds[k]
        invariant if changed then added in r && added !in m else r == m
        decreases |todo|
      {
        var k :| k in todo;
        if k !in r {
          r, changed, added := r[k := ds[k]], true, k;
        }
        todo := todo - {k};
      }
    }

    // Missing apt defaults.
    method FillAptSection(c: Config) returns (changed: bool)
      modifies this`auto
      ensures auto.Keys == old(auto).Keys && forall k | k in auto :: auto[k] == FilledValue(c, old(auto), k)
      ensures changed <==> auto != old(auto)
    {
      changed := false;
      if Apt in auto && Apt in c.defaults && auto[Apt].Dict? && c.defaults[Apt].Dict? {
        var filled := FillApt(auto[Apt].entries, c.defaults[Apt].entries);
        changed := Store(Apt, Dict(filled));
      }
    }

    method FillDefaults(c: Config) returns (changed: bool)
      modifies this`auto
      ensures auto == Filled(c, old(auto)) && (changed <==> auto != old(auto))
    {
      hide FillMissing;
      changed := FillAptSection(c);
      ghost var mid := auto;
      var all, added := FillKeys(auto, c.defaults);
      auto := all;
      assert auto == Filled(c, old(auto));
      if added {
        assert exists k :: k in auto && k !in mid;
        changed := true;
      }
    }

    static method FillApt(es: seq<Entry>, ds: seq<Entry>) returns (r: seq<Entry>)
      ensures r == FillMissing(es, ds)
    {
      r := es;
      var n := 0;
      while n < |ds|
        invariant n <= |ds| && r == FillMissing(es, ds[..n])
      {
        assert ds[..n + 1][..n] == ds[..n];
        if !HasKey(r, ds[n].key) { r := r + [ds[n]]; }
        n := n + 1;
      }
      assert ds[..n] == ds;
    }

    // Store a section unless the pass left it as it was.
    method Store(k: Slot, v: Value) returns (changed: bool)
      modifies this`auto
      ensures auto == old(auto)[k := v] && (changed <==> auto != old(auto))
    {
      changed := k !in auto || auto[k] != v;
      auto := auto[k := v];
    }

    method EnsureQuietWifi(c: Config) returns (changed: bool)
      modifies this`auto
      ensures auto == old(auto)[EarlyCommands := WithWifi(c.py, c.generated, At(old(auto), EarlyCommands))]
      ensures changed <==> auto != old(auto)
    {
      var cmds := At(auto, EarlyCommands);
      if !IsList(cmds) {
        changed := Store(EarlyCommands, List([Str(c.generated.wifi)]));
        assert [Str(c.generated.wifi)] + [] == [Str(c.generated.wifi)];
      } else if HasWifi(c.py, cmds.value.items) {
        changed := false;
        assert auto == auto[EarlyCommands := cmds.value];
      } else {
        changed := Store(EarlyCommands, List([Str(c.generated.wifi)] + cmds.value.items));
      }
    }

    method EnsureImaging(c: Config) returns (changed: bool)
      modifies this`auto
      ensures auto == old(auto)[EarlyCommands := WithImaging(c.py, c.generated, At(old(auto), EarlyCommands))]
      ensures changed <==> auto != old(auto)
    {
      var cmds := At(auto, EarlyCommands);
      if IsList(cmds) && HasImaging(c.py, cmds.value.items) {
        changed := false;
        assert auto == auto[EarlyCommands := cmds.value];
      } else {
        changed := Store(EarlyCommands, List([Str(c.generated.imaging)] + ItemsOf(cmds)));
      }
    }

    // Inline helpers go; the fetched one comes first.
    method EnsureConfirm(c: Config) returns (changed: bool)
      modifies this`auto
      ensures auto == old(auto)[EarlyCommands := WithConfirm(c.py, c.generated, At(old(auto), EarlyCommands))]
      ensures changed <==> auto != old(auto)
    {
      var cmds := At(auto, EarlyCommands);
      var kept := NotInline(c.py, ItemsOf(cmds));
      if IsList(cmds) && HasConfirm(c.py, kept) {
        changed := Store(EarlyCommands, List(kept));
      } else {
        changed := Store(EarlyCommands, List([Str(c.generated.confirm)] + kept));
      }
    }

    method EnsureInstallLog(c: Config) returns (changed: bool)
      modifies this`auto
      ensures auto == old(auto)[ErrorCommands := WithLog(c.py, c.generated, At(old(auto), ErrorCommands))]
      ensures changed <==> auto != old(auto)
    {
      var cmds := At(auto, ErrorCommands);
      if IsList(cmds) && HasLog(c.py, cmds.value.items) {
        changed := false;
        assert auto == auto[ErrorCommands := cmds.value];
      } else {
        changed := Store(ErrorCommands, List(ItemsOf(cmds) + [Str(c.generated.log)]));
      }
    }

    static method RewriteList(cmds: seq<Value>) returns (r: seq<Value>)
      ensures r == RewrittenAll(cmds)
    {
      r := [];
      var n := 0;
      while n < |cmds|
        invariant n <= |cmds| == |RewrittenAll(cmds)| && r == RewrittenAll(cmds)[..n]
      {
        r := r + [RewrittenCommand(cmds[n])];
        n := n + 1;
      }
    }

    // Early and late commands that are lists.
    method NormalizeWgets() returns (changed: bool)
      modifies this`auto
      ensures auto.Keys == old(auto).Keys
      ensures forall k | k in auto ::
        Some(auto[k])
          == if k == EarlyCommands || k == LateCommands then Rewritten(At(old(auto), k)) else At(old(auto), k)
      ensures changed <==> auto != old(auto)
    {
      changed := false;
      if IsList(At(auto, EarlyCommands)) {
        var r := RewriteList(auto[EarlyCommands].items);
        changed := Store(EarlyCommands, List(r));
      }
      ghost var mid := auto;
      if IsList(At(auto, LateCommands)) {
        var r := RewriteList(auto[LateCommands].items);
        var late := Store(LateCommands, List(r));
        if late {
          assert auto[LateCommands] != old(auto)[LateCommands];
          changed := true;
        } else {
          assert auto == mid;
        }
      }
    }

    static method MarkCards(es: seq<Entry>) returns (r: seq<Entry>)
      ensures r == OptionalCards(es)
    {
      r := [];
      var n := 0;
      while n < |es|
        invariant n <= |es| == |OptionalCards(es)| && r == OptionalCards(es)[..n]
      {
        r := r + [Entry(es[n].key, OptionalCard(es[n].value))];
        n := n + 1;
      }
    }

    method EnsureOptionalCards() returns (changed: bool)
      modifies this`auto
      ensures auto == WithNetwork(old(auto)) && (changed <==> auto != old(auto))
    {
      changed := false;
      if Network !in auto || !auto[Network].Dict? {
        assert Network in auto ==> auto == auto[Network := auto[Network]];
        return;
      }
      var net := auto[Network].entries;
      var out: seq<Entry> := [];
      var n := 0;
      while n < |net|
        invariant n <= |net| && |out| == n && auto == old(auto) && forall i | 0 <= i < n ::
          out[i] == OptionalEntry(net[i])
      {
        var e := net[n];
        if e.key == KStr("ethernets") && e.value.Dict? {
          var cards := MarkCards(e.value.entries);
          out := out + [Entry(e.key, Dict(cards))];
        } else {
          out := out + [e];
        }
        n := n + 1;
      }
      assert Dict(out) == OptionalNetwork(auto[Network]);
      changed := Store(Network, Dict(out));
    }

    method DropTimezone() returns (changed: bool)
      modifies this`auto
      ensures auto == old(auto) - {Timezone} && (changed <==> auto != old(auto))
    {
      changed := Timezone in auto;
      auto := auto - {Timezone};
      assert changed ==> Timezone in old(auto) && Timezone !in auto;
    }

    method EnsureSource(c: Config) returns (changed: bool)
      modifies this`auto
      ensures auto == old(auto)[Source := Sourced(c, At(old(auto), Source))]
      ensures changed <==> auto != old(auto)
    {
      var o := At(auto, Source);
      var merged := MergedSource(c, EntriesOf(o));
      if o.Some? && o.value.Dict? && SameDict(o.value.entries, merged) {
        changed := false;
        assert auto == auto[Source := o.value];
      } else {
        changed := Store(Source, Dict(merged));
      }
    }

    // Complete the identity, then replace a reserved name.
    method EnsureIdentity(c: Config) returns (changed: bool)
      modifies this`auto
      ensures auto == WithIdentity(c.py, old(auto)) && (changed <==> auto != old(auto))
    {
      changed := false;
      var o := Identified(c.py, At(auto, Identity), FromUserData(c.py, EntriesOf(At(auto, UserData))));
      var r := Sanitized(c.py, o);
      if r.Some? { changed := Store(Identity, r.value); }
    }

    method EnsureReboot(c: Config) returns (changed: bool)
      modifies this`auto
      ensures auto == old(auto)[LateCommands := WithReboot(c.py, c.generated, At(old(auto), LateCommands))]
      ensures changed <==> auto != old(auto)
    {
      var cmds := ItemsOf(At(auto, LateCommands));
      hide Async, HasReboot;
      var out: seq<Value> := [];
      var n := 0;
      while n < |cmds|
        invariant n <= |cmds| == |Synchronous(c.py, c.generated, cmds)|
          && out == Synchronous(c.py, c.generated, cmds)[..n]
        invariant auto == old(auto)
      {
        out := out + [if Async(c.py, cmds[n]) then Str(c.generated.reboot) else cmds[n]];
        n := n + 1;
      }
      assert out == Synchronous(c.py, c.generated, cmds);
      if IsList(At(auto, LateCommands)) && HasReboot(c.py, out) {
        changed := Store(LateCommands, List(out));
      } else {
        changed := Store(LateCommands, List(out + [Str(c.generated.reboot)]));
      }
    }

    // The order command runs just before the first command that reboots.
    method EnsureUefiOrder(c: Config) returns (changed: bool)
      requires IsList(At(auto, LateCommands))
      modifies this`auto
      ensures auto == old(auto)[LateCommands := if c.order then WithUefi(c.py, c.generated, At(old(auto), LateCommands))
                                                else old(auto)[LateCommands]]
      ensures changed <==> auto != old(auto)
    {
      changed := false;
      if !c.order {
        assert auto == auto[LateCommands := auto[LateCommands]];
        return;
      }
      var cmds := auto[LateCommands].items;
      if AnyMentions(c.py, cmds, UEFI) {
        assert auto == auto[LateCommands := List(cmds)];
      } else {
        var i := RebootIndex(c.py, cmds);
        changed := Store(LateCommands, List(cmds[..i] + [Str(c.generated.uefi)] + cmds[i..]));
      }
    }

    // Over the sections of `autoinstall`, one key at a time.
    method SweepSections() returns (changed: bool)
      modifies this`auto
      ensures auto == DropAuto(old(auto)) && (changed <==> auto != old(auto))
    {
      hide DropEmpty, DropAuto;
      changed := false;
      ghost var was, at := auto, Apt;
      var todo := auto.Keys;
      while todo != {}
        invariant todo <= was.Keys
        invariant forall k: Slot :: At(auto, k) == if k in was && k !in todo then SectionSwept(was, k) else At(was, k)
        invariant if changed then at in was && at !in todo && SectionSwept(was, at) != Some(was[at])
                  else forall k | k in was && k !in todo :: SectionSwept(was, k) == Some(was[k])
        decreases |todo|
      {
        var k :| k in todo;
        assert At(auto, k) == Some(was[k]);
        if SshSlot(k) && auto[k] == List([]) {
          auto := auto - {k};
          changed, at := true, k;
        } else {
          var v, swept := SweepTree(auto[k]);
          auto := auto[k := v];
          if swept { changed, at := true, k; }
        }
        todo := todo - {k};
      }
      forall k: Slot ensures At(auto, k) == At(DropAuto(was), k) { SectionsSwept(was, k); }
      SameAuto(auto, DropAuto(was));
      if changed {
        assert At(auto, at) != At(was, at);
      } else {
        forall k: Slot ensures At(auto, k) == At(was, k) {}
        SameAuto(auto, was);
      }
    }

    // The whole parsed seed: its `autoinstall` sections and everything beside them.
    method DropEmptyKeys() returns (changed: bool)
      modifies this`auto, this`rest
      ensures auto == DropAuto(old(auto)) && rest == DropRest(old(rest))
      ensures changed <==> auto != old(auto) || rest != old(rest)
    {
      hide DropAuto;
      changed := SweepSections();
      var tree, swept := SweepTree(Dict(rest));
      changed := changed || swept;
      rest := tree.entries;
    }

    // Early and error commands, then the wget rewrite.
    method CompleteCommands(c: Config) returns (changed: bool)
      modifies this`auto
      ensures forall k: Slot :: At(auto, k) == CommandAt(c, old(auto), k)
      ensures !changed ==> auto == old(auto)
      ensures CommandsQuiet(c, old(auto)) ==> !changed
    {
      hide WithWifi, WithImaging, WithConfirm, WithLog, Rewritten, CommandAt;
      ghost var d := auto;
      changed := EnsureQuietWifi(c);
      var p := EnsureImaging(c);
      changed := changed || p;
      p := EnsureConfirm(c);
      changed := changed || p;
      p := EnsureInstallLog(c);
      changed := changed || p;
      ghost var before := auto;
      p := NormalizeWgets();
      changed := changed || p;
      forall k: Slot ensures At(auto, k) == CommandAt(c, d, k) { CommandsAt(c, d, before, auto, k); }
      if CommandsQuiet(c, d) { NothingRewritten(before, auto); }
    }

    method CompleteMappings(c: Config) returns (changed: bool)
      modifies this`auto
      ensures forall k: Slot :: At(auto, k) == MappingAt(c, old(auto), k)
      ensures !changed ==> auto == old(auto)
      ensures MappingsQuiet(c, old(auto)) ==> !changed
    {
      hide WithNetwork, Sourced, WithIdentity, MappingAt;
      ghost var d := auto;
      changed := EnsureOptionalCards();
      var p := DropTimezone();
      changed := changed || p;
      p := EnsureSource(c);
      changed := changed || p;
      p := EnsureIdentity(c);
      changed := changed || p;
      forall k: Slot ensures At(auto, k) == MappingAt(c, d, k) { MappingsAt(c, d, k); }
    }

    method CompleteLate(c: Config) returns (changed: bool)
      modifies this`auto
      ensures forall k: Slot :: At(auto, k) == match k
        case LateCommands =>
          var forced := WithReboot(c.py, c.generated, At(old(auto), k));
          Some(if c.order then WithUefi(c.py, c.generated, Some(forced)) else forced)
        case _ => At(old(auto), k)
      ensures !changed ==> auto == old(auto)
      ensures LateQuiet(c, old(auto)) ==> !changed
    {
      hide WithReboot, WithUefi;
      RebootList(c, At(auto, LateCommands));
      changed := EnsureReboot(c);
      var p := EnsureUefiOrder(c);
      changed := changed || p;
    }

    // Every pass between the defaults and the final sweep.
    method Treat(c: Config) returns (changed: bool)
      modifies this`auto
      ensures auto == Treated(c, old(auto))
      ensures !changed ==> auto == old(auto)
      ensures CommandsQuiet(c, old(auto)) && MappingsQuiet(c, old(auto)) && LateQuiet(c, old(auto)) ==> !changed
    {
      hide Early, WithLog, Rewritten, OptionalNetwork, Sourced, Sanitized, Identified, FromUserData, WithReboot,
        WithUefi, Treated;
      hide CommandsQuiet, MappingsQuiet, LateQuiet;
      ghost var d := auto;
      changed := CompleteCommands(c);
      var p := CompleteMappings(c);
      changed := changed || p;
      p := CompleteLate(c);
      changed := changed || p;
      forall k: Slot ensures At(auto, k) == At(Treated(c, d), k) { TreatedAt(c, d, k); }
      SameAuto(auto, Treated(c, d));
    }

    // The pipeline in the order it runs. It reports no change only when it made none, and none on a finished seed.
    method CompleteInPlace(c: Config) returns (changed: bool)
      modifies this
      ensures Doc(auto, rest) == Complete(c, old(Doc(auto, rest)))
      ensures !changed ==> auto == old(auto) && rest == old(rest)
      ensures ConfigOk(c) && Done(c, old(auto)) && Marked(c, old(auto)) && DropRest(old(rest)) == old(rest) ==> !changed
    {
      hide ConfigOk, Done, Marked, CommandsQuiet, MappingsQuiet, LateQuiet, Filled, Treated, DropAuto, DropRest;
      if ConfigOk(c) && Done(c, auto) && Marked(c, auto) { FinishedQuiet(c, auto); }
      changed := FillDefaults(c);
      var p := Treat(c);
      changed := changed || p;
      p := DropEmptyKeys();
      changed := changed || p;
    }
  }

  lemma ConfirmList(c: Config, o: Option<Value>)
    ensures WithConfirm(c.py, c.generated,
      Some(WithImaging(c.py, c.generated, Some(WithWifi(c.py, c.generated, o))))).List?
  {
  }

  lemma RebootList(c: Config, o: Option<Value>)
    ensures WithReboot(c.py, c.generated, o).List?
  {
  }
}
