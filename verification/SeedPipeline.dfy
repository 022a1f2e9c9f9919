// The whole completion: what it establishes at once, and when running it again changes nothing.

module SeedPipeline {
  import opened Text
  import opened Values
  import opened WgetText
  import opened SeedCommands
  import opened SeedSections
  import opened SeedRender
  import opened SeedSettles
  import opened SeedIdentity

  // ---- what the theorems ask for

  // The default table sets no time zone and no ssh keys.
  ghost predicate DefaultsOk(c: Config) {
    && Timezone !in c.defaults && (forall k | k in c.defaults :: !SshSlot(k))
    && (Apt in c.defaults && c.defaults[Apt].Dict? ==>
          forall i | 0 <= i < |c.defaults[Apt].entries| :: !SshKeys(c.defaults[Apt].entries[i].key))
  }

  function Card(pattern: string): Value {
    Dict([Entry(KStr("match"), Dict([Entry(KStr("name"), Str(pattern))])),
          Entry(KStr("dhcp4"), Bool(true)),
          Entry(KStr("optional"), Bool(true))])
  }

  function Mirror(uri: string, arches: seq<string>): Value {
    Dict([Entry(KStr("uri"), Str(uri)),
          Entry(KStr("arches"), List(seq(|arches|, i requires 0 <= i < |arches| => Str(arches[i]))))])
  }

  const APT_DEFAULTS: seq<Entry> := [
    Entry(KStr("preserve_sources_list"), Bool(false)),
    Entry(KStr("geoip"), Bool(true)),
    Entry(KStr("fallback"), Str("offline-install")),
    Entry(KStr("mirror-selection"), Dict([Entry(KStr("primary"), List([
      Str("country-mirror"),
      Mirror("http://archive.ubuntu.com/ubuntu", ["amd64", "i386"]),
      Mirror("http://ports.ubuntu.com/ubuntu-ports", ["arm64", "armhf", "ppc64el", "riscv64", "s390x"])]))]))]

  // The installer's unattended defaults.
  const UNATTENDED: Auto := map[
    Named("locale") := Str("en_US.UTF-8"),
    Named("keyboard") := Dict([Entry(KStr("layout"), Str("us"))]),
    Named("refresh-installer") := Dict([Entry(KStr("update"), Bool(false))]),
    Source := Dict([Entry(KStr("search_drivers"), Bool(false))]),
    Network := Dict([
      Entry(KStr("version"), Int(2)),
      Entry(KStr("ethernets"), Dict([
        Entry(KStr("zz-all-en"), Card("en*")),
        Entry(KStr("zz-all-eth"), Card("eth*"))]))]),
    Apt := Dict(APT_DEFAULTS),
    Named("storage") := Dict([Entry(KStr("layout"), Dict([
      Entry(KStr("name"), Str("direct")),
      Entry(KStr("match"), Dict([Entry(KStr("size"), Str("largest"))]))]))]),
    Named("shutdown") := Str("reboot"),
    Named("updates") := Str("security")]

  lemma NotSsh(s: string)
    requires |s| != 19 && |s| != 15
    ensures !SshKeys(KStr(s)) && !SshSlot(Named(s))
  {
    assert |"ssh_authorized_keys"| == 19 && |"authorized-keys"| == 15;
  }

  // The theorems apply to the real defaults.
  lemma UnattendedOk(c: Config)
    requires c.defaults == UNATTENDED
    ensures DefaultsOk(c)
  {
    hide SshKeys, SshSlot;
    NotSsh("locale"); NotSsh("keyboard"); NotSsh("refresh-installer"); NotSsh("storage"); NotSsh("shutdown");
    NotSsh("updates"); NotSsh("preserve_sources_list"); NotSsh("geoip"); NotSsh("fallback"); NotSsh("mirror-selection");
    OtherSlots();
    assert UNATTENDED[Apt] == Dict(APT_DEFAULTS);
  }

  lemma OtherSlots()
    ensures !SshSlot(Source) && !SshSlot(Network) && !SshSlot(Apt)
  {
  }

  ghost predicate ConfigOk(c: Config) {
    Sound(c.py) && WellMade(c.generated) && DefaultsOk(c)
  }

  // No empty ssh-key list hides inside a command, which the pipeline reads as text.
  ghost predicate Readable(a: Auto) {
    AllClean(ItemsOf(At(a, EarlyCommands))) && AllClean(ItemsOf(At(a, LateCommands)))
      && AllClean(ItemsOf(At(a, ErrorCommands)))
  }

  // ---- the conditions, all together

  ghost predicate IdentityDone(c: Config, a: Auto) {
    IdentityOk(c.py, EntriesOf(At(a, Identity)), FromUserData(c.py, EntriesOf(At(a, UserData))))
  }

  // The sweep makes the next completion fill the identity again.
  predicate RefillsIdentity(c: Config, a: Auto) {
    Refills(c.py, EntriesOf(At(a, Identity)), EntriesOf(At(a, UserData)))
  }

  // Every pass but the Wi-Fi and imaging ones has nothing left to do.
  ghost predicate Done(c: Config, a: Auto) {
    SectionsDone(c, a) && IdentityDone(c, a)
  }

  ghost predicate SectionsDone(c: Config, a: Auto) {
    && Filled(c, a) == a
    && IsList(At(a, EarlyCommands)) && HasConfirm(c.py, a[EarlyCommands].items)
    && NoInline(c.py, a[EarlyCommands].items)
    && RewrittenAll(a[EarlyCommands].items) == a[EarlyCommands].items && AllClean(a[EarlyCommands].items)
    && IsList(At(a, ErrorCommands)) && HasLog(c.py, a[ErrorCommands].items)
    && IsList(At(a, LateCommands)) && LateSettled(c.py, c.order, a[LateCommands].items)
    && (Network in a ==> NetworkOk(a[Network]))
    && Timezone !in a
    && Source in a && a[Source].Dict? && SourceOk(c, a[Source].entries)
    && DropAuto(a) == a
  }

  // The installer's network is quiet and its progress is reported.
  predicate Marked(c: Config, a: Auto) {
    IsList(At(a, EarlyCommands)) && HasWifi(c.py, a[EarlyCommands].items) && HasImaging(c.py, a[EarlyCommands].items)
  }

  // ---- reading the treated mapping

  lemma TreatedAt(c: Config, d: Auto, k: Slot)
    ensures At(Treated(c, d), k) == match k
      case EarlyCommands => Some(Early(c.py, c.generated, At(d, k)))
      case ErrorCommands => Some(WithLog(c.py, c.generated, At(d, k)))
      case LateCommands => Some(Late(c.py, c.generated, c.order, At(d, k)))
      case Network => (match At(d, k) case Some(v) => Some(OptionalNetwork(v)) case None => None)
      case Timezone => None
      case Source => Some(Sourced(c, At(d, k)))
      case Identity => IdentityOf(c.py, d)
      case _ => At(d, k)
  {
    hide Early, WithLog, Late, OptionalNetwork, Sourced, Sanitized, Identified, FromUserData;
    IdentityFrom(c.py, d);
  }

  // The identity pass never removes the identity.
  lemma IdentityFrom(py: Python, a: Auto)
    ensures IdentityOf(py, a).None? ==> Identity !in a
  {
    hide FromUserData, MergedPerson, PersonOf, Field, SafeName;
  }

  // A finished mapping is a clean copy of the treated one.
  lemma DroppedAt(t: Auto, k: Slot)
    requires !SshSlot(k)
    ensures At(DropAuto(t), k) == match At(t, k) case Some(v) => Some(DropEmpty(v)) case None => None
  {
    hide DropEmpty;
  }

  lemma DropAutoTwice(t: Auto)
    ensures DropAuto(DropAuto(t)) == DropAuto(t)
  {
    hide DropEmpty;
    forall k | k in t
      ensures DropEmpty(DropEmpty(t[k])) == DropEmpty(t[k]) && (DropEmpty(t[k]) == List([]) <==> t[k] == List([])) {
      DropTwice(t[k]);
      EmptyListIs(t[k]);
    }
  }

  // ---- defaults stay filled

  lemma {:induction false} FillHas(es: seq<Entry>, ds: seq<Entry>, i: nat)
    requires i < |ds|
    ensures HasKey(FillMissing(es, ds), ds[i].key)
  {
    var n := |ds| - 1;
    var prev := FillMissing(es, ds[..n]);
    if i < n {
      FillHas(es, ds[..n], i);
      HasLonger(prev, ds[n], ds[i].key);
    } else {
      HasLonger(prev, ds[n], ds[n].key);
    }
  }

  lemma HasLonger(es: seq<Entry>, e: Entry, k: Key)
    ensures HasKey(es + [e], k) <==> HasKey(es, k) || e.key == k
  {
    if i :| 0 <= i < |es| && es[i].key == k { assert (es + [e])[i].key == k; }
    assert (es + [e])[|es|] == e;
  }

  lemma {:induction false} FillSame(es: seq<Entry>, ds: seq<Entry>)
    requires forall i | 0 <= i < |ds| :: HasKey(es, ds[i].key)
    ensures FillMissing(es, ds) == es
  {
    hide HasKey;
    if ds != [] { FillSame(es, ds[..|ds| - 1]); }
  }

  // Every default key is there, and the apt mapping has every default entry.
  ghost predicate HasDefaults(c: Config, a: Auto) {
    && (forall k | k in c.defaults :: k in a)
    && (Apt in c.defaults && c.defaults[Apt].Dict? && a[Apt].Dict? ==>
          forall i | 0 <= i < |c.defaults[Apt].entries| :: HasKey(a[Apt].entries, c.defaults[Apt].entries[i].key))
  }

  lemma FilledHas(c: Config, a: Auto)
    ensures HasDefaults(c, Filled(c, a))
  {
    hide HasKey, FillMissing;
    if Apt in c.defaults && c.defaults[Apt].Dict? {
      var ds := c.defaults[Apt].entries;
      if Apt in a && a[Apt].Dict? {
        forall i | 0 <= i < |ds|
          ensures HasKey(FillMissing(a[Apt].entries, ds), ds[i].key) { FillHas(a[Apt].entries, ds, i); }
      } else {
        forall i | 0 <= i < |ds| ensures HasKey(ds, ds[i].key) { HasHere(ds, i); }
      }
    }
  }

  lemma HasHere(es: seq<Entry>, i: nat)
    requires i < |es|
    ensures HasKey(es, es[i].key)
  {
  }

  lemma FilledSame(c: Config, a: Auto)
    requires HasDefaults(c, a)
    ensures Filled(c, a) == a
  {
    hide HasKey, FillMissing;
    if Apt in c.defaults && c.defaults[Apt].Dict? && a[Apt].Dict? { FillSame(a[Apt].entries, c.defaults[Apt].entries); }
  }

  lemma DefaultsKept(c: Config, d: Auto)
    requires DefaultsOk(c) && HasDefaults(c, d)
    ensures HasDefaults(c, DropAuto(Treated(c, d)))
  {
    hide HasKey, DropEmpty, Treated, DropAuto, DropEntries, Early, Late, WithLog, Sourced, IdentityOf, OptionalNetwork;
    var t := Treated(c, d);
    var a := DropAuto(t);
    forall k | k in c.defaults ensures k in a {
      TreatedAt(c, d, k);
      IdentityFrom(c.py, d);
      DroppedAt(t, k);
      assert At(d, k).Some?;
    }
    if Apt in c.defaults && c.defaults[Apt].Dict? && a[Apt].Dict? {
      TreatedAt(c, d, Apt);
      DroppedAt(t, Apt);
      var v := d[Apt];
      DropShape(v);
      DropDict(v.entries);
      var ds := c.defaults[Apt].entries;
      forall i | 0 <= i < |ds| ensures HasKey(a[Apt].entries, ds[i].key) { HasDropped(v.entries, ds[i].key); }
    }
  }

  // ---- the sections, finished

  lemma EarlyDone(c: Config, d: Auto)
    requires ConfigOk(c) && AllClean(ItemsOf(At(d, EarlyCommands)))
    ensures var r := Early(c.py, c.generated, At(d, EarlyCommands));
      && r.List? && AllClean(r.items) && At(DropAuto(Treated(c, d)), EarlyCommands) == Some(r)
      && HasConfirm(c.py, r.items) && NoInline(c.py, r.items) && RewrittenAll(r.items) == r.items
  {
    hide Early, DropEmpty, AllClean, Treated, DropAuto, HasConfirm, NoInline, RewrittenAll, WellMade, Sound;
    var r := Early(c.py, c.generated, At(d, EarlyCommands));
    assert r.List? by { EarlyList(c.py, c.generated, At(d, EarlyCommands)); }
    EarlySettles(c.py, c.generated, At(d, EarlyCommands));
    CleanEarly(c.py, c.generated, At(d, EarlyCommands));
    CleanList(r.items);
    TreatedAt(c, d, EarlyCommands);
    DroppedAt(Treated(c, d), EarlyCommands);
  }

  lemma EarlyList(py: Python, g: Generated, o: Option<Value>)
    ensures Early(py, g, o).List?
  {
  }

  lemma OthersDone(c: Config, d: Auto)
    requires ConfigOk(c) && AllClean(ItemsOf(At(d, LateCommands))) && AllClean(ItemsOf(At(d, ErrorCommands)))
    ensures var a := DropAuto(Treated(c, d));
      && IsList(At(a, ErrorCommands)) && HasLog(c.py, a[ErrorCommands].items)
      && IsList(At(a, LateCommands)) && LateSettled(c.py, c.order, a[LateCommands].items)
  {
    hide Late, WithLog, DropEmpty, AllClean, Treated, DropAuto, HasLog, LateSettled, WellMade, Sound;
    var late, log :=
      Late(c.py, c.generated, c.order, At(d, LateCommands)), WithLog(c.py, c.generated, At(d, ErrorCommands));
    CleanLate(c.py, c.generated, c.order, At(d, LateCommands));
    LateSettles(c.py, c.generated, c.order, At(d, LateCommands));
    CleanList(late.items);
    assert log.List? by { LogList(c.py, c.generated, At(d, ErrorCommands)); }
    CleanLog(c.py, c.generated, At(d, ErrorCommands));
    LogSettles(c.py, c.generated, At(d, ErrorCommands));
    CleanList(log.items);
    TreatedAt(c, d, LateCommands);
    TreatedAt(c, d, ErrorCommands);
    DroppedAt(Treated(c, d), LateCommands);
    DroppedAt(Treated(c, d), ErrorCommands);
  }

  lemma LogList(py: Python, g: Generated, o: Option<Value>)
    ensures WithLog(py, g, o).List?
  {
  }

  lemma NetworkAndSourceDone(c: Config, d: Auto)
    requires ConfigOk(c)
    ensures var a := DropAuto(Treated(c, d));
      && (Network in a ==> NetworkOk(a[Network])) && Timezone !in a
      && Source in a && a[Source].Dict? && SourceOk(c, a[Source].entries)
  {
    hide DropEmpty, Treated, DropAuto, OptionalNetwork, NetworkOk, Sourced, SourceOk, WellMade, Sound, DropEntries;
    var t := Treated(c, d);
    TreatedAt(c, d, Network);
    TreatedAt(c, d, Timezone);
    TreatedAt(c, d, Source);
    DroppedAt(t, Network);
    DroppedAt(t, Timezone);
    DroppedAt(t, Source);
    if Network in d {
      NetworkMade(d[Network]);
      NetworkDropped(OptionalNetwork(d[Network]));
    }
    SourceSettles(c, At(d, Source));
    var es := Sourced(c, At(d, Source)).entries;
    SourceDropped(c, es);
    DropDict(es);
  }

  // ---- the identity, finished

  // The completed identity is in order unless it refills.
  lemma IdentityFinished(c: Config, d: Auto)
    requires ConfigOk(c)
    ensures var a := DropAuto(Treated(c, d));
      && (IdentityDone(c, a) <==> !RefillsIdentity(c, d))
      && NameSafe(c.py, EntriesOf(At(a, Identity)))
  {
    hide DropEmpty, DropEntries, Treated, DropAuto, Sanitized, Identified, FromUserData, WellMade, IdentityOk, Refills,
      NameSafe;
    var t := Treated(c, d);
    var ud := At(d, UserData);
    TreatedAt(c, d, Identity);
    TreatedAt(c, d, UserData);
    DroppedAt(t, Identity);
    DroppedAt(t, UserData);
    EntriesDropped(Sanitized(c.py, Identified(c.py, At(d, Identity), FromUserData(c.py, EntriesOf(ud)))));
    EntriesDropped(ud);
    IdentityExactly(c.py, At(d, Identity), EntriesOf(ud));
  }

  // ---- the theorems

  // One completion establishes every pass condition at once, the identity's unless the sweep undoes it; the Wi-Fi and
  // imaging markers are there exactly when the seed's own ones are not lost with an inline confirm helper.
  lemma CompleteEstablishes(c: Config, doc: Doc)
    requires ConfigOk(c) && Readable(Filled(c, doc.auto))
    ensures SectionsDone(c, Complete(c, doc).auto)
    ensures IdentityDone(c, Complete(c, doc).auto) <==> !RefillsIdentity(c, Filled(c, doc.auto))
    ensures Survives(c.py, ItemsOf(At(Filled(c, doc.auto), EarlyCommands))) ==> Marked(c, Complete(c, doc).auto)
    ensures OwnMarkers(c.generated) && Marked(c, Complete(c, doc).auto) ==>
      Survives(c.py, ItemsOf(At(Filled(c, doc.auto), EarlyCommands)))
  {
    hide DropEmpty, Treated, DropAuto, AllClean, Early, HasConfirm, NoInline, RewrittenAll, HasLog, LateSettled,
      NetworkOk, SourceOk, IdentityDone, WellMade, Sound, HasWifi, HasImaging, HasDefaults, Filled, OwnMarkers,
      NotInline;
    var d := Filled(c, doc.auto);
    var a := Complete(c, doc).auto;
    FilledHas(c, doc.auto);
    DefaultsKept(c, d);
    FilledSame(c, a);
    EarlyDone(c, d);
    OthersDone(c, d);
    NetworkAndSourceDone(c, d);
    IdentityFinished(c, d);
    DropAutoTwice(Treated(c, d));
    WifiAfter(c.py, c.generated, At(d, EarlyCommands));
    ImagingAfter(c.py, c.generated, At(d, EarlyCommands));
  }

  // Everything but the early commands is left alone once done.
  lemma DoneUnchanged(c: Config, a: Auto, k: Slot)
    requires ConfigOk(c) && Done(c, a) && k != EarlyCommands
    ensures At(Treated(c, Filled(c, a)), k) == At(a, k)
  {
    hide DropEmpty, Treated, DropAuto, AllClean, Early, Late, WithLog, HasConfirm, NoInline, RewrittenAll, HasLog,
      LateSettled, NetworkOk, SourceOk, WellMade, Sound, Filled, Sourced, OptionalNetwork, Sanitized, Identified,
      FromUserData, IdentityOk;
    TreatedAt(c, a, k);
    match k
    case ErrorCommands => LogUnchanged(c.py, c.generated, a[k]);
    case LateCommands => LateUnchanged(c.py, c.generated, c.order, a[k].items);
    case Network => if k in a { NetworkMade(a[k]); }
    case Source => SourceSettles(c, At(a, k));
    case Identity => IdentityUnchanged(c.py, At(a, k), FromUserData(c.py, EntriesOf(At(a, UserData))));
    case _ =>
  }

  lemma LogUnchanged(py: Python, g: Generated, v: Value)
    requires v.List? && HasLog(py, v.items)
    ensures WithLog(py, g, Some(v)) == v
  {
  }

  lemma SameAuto(a: Auto, b: Auto)
    requires forall k: Slot :: At(a, k) == At(b, k)
    ensures a == b
  {
    forall k ensures k in a <==> k in b { assert At(a, k) == At(b, k); }
    forall k | k in a ensures a[k] == b[k] { assert At(a, k) == At(b, k); }
  }

  // A finished seed is a fixed point exactly when it is marked.
  lemma DoneTwice(c: Config, doc: Doc)
    requires ConfigOk(c) && Done(c, doc.auto) && DropRest(doc.rest) == doc.rest
    ensures Complete(c, doc) == doc <==> Marked(c, doc.auto)
  {
    hide DropEmpty, Treated, DropAuto, AllClean, Early, HasConfirm, NoInline, RewrittenAll, HasLog, LateSettled,
      NetworkOk, SourceOk, IdentityDone, WellMade, Sound, HasWifi, HasImaging, Filled, DropRest;
    var a := doc.auto;
    var items := a[EarlyCommands].items;
    EarlyUnchanged(c.py, c.generated, items);
    var t := Treated(c, a);
    TreatedAt(c, a, EarlyCommands);
    var r := Early(c.py, c.generated, At(a, EarlyCommands));
    forall k: Slot | k != EarlyCommands ensures At(t, k) == At(a, k) { DoneUnchanged(c, a, k); }
    if r == a[EarlyCommands] {
      forall k: Slot ensures At(t, k) == At(a, k) {}
      SameAuto(t, a);
    } else {
      assert r.List? by { EarlyList(c.py, c.generated, At(a, EarlyCommands)); }
      CleanEarly(c.py, c.generated, At(a, EarlyCommands));
      CleanList(r.items);
      DroppedAt(t, EarlyCommands);
      assert At(DropAuto(t), EarlyCommands) != At(a, EarlyCommands);
    }
  }

  // An identity that is not in order is filled by the next completion.
  lemma RefilledChanges(c: Config, doc: Doc)
    requires ConfigOk(c) && SectionsDone(c, doc.auto) && !IdentityDone(c, doc.auto)
    requires NameSafe(c.py, EntriesOf(At(doc.auto, Identity)))
    ensures Complete(c, doc) != doc
  {
    hide DropEmpty, DropEntries, Treated, DropAuto, Sanitized, Identified, FromUserData, WellMade, IdentityOk, NameSafe,
      Filled;
    var a := doc.auto;
    var found := FromUserData(c.py, EntriesOf(At(a, UserData)));
    RefilledDiffers(c.py, At(a, Identity), found);
    TreatedAt(c, a, Identity);
    DroppedAt(Treated(c, a), Identity);
    EntriesDropped(Sanitized(c.py, Identified(c.py, At(a, Identity), found)));
  }

  // Main theorem: completing a completed seed changes nothing exactly when its Wi-Fi and imaging markers are not only
  // in inline confirm helpers and the sweep does not make the identity refill.
  lemma CompleteTwice(c: Config, doc: Doc)
    requires ConfigOk(c) && OwnMarkers(c.generated) && Readable(Filled(c, doc.auto))
    ensures Complete(c, Complete(c, doc)) == Complete(c, doc)
       <==> Survives(c.py, ItemsOf(At(Filled(c, doc.auto), EarlyCommands))) && !RefillsIdentity(c, Filled(c, doc.auto))
  {
    hide SectionsDone, IdentityDone, Marked, Survives, Filled, Readable, WellMade, Sound, OwnMarkers, RefillsIdentity,
      NameSafe, DropRest, Treated, DropAuto;
    CompleteEstablishes(c, doc);
    assert DropRest(Complete(c, doc).rest) == Complete(c, doc).rest by { RestTwice(c, doc); }
    if RefillsIdentity(c, Filled(c, doc.auto)) {
      IdentityFinished(c, Filled(c, doc.auto));
      RefilledChanges(c, Complete(c, doc));
    } else {
      DoneTwice(c, Complete(c, doc));
    }
  }

  lemma RestTwice(c: Config, doc: Doc)
    ensures DropRest(Complete(c, doc).rest) == Complete(c, doc).rest
  {
    hide DropEmpty, DropEntries, DropAuto, Treated, Filled;
    DropDict(doc.rest);
    DropDict(DropEntries(doc.rest));
    DropTwice(Dict(doc.rest));
  }
}
