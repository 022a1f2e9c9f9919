// The completion pipeline is idempotent, and all pass conditions hold together at its end.

module SeedSettles {
  import opened Text
  import opened Values
  import opened WgetText
  import opened SeedCommands
  import opened SeedSections
  import opened SeedRender

  // ---- dictionaries

  lemma {:induction false} GetPut(es: seq<Entry>, k: Key, v: Value, k2: Key)
    ensures Get(Put(es, k, v), k2) == if k2 == k then Some(v) else Get(es, k2)
  {
    if es != [] && es[0].key != k {
      GetPut(es[1..], k, v, k2);
      var out := Put(es, k, v);
      assert out[1..] == Put(es[1..], k, v);
    } else if es != [] {
      assert ([Entry(k, v)] + es[1..])[1..] == es[1..];
    }
  }

  lemma {:induction false} GetRemove(es: seq<Entry>, k: Key, k2: Key)
    ensures Get(RemoveKey(es, k), k2) == if k2 == k then None else Get(es, k2)
  {
    if es != [] {
      GetRemove(es[1..], k, k2);
      if es[0].key != k { assert RemoveKey(es, k)[1..] == RemoveKey(es[1..], k); }
    }
  }

  lemma GetFirst(e: Entry, es: seq<Entry>, k: Key)
    ensures Get([e] + es, k) == if e.key == k then Some(e.value) else Get(es, k)
  {
    assert ([e] + es)[1..] == es;
  }

  // ---- dropping empty key lists

  function DropEntry(e: Entry): Entry {
    Entry(e.key, DropEmpty(e.value))
  }

  function DropEntries(es: seq<Entry>): seq<Entry> {
    WithoutEmptyKeys(seq(|es|, i requires 0 <= i < |es| => DropEntry(es[i])))
  }

  lemma DropDict(es: seq<Entry>)
    ensures DropEmpty(Dict(es)) == Dict(DropEntries(es))
  {
    assert seq(|es|, i requires 0 <= i < |es| => Entry(es[i].key, DropEmpty(es[i].value)))
        == seq(|es|, i requires 0 <= i < |es| => DropEntry(es[i]));
  }

  lemma DropEntriesStep(es: seq<Entry>)
    requires es != []
    ensures DropEntries(es)
      == if EmptyKeyList(DropEntry(es[0])) then DropEntries(es[1..]) else [DropEntry(es[0])] + DropEntries(es[1..])
  {
    var all := seq(|es|, i requires 0 <= i < |es| => DropEntry(es[i]));
    assert all[1..] == seq(|es[1..]|, i requires 0 <= i < |es[1..]| => DropEntry(es[1..][i]));
  }

  // Other keys keep their place and their value, cleaned.
  lemma {:induction false} GetDrop(es: seq<Entry>, k: Key)
    requires !SshKeys(k)
    ensures Get(DropEntries(es), k) == match Get(es, k) case Some(v) => Some(DropEmpty(v)) case None => None
  {
    hide DropEmpty, WithoutEmptyKeys;
    if es == [] {
      assert DropEntries(es) == [] by { DropNone(); }
    } else {
      DropEntriesStep(es);
      GetDrop(es[1..], k);
      GetFirst(DropEntry(es[0]), DropEntries(es[1..]), k);
    }
  }

  lemma DropNone()
    ensures DropEntries([]) == []
  {
  }

  lemma {:induction false} DropTwice(v: Value)
    ensures DropEmpty(DropEmpty(v)) == DropEmpty(v)
  {
    match v
    case List(items) =>
      forall i | 0 <= i < |items| ensures DropEmpty(DropEmpty(items[i])) == DropEmpty(items[i]) { DropTwice(items[i]); }
    case Dict(es) =>
      forall i | 0 <= i < |es|
        ensures DropEmpty(DropEmpty(es[i].value)) == DropEmpty(es[i].value) { DropTwice(es[i].value); }
      DropDict(es);
      DropDict(DropEntries(es));
      DropEntriesTwice(es);
    case _ =>
  }

  lemma {:induction false} DropEntriesTwice(es: seq<Entry>)
    requires forall i | 0 <= i < |es| :: DropEmpty(DropEmpty(es[i].value)) == DropEmpty(es[i].value)
    ensures DropEntries(DropEntries(es)) == DropEntries(es)
  {
    hide DropEmpty, WithoutEmptyKeys;
    if es == [] {
      DropNone();
    } else {
      DropEntriesStep(es);
      DropEntriesTwice(es[1..]);
      if !EmptyKeyList(DropEntry(es[0])) {
        assert DropEntries(es)[1..] == DropEntries(es[1..]);
        DropEntriesStep(DropEntries(es));
        assert DropEntry(DropEntry(es[0])) == DropEntry(es[0]);
      }
    }
  }

  // Nothing to drop in the value.
  predicate Clean(v: Value) {
    DropEmpty(v) == v
  }

  ghost predicate AllClean(items: seq<Value>) {
    forall i | 0 <= i < |items| :: Clean(items[i])
  }

  lemma CleanList(items: seq<Value>)
    ensures Clean(List(items)) <==> AllClean(items)
  {
    var dropped := seq(|items|, i requires 0 <= i < |items| => DropEmpty(items[i]));
    if AllClean(items) { assert dropped == items; }
    if Clean(List(items)) {
      forall i | 0 <= i < |items| ensures Clean(items[i]) { assert dropped[i] == items[i]; }
    }
  }

  lemma CleanText(s: string)
    ensures Clean(Str(s))
  {
  }

  // A dropped value is text, a list or a mapping exactly when the original is.
  lemma DropShape(v: Value)
    ensures DropEmpty(v).Dict? == v.Dict? && DropEmpty(v).Str? == v.Str? && DropEmpty(v).List? == v.List?
    ensures v.Str? ==> DropEmpty(v) == v
  {
  }

  // ---- clean commands stay clean

  lemma CleanRewritten(cmd: Value)
    requires Clean(cmd)
    ensures Clean(RewrittenCommand(cmd))
  {
    match cmd
    case Str(s) => CleanText(Normalized(s));
    case List(parts) =>
      CleanList(parts);
      forall i | 0 <= i < |parts| ensures Clean(RewrittenParts(parts)[i]) { CleanText(POST_FILE); }
      CleanList(RewrittenParts(parts));
    case _ =>
  }

  lemma CleanAllRewritten(cmds: seq<Value>)
    requires AllClean(cmds)
    ensures AllClean(RewrittenAll(cmds))
  {
    hide Clean, RewrittenCommand;
    forall i | 0 <= i < |cmds| ensures Clean(RewrittenAll(cmds)[i]) { CleanRewritten(cmds[i]); }
  }

  lemma {:induction false} CleanNotInline(py: Python, cmds: seq<Value>)
    requires AllClean(cmds)
    ensures AllClean(NotInline(py, cmds))
  {
    hide Clean, Inline;
    if cmds != [] { CleanNotInline(py, cmds[1..]); }
  }

  lemma CleanEarly(py: Python, g: Generated, o: Option<Value>)
    requires Sound(py) && WellMade(g) && AllClean(ItemsOf(o))
    ensures AllClean(Early(py, g, o).items)
  {
    hide Clean, RewrittenAll, WellMade, Early, Sound;
    var c := EarlyIs(py, g, o);
    CleanNotInline(py, ItemsOf(o));
    CleanText(g.wifi);
    CleanText(g.imaging);
    CleanText(g.confirm);
    CleanAllRewritten(Built(g, c, AddsImaging(py, g, o), AddsWifi(py, o), NotInline(py, ItemsOf(o))));
  }

  lemma CleanForced(py: Python, g: Generated, o: Option<Value>)
    requires AllClean(ItemsOf(o))
    ensures WithReboot(py, g, o).List? && AllClean(WithReboot(py, g, o).items)
  {
    hide Clean, Async, HasReboot;
    CleanText(g.reboot);
  }

  lemma CleanUefi(py: Python, g: Generated, o: Option<Value>)
    requires AllClean(ItemsOf(o))
    ensures WithUefi(py, g, o).List? && AllClean(WithUefi(py, g, o).items)
  {
    hide Clean, HasReboot, AnyMentions;
    CleanText(g.uefi);
  }

  lemma CleanLate(py: Python, g: Generated, order: bool, o: Option<Value>)
    requires AllClean(ItemsOf(o))
    ensures Late(py, g, order, o).List? && AllClean(Late(py, g, order, o).items)
  {
    hide AllClean, WithReboot, WithUefi, RewrittenAll;
    if IsList(o) { CleanAllRewritten(o.value.items); }
    CleanForced(py, g, Rewritten(o));
    CleanUefi(py, g, Some(WithReboot(py, g, Rewritten(o))));
  }

  lemma CleanLog(py: Python, g: Generated, o: Option<Value>)
    requires AllClean(ItemsOf(o))
    ensures AllClean(WithLog(py, g, o).items)
  {
    hide Clean, HasLog;
    CleanText(g.log);
  }

  // ---- network

  lemma MatchDropped(es: seq<Entry>)
    ensures MatchesByName(DropEntries(es)) == MatchesByName(es)
  {
    hide DropEntries, DropEmpty, Get;
    GetDrop(es, KStr("match"));
    match Get(es, KStr("match"))
    case Some(Dict(ms)) =>
      DropDict(ms);
      GetDrop(ms, KStr("name"));
      if Get(ms, KStr("name")).Some? { DropShape(Get(ms, KStr("name")).value); }
    case Some(v) => DropShape(v);
    case None =>
  }

  lemma HasDropped(es: seq<Entry>, k: Key)
    requires !SshKeys(k)
    ensures HasKey(DropEntries(es), k) == HasKey(es, k)
  {
    hide DropEntries;
    GetDrop(es, k);
  }

  // A card matched by name says whether it is optional.
  predicate CardOk(v: Value) {
    v.Dict? && MatchesByName(v.entries) ==> HasKey(v.entries, KStr("optional"))
  }

  lemma CardMade(v: Value)
    ensures CardOk(OptionalCard(v))
  {
    hide MatchesByName;
    if v.Dict? && MatchesByName(v.entries) && !HasKey(v.entries, KStr("optional")) {
      var es := v.entries + [Entry(KStr("optional"), Bool(true))];
      assert es[|v.entries|].key == KStr("optional");
    }
  }

  // The pass leaves exactly these cards alone.
  lemma CardIs(v: Value)
    ensures CardOk(v) <==> OptionalCard(v) == v
  {
    hide MatchesByName;
    if v.Dict? { assert |v.entries + [Entry(KStr("optional"), Bool(true))]| == |v.entries| + 1; }
  }

  lemma CardDropped(v: Value)
    requires CardOk(v)
    ensures CardOk(DropEmpty(v))
  {
    hide MatchesByName, DropEntries, HasKey, DropEmpty;
    DropShape(v);
    if v.Dict? {
      DropDict(v.entries);
      MatchDropped(v.entries);
      HasDropped(v.entries, KStr("optional"));
    }
  }

  ghost predicate CardsOk(es: seq<Entry>) {
    forall i | 0 <= i < |es| :: CardOk(es[i].value)
  }

  ghost predicate NetworkOk(v: Value) {
    v.Dict? ==> forall i | 0 <= i < |v.entries| && v.entries[i].key == KStr("ethernets") && v.entries[i].value.Dict? ::
      CardsOk(v.entries[i].value.entries)
  }

  lemma CardsMade(es: seq<Entry>)
    ensures CardsOk(OptionalCards(es)) && (CardsOk(es) ==> OptionalCards(es) == es)
  {
    hide OptionalCard;
    forall i | 0 <= i < |es| ensures CardOk(OptionalCards(es)[i].value) { CardMade(es[i].value); }
    if CardsOk(es) {
      forall i | 0 <= i < |es| ensures OptionalCards(es)[i] == es[i] { CardIs(es[i].value); }
    }
  }

  // The same cards in the same order; one that was not fine says at its end that it is optional.
  ghost predicate OnlyMadeOptional(es: seq<Entry>, out: seq<Entry>) {
    && |out| == |es|
    && forall i | 0 <= i < |es| ::
         && out[i].key == es[i].key
         && out[i].value
           == if CardOk(es[i].value) then es[i].value
             else Dict(es[i].value.entries + [Entry(KStr("optional"), Bool(true))])
  }

  lemma OnlyCards(es: seq<Entry>)
    ensures OnlyMadeOptional(es, OptionalCards(es))
  {
    hide MatchesByName, HasKey;
  }

  // Only the cards under `ethernets` change.
  ghost predicate OnlyEthernets(es: seq<Entry>, out: seq<Entry>) {
    && |out| == |es|
    && forall i | 0 <= i < |es| ::
         if es[i].key == KStr("ethernets") && es[i].value.Dict?
         then out[i].key == es[i].key && out[i].value.Dict?
           && OnlyMadeOptional(es[i].value.entries, out[i].value.entries)
         else out[i] == es[i]
  }

  // Every catch-all card says whether it is optional, nothing else changes, and a network that is fine stays.
  lemma NetworkMade(v: Value)
    ensures NetworkOk(OptionalNetwork(v)) && (NetworkOk(v) ==> OptionalNetwork(v) == v)
    ensures if v.Dict? then OptionalNetwork(v).Dict? && OnlyEthernets(v.entries, OptionalNetwork(v).entries)
      else OptionalNetwork(v) == v
  {
    hide CardsOk, OptionalCards, OnlyMadeOptional;
    if v.Dict? {
      var es, out := v.entries, OptionalNetwork(v).entries;
      forall i | 0 <= i < |es| && es[i].value.Dict?
        ensures CardsOk(OptionalCards(es[i].value.entries))
          && OnlyMadeOptional(es[i].value.entries, OptionalCards(es[i].value.entries))
        ensures CardsOk(es[i].value.entries) ==> OptionalCards(es[i].value.entries) == es[i].value.entries
      {
        CardsMade(es[i].value.entries);
        OnlyCards(es[i].value.entries);
      }
      assert forall i | 0 <= i < |es| :: out[i] == OptionalEntry(es[i]);
      if NetworkOk(v) { assert out == es; }
    }
  }

  lemma {:induction false} CardsDropped(es: seq<Entry>)
    requires CardsOk(es)
    ensures CardsOk(DropEntries(es))
  {
    hide CardOk, DropEmpty, WithoutEmptyKeys;
    if es == [] {
      DropNone();
    } else {
      DropEntriesStep(es);
      CardsDropped(es[1..]);
      assert CardOk(es[0].value);
      CardDropped(es[0].value);
    }
  }

  lemma {:induction false} EthernetsDropped(es: seq<Entry>)
    requires NetworkOk(Dict(es))
    ensures NetworkOk(Dict(DropEntries(es)))
  {
    hide CardsOk, DropEmpty, WithoutEmptyKeys;
    if es == [] {
      DropNone();
    } else {
      DropEntriesStep(es);
      assert NetworkOk(Dict(es[1..])) by {
        assert forall i | 0 <= i < |es[1..]| :: es[1..][i] == es[i + 1];
      }
      EthernetsDropped(es[1..]);
      var v := es[0].value;
      DropShape(v);
      if es[0].key == KStr("ethernets") && v.Dict? {
        CardsDropped(v.entries);
        DropDict(v.entries);
      }
    }
  }

  lemma NetworkDropped(v: Value)
    requires NetworkOk(v)
    ensures NetworkOk(DropEmpty(v))
  {
    hide NetworkOk, DropEntries;
    DropShape(v);
    if v.Dict? {
      EthernetsDropped(v.entries);
      DropDict(v.entries);
    } else {
      NotDictOk(DropEmpty(v));
    }
  }

  lemma NotDictOk(v: Value)
    requires !v.Dict?
    ensures NetworkOk(v)
  {
  }

  // ---- install source

  // The driver switch is there, and the id is the wanted one, or absent when none is known.
  predicate SourceOk(c: Config, es: seq<Entry>) {
    && HasKey(es, KStr("search_drivers"))
    && Get(es, KStr("id")) == if Wanted(c, es) == "" then None else Some(Str(Wanted(c, es)))
  }

  lemma StripTwice(s: string)
    ensures Strip(Strip(s)) == Strip(s)
  {
    StripTrims(s);
    StripTrims(Strip(s));
  }

  lemma FieldOf(py: Python, es: seq<Entry>, k: string, s: string)
    requires Sound(py) && Get(es, KStr(k)) == Some(Str(s)) && Strip(s) == s
    ensures Field(py, es, k) == s
  {
    hide Strip;
    StripBlank("");
  }

  lemma MergedGet(c: Config, es: seq<Entry>, k: Key)
    ensures Get(MergedSource(c, es), k)
         == if k == KStr("search_drivers") then Some(match Get(es, k) case Some(v) => v case None => Bool(false))
            else if k == KStr("id") && Wanted(c, es) != "" then Some(Str(Wanted(c, es)))
            else if k == KStr("id") then None
            else Get(es, k)
  {
    hide Get, HasKey, Strip, Put, RemoveKey;
    var drivers := match Get(es, KStr("search_drivers")) case Some(v) => v case None => Bool(false);
    var rest := RemoveKey(es, KStr("search_drivers"));
    var base := [Entry(KStr("search_drivers"), drivers)] + rest;
    GetFirst(Entry(KStr("search_drivers"), drivers), rest, k);
    GetRemove(es, KStr("search_drivers"), k);
    GetPut(base, KStr("id"), Str(Wanted(c, es)), k);
    GetRemove(base, KStr("id"), k);
    assert HasKey(base, KStr("id")) <==> Get(base, KStr("id")).Some?;
    GetFirst(Entry(KStr("search_drivers"), drivers), rest, KStr("id"));
    GetRemove(es, KStr("search_drivers"), KStr("id"));
  }

  lemma MergedOk(c: Config, es: seq<Entry>)
    requires Sound(c.py)
    ensures SourceOk(c, MergedSource(c, es))
  {
    hide Get, HasKey, Strip, MergedSource;
    var merged := MergedSource(c, es);
    MergedGet(c, es, KStr("search_drivers"));
    MergedGet(c, es, KStr("id"));
    assert HasKey(merged, KStr("search_drivers")) <==> Get(merged, KStr("search_drivers")).Some?;
    var w := Wanted(c, es);
    WantedTrimmed(c, es);
    StripBlank("");
    if w != "" { FieldOf(c.py, merged, "id", w); }
  }

  lemma WantedTrimmed(c: Config, es: seq<Entry>)
    ensures Strip(Wanted(c, es)) == Wanted(c, es)
  {
    hide Strip;
    StripTwice(TextOr(c.py, Get(es, KStr("id")), ""));
    StripTwice(c.sourceId);
  }

  lemma SourceOkIsSame(c: Config, es: seq<Entry>)
    ensures SourceOk(c, es) <==> SameDict(es, MergedSource(c, es))
  {
    hide Get, HasKey, Wanted, MergedSource;
    var merged := MergedSource(c, es);
    forall k: Key ensures Get(merged, k)
         == if k == KStr("search_drivers") then Some(match Get(es, k) case Some(v) => v case None => Bool(false))
            else if k == KStr("id") && Wanted(c, es) != "" then Some(Str(Wanted(c, es)))
            else if k == KStr("id") then None
            else Get(es, k) { MergedGet(c, es, k); }
    assert HasKey(es, KStr("search_drivers")) <==> Get(es, KStr("search_drivers")).Some?;
  }

  lemma SourceSettles(c: Config, o: Option<Value>)
    requires Sound(c.py)
    ensures Sourced(c, o).Dict? && SourceOk(c, Sourced(c, o).entries)
    ensures o.Some? && o.value.Dict? && SourceOk(c, o.value.entries) ==> Sourced(c, o) == o.value
  {
    hide SourceOk, SameDict, MergedSource;
    MergedOk(c, EntriesOf(o));
    SourceOkIsSame(c, EntriesOf(o));
  }

  lemma SourceDropped(c: Config, es: seq<Entry>)
    requires Sound(c.py) && SourceOk(c, es)
    ensures SourceOk(c, DropEntries(es))
  {
    hide Get, HasKey, DropEntries, Strip;
    HasDropped(es, KStr("search_drivers"));
    GetDrop(es, KStr("id"));
    CleanText(Wanted(c, es));
  }

  // ---- identity

  lemma SafeTwice(name: string)
    ensures SafeName(SafeName(name)) == SafeName(name) && Strip(SafeName(name)) == SafeName(name)
  {
    hide Strip, Lower, Contains;
    StripTwice(name);
    Ubuntu();
  }

  lemma Ubuntu()
    ensures Strip("ubuntu") == "ubuntu" && Lower("ubuntu") == "ubuntu"
  {
    StripTrims("ubuntu");
  }

  // Complete or not completable, and no reserved name.
  predicate IdentityOk(py: Python, es: seq<Entry>, found: Person) {
    && (Whole(PersonOf(py, es)) || !Whole(MergedPerson(py, es, found)))
    && (SafeName(Field(py, es, "username")) == "" || SafeName(Field(py, es, "username")) == Field(py, es, "username"))
  }

  lemma IdentityUnchanged(py: Python, o: Option<Value>, found: Person)
    requires IdentityOk(py, EntriesOf(o), found)
    ensures Sanitized(py, Identified(py, o, found)) == o
  {
    hide PersonOf, MergedPerson, SafeName, Field;
  }

  lemma PutFields(py: Python, es: seq<Entry>, p: Person)
    requires Sound(py) && Strip(p.hostname) == p.hostname && Strip(p.username) == p.username
      && Strip(p.password) == p.password
    ensures PersonOf(py, PutPerson(es, p)) == p
  {
    hide Get, Put, Strip;
    var a := Put(es, KStr("hostname"), Str(p.hostname));
    var b := Put(a, KStr("username"), Str(p.username));
    var d := Put(b, KStr("password"), Str(p.password));
    GetPut(es, KStr("hostname"), Str(p.hostname), KStr("hostname"));
    GetPut(a, KStr("username"), Str(p.username), KStr("hostname"));
    GetPut(a, KStr("username"), Str(p.username), KStr("username"));
    GetPut(b, KStr("password"), Str(p.password), KStr("hostname"));
    GetPut(b, KStr("password"), Str(p.password), KStr("username"));
    GetPut(b, KStr("password"), Str(p.password), KStr("password"));
    FieldOf(py, d, "hostname", p.hostname);
    FieldOf(py, d, "username", p.username);
    FieldOf(py, d, "password", p.password);
  }

  lemma MergedTrimmed(py: Python, es: seq<Entry>, found: Person)
    ensures var p := MergedPerson(py, es, found);
      Strip(p.hostname) == p.hostname && Strip(p.username) == p.username && Strip(p.password) == p.password
  {
    hide Strip, SafeName, TextOr;
    StripTwice(TextOr(py, Get(es, KStr("hostname")), found.hostname));
    StripTwice(TextOr(py, Get(es, KStr("password")), found.password));
    SafeTwice(Strip(TextOr(py, Get(es, KStr("username")), found.username)));
  }

  lemma FilledIdentityOk(py: Python, es: seq<Entry>, found: Person)
    requires Sound(py)
    ensures var p := MergedPerson(py, es, found); Whole(p) ==> IdentityOk(py, PutPerson(es, p), found)
  {
    hide Strip, PutPerson, Get, SafeName, PersonOf;
    var p := MergedPerson(py, es, found);
    MergedTrimmed(py, es, found);
    PutFields(py, es, p);
    SafeTwice(Strip(TextOr(py, Get(es, KStr("username")), found.username)));
    PersonParts(py, PutPerson(es, p));
  }

  lemma PersonParts(py: Python, es: seq<Entry>)
    ensures PersonOf(py, es).username == Field(py, es, "username")
  {
  }

  // A new account name changes neither the host name nor the password.
  lemma RenamedIdentityOk(py: Python, es: seq<Entry>, found: Person)
    requires Sound(py) && (Whole(PersonOf(py, es)) || !Whole(MergedPerson(py, es, found)))
    ensures var safe := SafeName(Field(py, es, "username"));
      safe != "" ==> IdentityOk(py, Put(es, KStr("username"), Str(safe)), found)
  {
    hide Strip, Put, Get, SafeName;
    var current := Field(py, es, "username");
    var safe := SafeName(current);
    if safe != "" {
      var out := Put(es, KStr("username"), Str(safe));
      GetPut(es, KStr("username"), Str(safe), KStr("hostname"));
      GetPut(es, KStr("username"), Str(safe), KStr("username"));
      GetPut(es, KStr("username"), Str(safe), KStr("password"));
      SafeTwice(current);
      FieldOf(py, out, "username", safe);
      SafeBlank();
      assert TextOr(py, Get(es, KStr("username")), "") != "" by { StripBlank(""); }
      assert TextOr(py, Get(es, KStr("username")), found.username) == TextOr(py, Get(es, KStr("username")), "");
    }
  }

  lemma SafeBlank()
    ensures SafeName("") == "" && Strip("") == ""
  {
    StripBlank("");
  }

  // The identity is in order after the two passes, and one that is in order stays as it is.
  lemma IdentitySettles(py: Python, o: Option<Value>, found: Person)
    requires Sound(py)
    ensures IdentityOk(py, EntriesOf(Sanitized(py, Identified(py, o, found))), found)
    ensures IdentityOk(py, EntriesOf(o), found) ==> Sanitized(py, Identified(py, o, found)) == o
  {
    if IdentityOk(py, EntriesOf(o), found) { IdentityUnchanged(py, o, found); }
    hide PersonOf, MergedPerson, SafeName, Field, Put, PutPerson;
    var es := EntriesOf(o);
    FilledIdentityOk(py, es, found);
    var one := Identified(py, o, found);
    RenamedIdentityOk(py, EntriesOf(one), found);
    NobodyOk(py);
  }

  lemma NobodyOk(py: Python)
    ensures Field(py, [], "username") == "" && SafeName("") == ""
  {
    StripBlank("");
  }
}
