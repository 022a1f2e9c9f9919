// The identity after the sweep of empty ssh-key lists: exactly when the sweep unsettles it.

module SeedIdentity {
  import opened Text
  import opened Values
  import opened SeedCommands
  import opened SeedRender
  import opened SeedSettles

  // ---- fields the sweep empties

  // A mapping of nothing but empty ssh-key lists: text before the sweep, nothing after it.
  predicate EmptiedValue(v: Value) {
    v.Dict? && v.entries != [] && forall i | 0 <= i < |v.entries| :: EmptyKeyList(v.entries[i])
  }

  predicate Emptied(es: seq<Entry>, k: string) {
    var v := Get(es, KStr(k)); v.Some? && EmptiedValue(v.value)
  }

  lemma EmptyListIs(v: Value)
    ensures DropEmpty(v) == List([]) <==> v == List([])
  {
    match v
    case List(items) => assert DropEmpty(v).items == [] <==> items == [];
    case _ =>
  }

  lemma {:induction false} NothingLeft(es: seq<Entry>)
    ensures DropEntries(es) == [] <==> forall i | 0 <= i < |es| :: EmptyKeyList(es[i])
  {
    hide DropEmpty, DropEntries;
    if es == [] {
      DropNone();
    } else {
      DropEntriesStep(es);
      NothingLeft(es[1..]);
      EmptyListIs(es[0].value);
      assert forall i | 0 < i < |es| :: es[1..][i - 1] == es[i];
    }
  }

  lemma SweptFalsy(v: Value)
    ensures Falsy(DropEmpty(v)) <==> Falsy(v) || EmptiedValue(v)
    ensures EmptiedValue(v) ==> !Falsy(v)
  {
    match v
    case List(items) => EmptyListIs(v);
    case Dict(es) =>
      DropDict(es);
      NothingLeft(es);
      DropNone();
    case _ =>
  }

  // What str() makes of a list or a mapping starts with its bracket.
  lemma BracketStays(py: Python, v: Value)
    requires Sound(py) && (v.List? || v.Dict?)
    ensures Strip(py.text(v)) != "" && SafeName(Strip(py.text(v))) == Strip(py.text(v))
  {
    var s := py.text(v);
    assert s != "" && !IsSpace(s[0]);
    assert LStrip(s) == s;
    RStripFacts(s);
    BracketSafe(Strip(s));
    StripTwice(s);
  }

  lemma BracketSafe(s: string)
    requires s != "" && (s[0] == '[' || s[0] == '{') && Strip(s) == s
    ensures SafeName(s) == s
  {
    assert Lower(s)[0] == s[0];
    assert forall r | r in RESERVED :: r != "" && r[0] != '[' && r[0] != '{';
  }

  // A field is blank after the sweep if it was before or the sweep empties it.
  lemma SweptValue(py: Python, v: Value)
    requires Sound(py)
    ensures EmptiedValue(v) ==> Strip(py.text(v)) != ""
    ensures Strip(py.text(DropEmpty(v))) != "" <==> Strip(py.text(v)) != ""
  {
    hide Strip, SafeName;
    DropShape(v);
    if v.List? || v.Dict? {
      BracketStays(py, v);
      BracketStays(py, DropEmpty(v));
    }
  }

  function CellText(py: Python, es: seq<Entry>, k: string, other: string): string {
    Strip(TextOr(py, Get(es, KStr(k)), other))
  }

  lemma SweptText(py: Python, es: seq<Entry>, k: string, other: string)
    requires Sound(py) && !SshKeys(KStr(k))
    ensures Emptied(es, k) ==> CellText(py, es, k, "") != "" && CellText(py, DropEntries(es), k, other) == Strip(other)
    ensures !Emptied(es, k) ==> (CellText(py, DropEntries(es), k, other) != "" <==> CellText(py, es, k, other) != "")
  {
    hide Strip, Get, DropEntries, EmptiedValue, DropEmpty, Falsy;
    GetDrop(es, KStr(k));
    var v := Get(es, KStr(k));
    if v.Some? {
      SweptFalsy(v.value);
      SweptValue(py, v.value);
    }
  }

  // ---- the swept identity

  predicate AnyEmptied(es: seq<Entry>) {
    Emptied(es, "hostname") || Emptied(es, "username") || Emptied(es, "password")
  }

  lemma CellKeys()
    ensures !SshKeys(KStr("hostname")) && !SshKeys(KStr("username")) && !SshKeys(KStr("password"))
    ensures !SshKeys(KStr("name")) && !SshKeys(KStr("users")) && !SshKeys(KStr("chpasswd"))
  {
    assert |"ssh_authorized_keys"| == 19 && |"authorized-keys"| == 15;
  }

  lemma FieldIs(py: Python, es: seq<Entry>, k: string)
    ensures Field(py, es, k) == CellText(py, es, k, "")
  {
  }

  lemma WholeIs(py: Python, es: seq<Entry>)
    ensures Whole(PersonOf(py, es)) <==>
      CellText(py, es, "hostname", "") != "" && CellText(py, es, "username", "") != ""
        && CellText(py, es, "password", "") != ""
  {
    hide Field, CellText;
    FieldIs(py, es, "hostname");
    FieldIs(py, es, "username");
    FieldIs(py, es, "password");
  }

  lemma SafeNamed(s: string)
    requires Strip(s) == s
    ensures SafeName(s) == "" <==> s == ""
  {
    hide Strip, Lower, Contains;
    Ubuntu();
  }

  lemma MergedIs(py: Python, es: seq<Entry>, f: Person)
    ensures Whole(MergedPerson(py, es, f)) <==>
      CellText(py, es, "hostname", f.hostname) != "" && CellText(py, es, "username", f.username) != ""
      && CellText(py, es, "password", f.password) != ""
  {
    hide Strip, SafeName, TextOr;
    var name := TextOr(py, Get(es, KStr("username")), f.username);
    StripTwice(name);
    SafeNamed(Strip(name));
  }

  // The swept identity is whole exactly when the identity was and no field is emptied.
  lemma SweptWhole(py: Python, es: seq<Entry>)
    requires Sound(py)
    ensures Whole(PersonOf(py, DropEntries(es))) <==> Whole(PersonOf(py, es)) && !AnyEmptied(es)
  {
    hide CellText, DropEntries, Sound, Emptied, PersonOf, Whole;
    CellKeys();
    WholeIs(py, es);
    WholeIs(py, DropEntries(es));
    SafeBlank();
    SweptText(py, es, "hostname", "");
    SweptText(py, es, "username", "");
    SweptText(py, es, "password", "");
  }

  predicate NameSafe(py: Python, es: seq<Entry>) {
    var name := Field(py, es, "username");
    SafeName(name) == "" || SafeName(name) == name
  }

  // A reserved name is no list and no mapping.
  lemma ContainerName(py: Python, es: seq<Entry>)
    requires Sound(py) && Get(es, KStr("username")).Some?
    requires var v := Get(es, KStr("username")).value; v.List? || v.Dict?
    ensures NameSafe(py, es)
  {
    hide SafeName, Strip, Get, Sound;
    BracketStays(py, Get(es, KStr("username")).value);
    SafeBlank();
  }

  lemma SweptName(py: Python, es: seq<Entry>)
    requires Sound(py) && NameSafe(py, es)
    ensures NameSafe(py, DropEntries(es))
  {
    hide SafeName, Strip, Get, Sound, DropEmpty, DropEntries, SshKeys;
    CellKeys();
    GetDrop(es, KStr("username"));
    var v := Get(es, KStr("username"));
    if v.Some? {
      DropShape(v.value);
      if v.value.List? || v.value.Dict? {
        ContainerName(py, DropEntries(es));
      } else {
        ScalarStays(v.value);
      }
    }
  }

  lemma ScalarStays(v: Value)
    requires !v.List? && !v.Dict?
    ensures DropEmpty(v) == v && !EmptiedValue(v)
  {
  }

  // A replaced account name does not change what the sweep leaves of the identity.
  lemma RenamedSwept(py: Python, es: seq<Entry>)
    requires Sound(py) && !NameSafe(py, es)
    ensures var out := Put(es, KStr("username"), Str(SafeName(Field(py, es, "username"))));
      && NameSafe(py, DropEntries(out))
      && (Whole(PersonOf(py, DropEntries(out))) <==> Whole(PersonOf(py, DropEntries(es))))
      && forall f :: Whole(MergedPerson(py, DropEntries(out), f)) <==> Whole(MergedPerson(py, DropEntries(es), f))
  {
    hide SafeName, Strip, Get, Put, Sound, DropEmpty, DropEntries, SshKeys, PersonOf, MergedPerson, Whole;
    var safe := SafeName(Field(py, es, "username"));
    var out := Put(es, KStr("username"), Str(safe));
    CellKeys();
    RenamedCells(py, es);
    WholeIs(py, DropEntries(es));
    WholeIs(py, DropEntries(out));
    forall f ensures Whole(MergedPerson(py, DropEntries(out), f)) <==> Whole(MergedPerson(py, DropEntries(es), f)) {
      MergedIs(py, DropEntries(out), f);
      MergedIs(py, DropEntries(es), f);
    }
  }

  lemma ReservedText(py: Python, es: seq<Entry>)
    requires Sound(py) && !NameSafe(py, es)
    ensures var v := Get(es, KStr("username"));
      v.Some? && !Falsy(v.value) && !v.value.List? && !v.value.Dict? && Strip(py.text(v.value)) != ""
  {
    hide SafeName, Strip, Get, Sound;
    SafeBlank();
    var v := Get(es, KStr("username"));
    if v.Some? && (v.value.List? || v.value.Dict?) { ContainerName(py, es); }
  }

  lemma SameCell(py: Python, a: seq<Entry>, b: seq<Entry>, k: string, other: string)
    requires Get(a, KStr(k)) == Get(b, KStr(k)) && !SshKeys(KStr(k))
    ensures CellText(py, DropEntries(a), k, other) == CellText(py, DropEntries(b), k, other)
  {
    hide Get, DropEntries, Strip;
    GetDrop(a, KStr(k));
    GetDrop(b, KStr(k));
  }

  lemma RenamedCells(py: Python, es: seq<Entry>)
    requires Sound(py) && !NameSafe(py, es)
    ensures var out := Put(es, KStr("username"), Str(SafeName(Field(py, es, "username"))));
      && NameSafe(py, DropEntries(out))
      && forall other ::
        CellText(py, DropEntries(out), "hostname", other) == CellText(py, DropEntries(es), "hostname", other)
           && CellText(py, DropEntries(out), "password", other) == CellText(py, DropEntries(es), "password", other)
           && CellText(py, DropEntries(out), "username", other) != ""
           && CellText(py, DropEntries(es), "username", other) != ""
  {
    hide SafeName, Strip, Get, Put, DropEmpty, DropEntries, SshKeys, CellText, Field;
    var safe := SafeName(Field(py, es, "username"));
    var out := Put(es, KStr("username"), Str(safe));
    CellKeys();
    ReservedText(py, es);
    GetPut(es, KStr("username"), Str(safe), KStr("hostname"));
    GetPut(es, KStr("username"), Str(safe), KStr("username"));
    GetPut(es, KStr("username"), Str(safe), KStr("password"));
    SafeTrimmed(py, es);
    NewName(py, out, safe);
    forall other
      ensures CellText(py, DropEntries(out), "hostname", other) == CellText(py, DropEntries(es), "hostname", other)
      ensures CellText(py, DropEntries(out), "password", other) == CellText(py, DropEntries(es), "password", other)
      ensures CellText(py, DropEntries(out), "username", other) != ""
        && CellText(py, DropEntries(es), "username", other) != ""
    {
      SameCell(py, out, es, "hostname", other);
      SameCell(py, out, es, "password", other);
      OldName(py, es, other);
      NewCell(py, out, safe, other);
    }
  }

  lemma SafeTrimmed(py: Python, es: seq<Entry>)
    requires !NameSafe(py, es)
    ensures var safe := SafeName(Field(py, es, "username")); safe != "" && Strip(safe) == safe && SafeName(safe) == safe
  {
    hide SafeName, Strip, Field;
    SafeTwice(Field(py, es, "username"));
  }

  lemma OldName(py: Python, es: seq<Entry>, other: string)
    requires Sound(py) && !NameSafe(py, es)
    ensures CellText(py, DropEntries(es), "username", other) != ""
  {
    hide SafeName, Strip, Get, DropEmpty, DropEntries, SshKeys, Sound, NameSafe;
    CellKeys();
    ReservedText(py, es);
    GetDrop(es, KStr("username"));
    ScalarStays(Get(es, KStr("username")).value);
  }

  lemma NewCell(py: Python, es: seq<Entry>, name: string, other: string)
    requires Sound(py) && Get(es, KStr("username")) == Some(Str(name)) && name != "" && Strip(name) == name
    ensures CellText(py, DropEntries(es), "username", other) == name
  {
    hide Strip, Get, DropEntries, SshKeys;
    CellKeys();
    GetDrop(es, KStr("username"));
    CleanText(name);
  }

  lemma NewName(py: Python, es: seq<Entry>, name: string)
    requires Sound(py) && Get(es, KStr("username")) == Some(Str(name)) && name != "" && Strip(name) == name
      && SafeName(name) == name
    ensures NameSafe(py, DropEntries(es))
  {
    hide Strip, Get, DropEntries, SafeName, Sound;
    NewCell(py, es, name, "");
    FieldIs(py, DropEntries(es), "username");
  }

  // Fields filled with text stay filled.
  lemma FilledSwept(py: Python, es: seq<Entry>, f: Person)
    requires Sound(py) && Whole(MergedPerson(py, es, f))
    ensures var out := PutPerson(es, MergedPerson(py, es, f));
      && Sanitized(py, Some(Dict(out))) == Some(Dict(out))
      && Whole(PersonOf(py, DropEntries(out))) && NameSafe(py, DropEntries(out))
  {
    hide SafeName, Strip, Sound, DropEntries, MergedPerson, PutPerson, PersonOf, Emptied, Field;
    var p := MergedPerson(py, es, f);
    var out := PutPerson(es, p);
    MergedTrimmed(py, es, f);
    PutFields(py, es, p);
    PersonParts(py, out);
    MergedSafe(py, es, f);
    SweptWhole(py, out);
    FilledNotEmptied(es, p);
    SweptName(py, out);
  }

  lemma MergedSafe(py: Python, es: seq<Entry>, f: Person)
    ensures var name := MergedPerson(py, es, f).username; SafeName(name) == name
  {
    hide SafeName, Strip, Get;
    SafeTwice(Strip(TextOr(py, Get(es, KStr("username")), f.username)));
  }

  lemma FilledNotEmptied(es: seq<Entry>, p: Person)
    ensures !AnyEmptied(PutPerson(es, p))
  {
    hide Get, Put;
    var a := Put(es, KStr("hostname"), Str(p.hostname));
    var b := Put(a, KStr("username"), Str(p.username));
    GetPut(es, KStr("hostname"), Str(p.hostname), KStr("hostname"));
    GetPut(a, KStr("username"), Str(p.username), KStr("hostname"));
    GetPut(a, KStr("username"), Str(p.username), KStr("username"));
    GetPut(b, KStr("password"), Str(p.password), KStr("hostname"));
    GetPut(b, KStr("password"), Str(p.password), KStr("username"));
    GetPut(b, KStr("password"), Str(p.password), KStr("password"));
  }

  // ---- when a second completion fills the identity again

  // The swept identity can be filled from the swept user-data, and the first completion left it alone: it was whole
  // with a field the sweep empties, or user-data could not fill it yet.
  predicate Refills(py: Python, es: seq<Entry>, ud: seq<Entry>) {
    && Whole(MergedPerson(py, DropEntries(es), FromUserData(py, DropEntries(ud))))
    && if Whole(PersonOf(py, es)) then AnyEmptied(es) else !Whole(MergedPerson(py, es, FromUserData(py, ud)))
  }

  // Main theorem: the completed identity is in order after the sweep unless it refills.
  lemma IdentityExactly(py: Python, o: Option<Value>, ud: seq<Entry>)
    requires Sound(py)
    ensures var out := EntriesOf(Sanitized(py, Identified(py, o, FromUserData(py, ud))));
      && (IdentityOk(py, DropEntries(out), FromUserData(py, DropEntries(ud))) <==> !Refills(py, EntriesOf(o), ud))
      && NameSafe(py, DropEntries(out))
  {
    hide SafeName, Strip, Sound, DropEntries, MergedPerson, PutPerson, PersonOf, Field, FromUserData, Whole, AnyEmptied;
    var es, found := EntriesOf(o), FromUserData(py, ud);
    if Whole(MergedPerson(py, es, found)) { FilledSwept(py, es, found); }
    SweptWhole(py, es);
    if NameSafe(py, es) { SweptName(py, es); } else { RenamedSwept(py, es); NobodyOk(py); }
  }

  // A refilled identity is another one.
  lemma RefilledDiffers(py: Python, o: Option<Value>, found: Person)
    requires Sound(py) && NameSafe(py, EntriesOf(o)) && !IdentityOk(py, EntriesOf(o), found)
    ensures var r := Sanitized(py, Identified(py, o, found));
      r.Some? && r.value.Dict? && DropEntries(r.value.entries) != EntriesOf(o)
  {
    hide SafeName, Strip, Sound, DropEntries, MergedPerson, PutPerson, PersonOf, Field, Whole;
    FilledSwept(py, EntriesOf(o), found);
  }

  // ---- user-data that reads the same after the sweep

  predicate CleanAt(es: seq<Entry>, k: string) {
    var v := Get(es, KStr(k)); v.Some? ==> Clean(v.value)
  }

  // Nothing to drop in the name and password of the users up to the first that has both.
  predicate UsersClean(users: seq<Value>) {
    users == [] ||
    ((users[0].Dict? ==> CleanAt(users[0].entries, "name") && CleanAt(users[0].entries, "password"))
     && (IsUser(users[0]) || UsersClean(users[1..])))
  }

  lemma FieldDropped(py: Python, es: seq<Entry>, k: string, other: string)
    requires CleanAt(es, k) && !SshKeys(KStr(k))
    ensures TextOr(py, Get(DropEntries(es), KStr(k)), other) == TextOr(py, Get(es, KStr(k)), other)
  {
    hide Get, DropEntries;
    GetDrop(es, KStr(k));
  }

  lemma GivenDropped(es: seq<Entry>, k: string)
    requires CleanAt(es, k) && !SshKeys(KStr(k))
    ensures Given(DropEntries(es), k) == Given(es, k)
  {
    hide Get, DropEntries;
    GetDrop(es, KStr(k));
  }

  function DropAll(items: seq<Value>): seq<Value> {
    seq(|items|, i requires 0 <= i < |items| => DropEmpty(items[i]))
  }

  // The same user is found after the sweep.
  lemma {:induction false} FirstUserDropped(py: Python, users: seq<Value>)
    requires UsersClean(users)
    ensures match FirstUser(users)
      case None => FirstUser(DropAll(users)).None?
      case Some(u) =>
        && FirstUser(DropAll(users)) == Some(DropEntries(u))
        && Field(py, DropEntries(u), "name") == Field(py, u, "name")
        && Field(py, DropEntries(u), "password") == Field(py, u, "password")
  {
    hide DropEmpty, DropEntries, Strip, CleanAt, Given, TextOr;
    if users != [] {
      var v := users[0];
      DropShape(v);
      CellKeys();
      if v.Dict? {
        DropDict(v.entries);
        GivenDropped(v.entries, "name");
        GivenDropped(v.entries, "password");
        FieldDropped(py, v.entries, "name", "");
        FieldDropped(py, v.entries, "password", "");
      }
      assert DropAll(users)[0] == DropEmpty(v) && DropAll(users)[1..] == DropAll(users[1..]);
      if !IsUser(v) { FirstUserDropped(py, users[1..]); }
    }
  }

  lemma EntriesDropped(o: Option<Value>)
    ensures EntriesOf(match o case Some(v) => Some(DropEmpty(v)) case None => None) == DropEntries(EntriesOf(o))
  {
    hide DropEmpty, DropEntries;
    DropNone();
    if o.Some? {
      DropShape(o.value);
      if o.value.Dict? { DropDict(o.value.entries); }
    }
  }

  lemma UsersDropped(ud: seq<Entry>)
    ensures UsersOf(DropEntries(ud)) == DropAll(UsersOf(ud))
  {
    hide Get, DropEntries;
    CellKeys();
    GetDrop(ud, KStr("chpasswd"));
    EntriesDropped(Get(ud, KStr("chpasswd")));
    GetDrop(EntriesOf(Get(ud, KStr("chpasswd"))), KStr("users"));
    DropNone();
    var v := Get(EntriesOf(Get(ud, KStr("chpasswd"))), KStr("users"));
    if v.Some? { DropShape(v.value); }
  }

  lemma UserDataDropped(py: Python, ud: seq<Entry>)
    requires CleanAt(ud, "hostname") && UsersClean(UsersOf(ud))
    ensures FromUserData(py, DropEntries(ud)) == FromUserData(py, ud)
  {
    hide Get, DropEntries, Strip, TextOr, FirstUser, DropEmpty, UsersOf, UsersClean;
    FieldDropped(py, ud, "hostname", "");
    UsersDropped(ud);
    FirstUserDropped(py, UsersOf(ud));
  }

  // With such user-data a second completion fills the identity again exactly when it was whole, the sweep empties one
  // of its fields, and user-data has every field emptied.
  lemma RefillsExactly(py: Python, es: seq<Entry>, ud: seq<Entry>)
    requires Sound(py) && CleanAt(ud, "hostname") && UsersClean(UsersOf(ud))
    ensures var found := FromUserData(py, ud);
      Refills(py, es, ud) <==>
        (Whole(PersonOf(py, es)) && AnyEmptied(es)
         && (Emptied(es, "hostname") ==> found.hostname != "")
         && (Emptied(es, "username") ==> found.username != "")
         && (Emptied(es, "password") ==> found.password != ""))
  {
    hide CellText, DropEntries, Sound, Emptied, PersonOf, Whole, MergedPerson, FromUserData, UsersClean, UsersOf,
      CleanAt, Strip;
    var found := FromUserData(py, ud);
    UserDataDropped(py, ud);
    CellKeys();
    WholeIs(py, es);
    MergedIs(py, es, found);
    MergedIs(py, DropEntries(es), found);
    FoundTrimmed(py, ud);
    SweptText(py, es, "hostname", found.hostname);
    SweptText(py, es, "username", found.username);
    SweptText(py, es, "password", found.password);
    OwnText(py, es, "hostname", found.hostname);
    OwnText(py, es, "username", found.username);
    OwnText(py, es, "password", found.password);
  }

  lemma FoundTrimmed(py: Python, ud: seq<Entry>)
    ensures var f := FromUserData(py, ud);
      Strip(f.hostname) == f.hostname && Strip(f.username) == f.username && Strip(f.password) == f.password
  {
    hide Strip, TextOr, FirstUser, UsersOf;
    StripTwice(TextOr(py, Get(ud, KStr("hostname")), ""));
    SafeBlank();
    match FirstUser(UsersOf(ud))
    case Some(u) =>
      StripTwice(TextOr(py, Get(u, KStr("name")), ""));
      StripTwice(TextOr(py, Get(u, KStr("password")), ""));
    case None =>
  }

  // A field that is not blank does without user-data.
  lemma OwnText(py: Python, es: seq<Entry>, k: string, other: string)
    ensures CellText(py, es, k, "") != "" ==> CellText(py, es, k, other) == CellText(py, es, k, "")
  {
    hide Strip;
    SafeBlank();
  }
}
