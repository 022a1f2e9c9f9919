// Completing an autoinstall seed so that the installer runs unattended: every pass of the pipeline.

module SeedRender {
  import opened Text
  import opened Values
  import opened WgetText
  import opened SeedCommands

  // A key of the `autoinstall` mapping: the sections the passes know, and every other key.
  datatype Slot =
    | EarlyCommands | LateCommands | ErrorCommands | Network | Timezone | Source | Identity | UserData | Apt
    | Named(key: string)

  type Auto = map<Slot, Value>

  // The seed's `autoinstall` mapping and its other top-level entries.
  datatype Doc = Doc(auto: Auto, rest: seq<Entry>)

  // What a completion is given. order: a valid boot policy and machine id.
  datatype Config = Config(py: Python, generated: Generated, defaults: Auto, sourceId: string, order: bool)

  function At(m: Auto, k: Slot): Option<Value> {
    if k in m then Some(m[k]) else None
  }

  // ---- default keys

  // Add the entries whose keys are missing.
  function FillMissing(es: seq<Entry>, ds: seq<Entry>): seq<Entry> {
    if ds == [] then es else
    var prev, last := FillMissing(es, ds[..|ds| - 1]), ds[|ds| - 1];
    if HasKey(prev, last.key) then prev else prev + [last]
  }

  function FilledValue(c: Config, auto: Auto, k: Slot): Value
    requires k in auto || k in c.defaults
  {
    if k !in auto then c.defaults[k]
    else if k == Apt && k in c.defaults && c.defaults[k].Dict? && auto[k].Dict? then
      Dict(FillMissing(auto[k].entries, c.defaults[k].entries))
    else auto[k]
  }

  function Filled(c: Config, auto: Auto): Auto {
    map k | k in auto.Keys + c.defaults.Keys :: FilledValue(c, auto, k)
  }

  // ---- optional network cards

  // A catch-all match block must not hold up the first boot.
  function OptionalCard(v: Value): Value {
    if v.Dict? && MatchesByName(v.entries) && !HasKey(v.entries, KStr("optional")) then
      Dict(v.entries + [Entry(KStr("optional"), Bool(true))])
    else v
  }

  predicate MatchesByName(es: seq<Entry>) {
    match Get(es, KStr("match"))
    case Some(Dict(ms)) => var name := Get(ms, KStr("name")); name.Some? && name.value.Str?
    case _ => false
  }

  function OptionalCards(es: seq<Entry>): seq<Entry> {
    seq(|es|, i requires 0 <= i < |es| => Entry(es[i].key, OptionalCard(es[i].value)))
  }

  function OptionalEntry(e: Entry): Entry {
    if e.key == KStr("ethernets") && e.value.Dict? then Entry(e.key, Dict(OptionalCards(e.value.entries))) else e
  }

  function OptionalNetwork(v: Value): Value {
    if v.Dict? then Dict(seq(|v.entries|, i requires 0 <= i < |v.entries| => OptionalEntry(v.entries[i]))) else v
  }

  // ---- text read from values

  predicate Falsy(v: Value) {
    match v
    case Null => true
    case Bool(b) => !b
    case Int(n) => n == 0
    case Octal(n) => n == 0
    case Float(d) => d == "0.0" || d == "-0.0"
    case Str(s) => s == ""
    case List(items) => items == []
    case Dict(es) => es == []
    case Other(_) => false
  }

  // str(value or "")
  function TextOr(py: Python, o: Option<Value>, other: string): string {
    if o.Some? && !Falsy(o.value) then py.text(o.value) else other
  }

  function Field(py: Python, es: seq<Entry>, k: string): string {
    Strip(TextOr(py, Get(es, KStr(k)), ""))
  }

  function EntriesOf(o: Option<Value>): seq<Entry> {
    if o.Some? && o.value.Dict? then o.value.entries else []
  }

  // ---- install source

  function RemoveKey(es: seq<Entry>, k: Key): seq<Entry> {
    if es == [] then [] else
    if es[0].key == k then RemoveKey(es[1..], k) else [es[0]] + RemoveKey(es[1..], k)
  }

  // Equal as Python dictionaries: the same keys with the same values.
  predicate SameDict(a: seq<Entry>, b: seq<Entry>) {
    && (forall i | 0 <= i < |a| :: Get(b, a[i].key) == Get(a, a[i].key))
    && (forall j | 0 <= j < |b| :: Get(a, b[j].key) == Get(b, b[j].key))
  }

  function Wanted(c: Config, es: seq<Entry>): string {
    var current := Field(c.py, es, "id");
    if current != "" then current else Strip(c.sourceId)
  }

  function MergedSource(c: Config, es: seq<Entry>): seq<Entry> {
    var drivers := match Get(es, KStr("search_drivers")) case Some(v) => v case None => Bool(false);
    var base := [Entry(KStr("search_drivers"), drivers)] + RemoveKey(es, KStr("search_drivers"));
    if Wanted(c, es) != "" then Put(base, KStr("id"), Str(Wanted(c, es)))
    else if HasKey(base, KStr("id")) && Field(c.py, base, "id") == "" then RemoveKey(base, KStr("id"))
    else base
  }

  // The source section with a driver switch, and an id if the seed or the caller knows one.
  function Sourced(c: Config, o: Option<Value>): Value {
    var merged := MergedSource(c, EntriesOf(o));
    if o.Some? && o.value.Dict? && SameDict(o.value.entries, merged) then o.value else Dict(merged)
  }

  // ---- identity

  const RESERVED: set<string> :=
    {"root", "daemon", "bin", "sys", "sync", "games", "man", "lp", "mail", "news", "uucp", "proxy", "www-data",
     "backup", "list", "nobody", "sshd", "_apt", "messagebus", "systemd-network", "systemd-resolve", "uuidd",
     "dnsmasq", "lxd", "tcpdump", "landscape", "pollinate", "tss"}

  function SafeName(name: string): string {
    var cleaned := Strip(name);
    if cleaned == "" || Contains(cleaned, "{{") then cleaned
    else if Lower(cleaned) in RESERVED then "ubuntu" else cleaned
  }

  datatype Person = Person(hostname: string, username: string, password: string)

  predicate IsUser(v: Value) {
    v.Dict? && Given(v.entries, "name") && Given(v.entries, "password")
  }

  // The first listed user with a name and a password.
  function FirstUser(users: seq<Value>): Option<seq<Entry>> {
    if users == [] then None else if IsUser(users[0]) then Some(users[0].entries) else FirstUser(users[1..])
  }

  function UsersOf(ud: seq<Entry>): seq<Value> {
    match Get(EntriesOf(Get(ud, KStr("chpasswd"))), KStr("users")) case Some(List(us)) => us case _ => []
  }

  predicate Given(es: seq<Entry>, k: string) {
    var v := Get(es, KStr(k)); v.Some? && !Falsy(v.value)
  }

  function FromUserData(py: Python, ud: seq<Entry>): Person {
    match FirstUser(UsersOf(ud))
    case Some(u) => Person(Field(py, ud, "hostname"), Field(py, u, "name"), Field(py, u, "password"))
    case None => Person(Field(py, ud, "hostname"), "", "")
  }

  predicate Whole(p: Person) {
    p.hostname != "" && p.username != "" && p.password != ""
  }

  function PersonOf(py: Python, es: seq<Entry>): Person {
    Person(Field(py, es, "hostname"), Field(py, es, "username"), Field(py, es, "password"))
  }

  function MergedPerson(py: Python, es: seq<Entry>, found: Person): Person {
    Person(Strip(TextOr(py, Get(es, KStr("hostname")), found.hostname)),
           SafeName(Strip(TextOr(py, Get(es, KStr("username")), found.username))),
           Strip(TextOr(py, Get(es, KStr("password")), found.password)))
  }

  function PutPerson(es: seq<Entry>, p: Person): seq<Entry> {
    Put(Put(Put(es, KStr("hostname"), Str(p.hostname)), KStr("username"), Str(p.username)), KStr("password"),
      Str(p.password))
  }

  // Fill an incomplete identity from user-data when that completes it.
  function Identified(py: Python, o: Option<Value>, found: Person): Option<Value> {
    var es := EntriesOf(o);
    var merged := MergedPerson(py, es, found);
    if Whole(PersonOf(py, es)) || !Whole(merged) then o else Some(Dict(PutPerson(es, merged)))
  }

  // Replace a reserved account name.
  function Sanitized(py: Python, o: Option<Value>): Option<Value> {
    if o.None? || !o.value.Dict? then o else
    var current := Field(py, o.value.entries, "username");
    var safe := SafeName(current);
    if safe == "" || safe == current then o else Some(Dict(Put(o.value.entries, KStr("username"), Str(safe))))
  }

  function IdentityOf(py: Python, auto: Auto): Option<Value> {
    Sanitized(py, Identified(py, At(auto, Identity), FromUserData(py, EntriesOf(At(auto, UserData)))))
  }

  // ---- empty ssh-key lists

  predicate SshKeys(k: Key) {
    k == KStr("ssh_authorized_keys") || k == KStr("authorized-keys")
  }

  predicate EmptyKeyList(e: Entry) {
    SshKeys(e.key) && e.value == List([])
  }

  function WithoutEmptyKeys(es: seq<Entry>): seq<Entry> {
    if es == [] then [] else
    if EmptyKeyList(es[0]) then WithoutEmptyKeys(es[1..]) else [es[0]] + WithoutEmptyKeys(es[1..])
  }

  // An emptied mapping or list stays; only the empty key lists go.
  function DropEmpty(v: Value): Value {
    match v
    case List(items) => List(seq(|items|, i requires 0 <= i < |items| => DropEmpty(items[i])))
    case Dict(es) =>
      Dict(WithoutEmptyKeys(seq(|es|, i requires 0 <= i < |es| => Entry(es[i].key, DropEmpty(es[i].value)))))
    case _ => v
  }

  predicate SshSlot(k: Slot) {
    k == Named("ssh_authorized_keys") || k == Named("authorized-keys")
  }

  function DropAuto(m: Auto): Auto {
    map k | k in m && !(SshSlot(k) && m[k] == List([])) :: DropEmpty(m[k])
  }

  function DropRest(es: seq<Entry>): seq<Entry> {
    DropEmpty(Dict(es)).entries
  }

  // ---- the pipeline

  function WithNetwork(auto: Auto): Auto {
    if Network in auto then auto[Network := OptionalNetwork(auto[Network])] else auto
  }

  function WithIdentity(py: Python, auto: Auto): Auto {
    match IdentityOf(py, auto)
    case Some(v) => auto[Identity := v]
    case None => auto
  }

  // Every section treated; the passes touch different keys, so their order across sections does not matter.
  function Treated(c: Config, auto: Auto): Auto {
    var a := auto[EarlyCommands := Early(c.py, c.generated, At(auto, EarlyCommands))];
    var b := a[ErrorCommands := WithLog(c.py, c.generated, At(a, ErrorCommands))];
    var d := WithNetwork(b) - {Timezone};
    var e := d[Source := Sourced(c, At(d, Source))];
    var f := WithIdentity(c.py, e);
    f[LateCommands := Late(c.py, c.generated, c.order, At(f, LateCommands))]
  }

  function Complete(c: Config, doc: Doc): Doc {
    Doc(DropAuto(Treated(c, Filled(c, doc.auto))), DropRest(doc.rest))
  }
}
