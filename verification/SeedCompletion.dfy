// The completion with the commands and defaults it really uses, and seeds for which running it twice makes a
// difference.

module SeedCompletion {
  import opened Text
  import opened Values
  import opened WgetText
  import opened SeedCommands
  import opened SeedUrls
  import opened SeedSections
  import opened SeedRender
  import opened SeedSettles
  import opened SeedIdentity
  import opened SeedPipeline

  // The completion called with these URLs, policy and machine, and the catalog's source id.
  function Called(py: Python, u: Urls, sourceId: string): Config {
    Config(py, Commands(u), UNATTENDED, sourceId, ValidPolicy(u.policy, u.machine))
  }

  // Main result: for all URLs that will do and all seeds, every pass condition holds after one completion unless the
  // identity refills, and a second one changes nothing exactly when it does not and the inline confirm helpers took no
  // Wi-Fi or imaging marker with them.
  lemma CompletedForUrls(py: Python, u: Urls, sourceId: string, doc: Doc)
    requires Sound(py) && GoodUrls(u) && Readable(Filled(Called(py, u, sourceId), doc.auto))
    ensures var c := Called(py, u, sourceId);
      && SectionsDone(c, Complete(c, doc).auto)
      && (IdentityDone(c, Complete(c, doc).auto) <==> !RefillsIdentity(c, doc.auto))
      && (Marked(c, Complete(c, doc).auto) <==> Survives(py, ItemsOf(At(doc.auto, EarlyCommands))))
      && (Complete(c, Complete(c, doc)) == Complete(c, doc)
          <==> Survives(py, ItemsOf(At(doc.auto, EarlyCommands))) && !RefillsIdentity(c, doc.auto))
  {
    hide SectionsDone, IdentityDone, Marked, Complete, Survives, Readable, WellMade, OwnMarkers, Sound, Commands,
      GoodUrls, DefaultsOk, Refills;
    var c := Called(py, u, sourceId);
    CommandsWellMade(u);
    UnattendedOk(c);
    CompleteEstablishes(c, doc);
    CompleteTwice(c, doc);
    DefaultsBring(c, doc.auto);
  }

  // The defaults bring no early commands, identity or user-data.
  lemma DefaultsBring(c: Config, auto: Auto)
    requires c.defaults == UNATTENDED
    ensures At(Filled(c, auto), EarlyCommands) == At(auto, EarlyCommands)
    ensures At(Filled(c, auto), Identity) == At(auto, Identity) && At(Filled(c, auto), UserData) == At(auto, UserData)
  {
  }

  // ---- an imaging callback inside an inline confirm helper

  const INLINE_IMAGING := INLINE_PATCH + " " + IMAGING

  const INLINE_SEED := Doc(map[EarlyCommands := List([Str(INLINE_IMAGING)])], [])

  lemma InlineHas()
    ensures Contains(INLINE_IMAGING, INLINE_PATCH) && Contains(INLINE_IMAGING, IMAGING)
  {
    assert "" + INLINE_PATCH == INLINE_PATCH;
    FileHas("", INLINE_PATCH);
    ContainsWider("", INLINE_PATCH, " " + IMAGING, INLINE_PATCH);
    assert "" + INLINE_PATCH + (" " + IMAGING) == INLINE_IMAGING;
    FileHas(INLINE_PATCH + " ", IMAGING);
  }

  lemma InlineLost(py: Python)
    requires Sound(py)
    ensures !Survives(py, [Str(INLINE_IMAGING)])
  {
    hide Contains, INLINE_IMAGING;
    InlineHas();
    var cmds := [Str(INLINE_IMAGING)];
    assert TextOf(py, cmds[0]) == INLINE_IMAGING;
    assert HasImaging(py, cmds);
    assert cmds[1..] == [] && NotInline(py, cmds) == [];
  }

  lemma InlineReadable(py: Python, u: Urls, sourceId: string)
    ensures Readable(Filled(Called(py, u, sourceId), INLINE_SEED.auto))
  {
    hide Commands, INLINE_IMAGING;
    var a := Filled(Called(py, u, sourceId), INLINE_SEED.auto);
    CleanText(INLINE_IMAGING);
    assert a[EarlyCommands] == List([Str(INLINE_IMAGING)]);
    assert LateCommands !in a && ErrorCommands !in a;
  }

  // Completing this seed removes the helper and with it the callback; the second completion adds the callback.
  lemma InlineCompletedTwice(py: Python, u: Urls, sourceId: string)
    requires Sound(py) && GoodUrls(u)
    ensures var c := Called(py, u, sourceId); Complete(c, Complete(c, INLINE_SEED)) != Complete(c, INLINE_SEED)
  {
    hide Complete, Survives, Readable, Sound, Commands, GoodUrls, SectionsDone, IdentityDone, RefillsIdentity, Marked,
      INLINE_IMAGING;
    InlineReadable(py, u, sourceId);
    InlineLost(py);
    CompletedForUrls(py, u, sourceId, INLINE_SEED);
  }

  // ---- a host name that the sweep empties

  const EMPTY_KEYS := Dict([Entry(KStr("ssh_authorized_keys"), List([]))])

  function Account(host: Value): seq<Entry> {
    [Entry(KStr("hostname"), host), Entry(KStr("username"), Str("admin")), Entry(KStr("password"), Str("secret"))]
  }

  const SWEPT_SEED := Doc(map[Identity := Dict(Account(EMPTY_KEYS)), UserData := Dict(LAB)], [])

  lemma AccountCells(host: Value)
    ensures var es := Account(host);
      && Get(es, KStr("hostname")) == Some(host)
      && Get(es, KStr("username")) == Some(Str("admin")) && Get(es, KStr("password")) == Some(Str("secret"))
  {
    var es := Account(host);
    assert KStr("username") != KStr("hostname") && KStr("password") != KStr("hostname")
      && KStr("password") != KStr("username");
    assert es[1..][0] == es[1] && es[1..][1..][0] == es[2];
  }

  lemma AccountText(py: Python, host: Value)
    requires Sound(py)
    ensures PersonOf(py, Account(host)) == Person(Strip(TextOr(py, Some(host), "")), "admin", "secret")
  {
    hide Strip, Get, Account;
    AccountCells(host);
    assert Strip("admin") == "admin" && Strip("secret") == "secret" by { StripTrims("admin"); StripTrims("secret"); }
  }

  const LAB := [Entry(KStr("hostname"), Str("lab"))]

  lemma LabFound(py: Python)
    requires Sound(py)
    ensures FromUserData(py, LAB) == Person("lab", "", "")
  {
    StripTrims("lab");
    assert Get(LAB, KStr("hostname")) == Some(Str("lab"));
    assert KStr("chpasswd") != KStr("hostname");
  }

  // The host name is the only field the sweep empties.
  lemma AccountEmptied()
    ensures Emptied(Account(EMPTY_KEYS), "hostname") && !Emptied(Account(EMPTY_KEYS), "username")
    ensures !Emptied(Account(EMPTY_KEYS), "password")
  {
    hide Account;
    AccountCells(EMPTY_KEYS);
  }

  lemma AccountWhole(py: Python)
    requires Sound(py)
    ensures Whole(PersonOf(py, Account(EMPTY_KEYS)))
  {
    hide Strip, Get, Account, EMPTY_KEYS, Emptied;
    AccountText(py, EMPTY_KEYS);
    AccountEmptied();
    CellKeys();
    SweptText(py, Account(EMPTY_KEYS), "hostname", "");
    FieldIs(py, Account(EMPTY_KEYS), "hostname");
  }

  lemma LabClean()
    ensures CleanAt(LAB, "hostname") && UsersClean(UsersOf(LAB))
  {
    CleanText("lab");
    assert Get(LAB, KStr("hostname")) == Some(Str("lab"));
    assert KStr("chpasswd") != KStr("hostname");
  }

  // The host name is text while the identity is read, and an empty mapping after the sweep: the second completion
  // takes it from user-data.
  lemma SweptHostRefilled(py: Python, u: Urls, sourceId: string)
    requires Sound(py) && GoodUrls(u)
    ensures var c := Called(py, u, sourceId); Complete(c, Complete(c, SWEPT_SEED)) != Complete(c, SWEPT_SEED)
  {
    hide Sound, Complete, Commands, Account, Refills, Emptied, CleanAt, UsersClean, SectionsDone, IdentityDone, Marked,
      Survives, GoodUrls, PersonOf, FromUserData;
    var c := Called(py, u, sourceId);
    LabFound(py);
    LabClean();
    AccountWhole(py);
    AccountEmptied();
    RefillsExactly(py, Account(EMPTY_KEYS), LAB);
    SweptReadable(c);
    CompletedForUrls(py, u, sourceId, SWEPT_SEED);
  }

  lemma SweptReadable(c: Config)
    requires c.defaults == UNATTENDED
    ensures Readable(Filled(c, SWEPT_SEED.auto))
    ensures At(SWEPT_SEED.auto, Identity) == Some(Dict(Account(EMPTY_KEYS)))
      && At(SWEPT_SEED.auto, UserData) == Some(Dict(LAB))
  {
    hide Account, Clean;
    var a := Filled(c, SWEPT_SEED.auto);
    assert EarlyCommands !in a && LateCommands !in a && ErrorCommands !in a;
  }
}
