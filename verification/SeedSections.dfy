// Each command section settles after one treatment, and exactly when.

module SeedSections {
  import opened Text
  import opened Values
  import opened WgetText
  import opened SeedCommands

  // ---- the wget rewrite leaves the markers alone

  // A marker the rewrite neither removes nor invents.
  predicate Steady(m: string) {
    ' ' !in m && Clear(m, POST_DATA) && Clear(m, POST_DATA_ARG) && Clear(m, POST_FILE)
  }

  // A marker whose first or second character the option lacks.
  lemma ClearByChar(m: string, x: string, c: char)
    requires |m| >= 3 && |x| >= 2 && Undashed(m) && !IsSpace(m[1]) && c !in x && (c == m[0] || c == m[1])
    ensures Clear(m, x)
  {
    forall p | 0 <= p < |x| ensures x[p] != c { assert x[p] in x; }
  }

  lemma WifiSteady()
    ensures Steady(WIFI)
  {
    hide Clear;
    ClearByChar(WIFI, POST_DATA, 'h');
    ClearByChar(WIFI, POST_DATA_ARG, 'h');
    ClearByChar(WIFI, POST_FILE, 'h');
  }

  lemma ImagingFile()
    ensures Clear(IMAGING, POST_FILE)
  {
    forall p | 0 <= p < |POST_FILE| - 1
      ensures POST_FILE[p] != 'e' || POST_FILE[p + 1] != 'v' || (p + 2 < |POST_FILE| && POST_FILE[p + 2] != 'e')
    {
    }
  }

  lemma ImagingSteady()
    ensures Steady(IMAGING)
  {
    hide Clear, Undashed;
    ClearByChar(IMAGING, POST_DATA, 'e');
    ClearByChar(IMAGING, POST_DATA_ARG, 'e');
    ImagingFile();
  }

  lemma TokenSteady()
    ensures Steady(IMAGING_TOKEN)
  {
    hide Clear, Undashed;
    ClearByChar(IMAGING_TOKEN, POST_DATA, '{');
    ClearByChar(IMAGING_TOKEN, POST_DATA_ARG, '{');
    ClearByChar(IMAGING_TOKEN, POST_FILE, '{');
  }

  lemma ConfirmSteady()
    ensures Steady(CONFIRM)
  {
    hide Clear, Undashed;
    ClearByChar(CONFIRM, POST_DATA, 'u');
    ClearByChar(CONFIRM, POST_DATA_ARG, 'u');
    ClearByChar(CONFIRM, POST_FILE, 'a');
  }

  lemma PatchClear()
    ensures Clear(INLINE_PATCH, POST_FILE)
  {
    assert POST_FILE[5] == 't' && INLINE_PATCH[0] == 's' && INLINE_PATCH[1] == 'i';
    assert POST_FILE[|POST_FILE| - 1] == 'l';
  }

  lemma ClearInline()
    ensures Clear(INLINE_PATCH, POST_FILE) && Clear(INLINE_PYTHON, POST_FILE) && Clear(INLINE_POST, POST_FILE)
  {
    hide Clear, Undashed;
    PatchClear();
    ClearByChar(INLINE_PYTHON, POST_FILE, 'y');
    ClearByChar(INLINE_POST, POST_FILE, 'm');
  }

  // Replacing options in a joined list keeps a marker clear of them.
  lemma {:induction false} JoinReplaced(ts: seq<string>, us: seq<string>, m: string, n: nat)
    requires |us| == |ts| && n <= |ts| && us[..n] == ts[..n]
    requires forall i | n <= i < |ts| ::
      us[i] == ts[i] || (Clear(m, ts[i]) && |ts[i]| >= 2 && ts[i][0] == '-' && ts[i][1] == '-')
    requires Contains(Join(" ", ts), m)
    ensures Contains(Join(" ", us), m)
    decreases |ts| - n
  {
    hide Clear, Contains, Join;
    if n == |ts| {
      assert us == ts;
    } else {
      var next := ts[n := us[n]];
      if us[n] == ts[n] {
        assert next == ts;
      } else {
        var a, b := JoinAround(ts, n);
        ReplaceKeeps(a, ts[n], us[n], b, m);
        assert Join(" ", next) == a + us[n] + b;
      }
      assert us[..n + 1] == next[..n + 1];
      JoinReplaced(next, us, m, n + 1);
    }
  }

  lemma CommandKeeps(py: Python, cmd: Value, m: string)
    requires Sound(py) && Clear(m, POST_DATA) && Clear(m, POST_DATA_ARG) && Contains(TextOf(py, cmd), m)
    ensures Contains(TextOf(py, RewrittenCommand(cmd)), m)
  {
    hide Clear, Contains, Join, Normalized;
    match cmd
    case Str(s) => RewriteKeeps(s, m);
    case List(parts) => JoinReplaced(PartTexts(py, parts), PartTexts(py, RewrittenParts(parts)), m, 0);
    case _ =>
  }

  lemma CommandAdds(py: Python, cmd: Value, m: string)
    requires Sound(py) && Clear(m, POST_FILE) && Contains(TextOf(py, RewrittenCommand(cmd)), m)
    ensures Contains(TextOf(py, cmd), m)
  {
    hide Clear, Contains, Join, Normalized;
    match cmd
    case Str(s) => RewriteAdds(s, m);
    case List(parts) => JoinReplaced(PartTexts(py, RewrittenParts(parts)), PartTexts(py, parts), m, 0);
    case _ =>
  }

  lemma RewrittenTwice(cmd: Value)
    ensures RewrittenCommand(RewrittenCommand(cmd)) == RewrittenCommand(cmd)
  {
    hide Normalized;
    match cmd
    case Str(s) => NormalizedTwice(s);
    case List(parts) => assert RewrittenParts(RewrittenParts(parts)) == RewrittenParts(parts);
    case _ =>
  }

  lemma AllTwice(cmds: seq<Value>)
    ensures RewrittenAll(RewrittenAll(cmds)) == RewrittenAll(cmds)
  {
    forall i | 0 <= i < |cmds|
      ensures RewrittenAll(RewrittenAll(cmds))[i] == RewrittenAll(cmds)[i] { RewrittenTwice(cmds[i]); }
  }

  // ---- markers in lists

  lemma MentionsAny(py: Python, cmds: seq<Value>, m: string)
    requires m != "" && ' ' !in m
    ensures Mentions(py, cmds, m) <==> AnyMentions(py, cmds, m)
  {
    hide Contains, Join, TextOf;
    var ts := Texts(py, cmds);
    JoinAny(ts, m);
    if i :| 0 <= i < |ts| && Contains(ts[i], m) { assert Contains(TextOf(py, cmds[i]), m); }
    if i :| 0 <= i < |cmds| && Contains(TextOf(py, cmds[i]), m) { assert Contains(ts[i], m); }
  }

  lemma AnyFirst(py: Python, c: Value, cmds: seq<Value>, m: string)
    ensures AnyMentions(py, [c] + cmds, m) <==> Contains(TextOf(py, c), m) || AnyMentions(py, cmds, m)
  {
    hide Contains, TextOf;
    var all := [c] + cmds;
    assert all[0] == c;
    if i :| 0 <= i < |cmds| && Contains(TextOf(py, cmds[i]), m) { assert all[i + 1] == cmds[i]; }
    if i :| 0 <= i < |all| && Contains(TextOf(py, all[i]), m) { assert all[i] == if i == 0 then c else cmds[i - 1]; }
  }

  lemma AnyRewritten(py: Python, cmds: seq<Value>, m: string)
    requires Sound(py) && Steady(m)
    ensures AnyMentions(py, RewrittenAll(cmds), m) <==> AnyMentions(py, cmds, m)
  {
    hide Contains, TextOf, RewrittenCommand, Clear;
    var all := RewrittenAll(cmds);
    if i :| 0 <= i < |cmds| && Contains(TextOf(py, cmds[i]), m) {
      CommandKeeps(py, cmds[i], m);
      assert Contains(TextOf(py, all[i]), m);
    }
    if i :| 0 <= i < |all| && Contains(TextOf(py, all[i]), m) {
      CommandAdds(py, cmds[i], m);
      assert Contains(TextOf(py, cmds[i]), m);
    }
  }

  ghost predicate NoInline(py: Python, cmds: seq<Value>) {
    forall i | 0 <= i < |cmds| :: !Inline(py, cmds[i])
  }

  lemma {:induction false} NotInlineIs(py: Python, cmds: seq<Value>)
    ensures NoInline(py, NotInline(py, cmds))
    ensures NoInline(py, cmds) ==> NotInline(py, cmds) == cmds
  {
    hide Inline;
    if cmds != [] {
      NotInlineIs(py, cmds[1..]);
      assert [cmds[0]] + cmds[1..] == cmds;
    }
  }

  lemma InlineStays(py: Python, cmds: seq<Value>)
    requires Sound(py) && NoInline(py, cmds)
    ensures NoInline(py, RewrittenAll(cmds))
  {
    hide RewrittenCommand, TextOf, Contains;
    ClearInline();
    forall i | 0 <= i < |cmds| ensures !Inline(py, RewrittenAll(cmds)[i]) {
      var c := RewrittenAll(cmds)[i];
      assert !Inline(py, cmds[i]);
      if Contains(TextOf(py, c), INLINE_PATCH) { CommandAdds(py, cmds[i], INLINE_PATCH); }
      if Contains(TextOf(py, c), INLINE_PYTHON) { CommandAdds(py, cmds[i], INLINE_PYTHON); }
      if Contains(TextOf(py, c), INLINE_POST) { CommandAdds(py, cmds[i], INLINE_POST); }
    }
  }

  // ---- early commands

  // Whenever a command carries the Wi-Fi or the imaging marker, one that is not an inline confirm helper does.
  predicate Survives(py: Python, cmds: seq<Value>) {
    && (HasWifi(py, cmds) ==> HasWifi(py, NotInline(py, cmds)))
    && (HasImaging(py, cmds) ==> HasImaging(py, NotInline(py, cmds)))
  }

  // The section before the rewrite: w and i say whether the Wi-Fi and imaging commands were added, c the confirm one.
  function Built(g: Generated, c: bool, i: bool, w: bool, cmds: seq<Value>): seq<Value> {
    (if c then [Str(g.confirm)] else [])
      + ((if i then [Str(g.imaging)] else []) + ((if w then [Str(g.wifi)] else []) + cmds))
  }

  lemma AnyMaybe(py: Python, b: bool, c: string, cmds: seq<Value>, m: string)
    requires Sound(py)
    ensures AnyMentions(py, (if b then [Str(c)] else []) + cmds, m) <==>
      (b && Contains(c, m)) || AnyMentions(py, cmds, m)
  {
    if b { AnyFirst(py, Str(c), cmds, m); } else { assert [] + cmds == cmds; }
  }

  lemma AnyBuilt(py: Python, g: Generated, c: bool, i: bool, w: bool, cmds: seq<Value>, m: string)
    requires Sound(py)
    ensures AnyMentions(py, Built(g, c, i, w, cmds), m) <==>
      (c && Contains(g.confirm, m)) || (i && Contains(g.imaging, m)) || (w && Contains(g.wifi, m))
        || AnyMentions(py, cmds, m)
  {
    hide Contains, AnyMentions;
    var one := (if w then [Str(g.wifi)] else []) + cmds;
    var two := (if i then [Str(g.imaging)] else []) + one;
    AnyMaybe(py, w, g.wifi, cmds, m);
    AnyMaybe(py, i, g.imaging, one, m);
    AnyMaybe(py, c, g.confirm, two, m);
  }

  lemma {:induction false} NotInlineBuilt(py: Python, g: Generated, i: bool, w: bool, cmds: seq<Value>)
    requires Sound(py) && WellMade(g)
    ensures NotInline(py, Built(g, false, i, w, cmds)) == Built(g, false, i, w, NotInline(py, cmds))
  {
    hide InlineText, Contains, NoEmptyPost;
    var one := (if w then [Str(g.wifi)] else []) + cmds;
    var two := (if i then [Str(g.imaging)] else []) + one;
    var kept := NotInline(py, cmds);
    NotInlineFirst(py, w, g.wifi, cmds);
    NotInlineFirst(py, i, g.imaging, one);
    assert [] + two == two;
    assert Built(g, false, i, w, kept)
      == (if i then [Str(g.imaging)] else []) + ((if w then [Str(g.wifi)] else []) + kept);
  }

  lemma NotInlineFirst(py: Python, b: bool, c: string, cmds: seq<Value>)
    requires Sound(py) && !InlineText(c)
    ensures NotInline(py, (if b then [Str(c)] else []) + cmds) == (if b then [Str(c)] else []) + NotInline(py, cmds)
  {
    hide InlineText;
    if b {
      assert ([Str(c)] + cmds)[1..] == cmds && ([Str(c)] + cmds)[0] == Str(c);
    } else {
      assert [] + cmds == cmds && [] + NotInline(py, cmds) == NotInline(py, cmds);
    }
  }

  // Which commands get added.
  predicate AddsWifi(py: Python, o: Option<Value>) {
    !(IsList(o) && HasWifi(py, o.value.items))
  }

  predicate AddsImaging(py: Python, g: Generated, o: Option<Value>) {
    !HasImaging(py, ItemsOf(Some(WithWifi(py, g, o))))
  }

  lemma SecondItems(py: Python, g: Generated, o: Option<Value>)
    ensures ItemsOf(Some(WithImaging(py, g, Some(WithWifi(py, g, o)))))
         == Built(g, false, AddsImaging(py, g, o), AddsWifi(py, o), ItemsOf(o))
  {
    hide HasImaging, HasWifi;
    var first := ItemsOf(Some(WithWifi(py, g, o)));
    assert [] + first == first;
    assert [] + ([Str(g.imaging)] + first) == [Str(g.imaging)] + first;
  }

  lemma ThirdItems(py: Python, g: Generated, list: Value)
    requires list.List?
    ensures var kept := NotInline(py, list.items);
      WithConfirm(py, g, Some(list)) == List((if HasConfirm(py, kept) then [] else [Str(g.confirm)]) + kept)
  {
    hide HasConfirm, NotInline;
    var kept := NotInline(py, list.items);
    assert [] + kept == kept;
  }

  // The treated section: the surviving commands behind the added ones, rewritten.
  lemma EarlyIs(py: Python, g: Generated, o: Option<Value>) returns (c: bool)
    requires Sound(py) && WellMade(g)
    ensures var kept := Built(g, false, AddsImaging(py, g, o), AddsWifi(py, o), NotInline(py, ItemsOf(o)));
      && c == !HasConfirm(py, kept)
      && Early(py, g, o)
        == List(RewrittenAll(Built(g, c, AddsImaging(py, g, o), AddsWifi(py, o), NotInline(py, ItemsOf(o)))))
  {
    hide HasConfirm, WellMade, RewrittenAll, NotInline, Sound, AddsWifi, AddsImaging, WithWifi, WithConfirm;
    var i, w := AddsImaging(py, g, o), AddsWifi(py, o);
    var second := WithImaging(py, g, Some(WithWifi(py, g, o)));
    SecondItems(py, g, o);
    ThirdItems(py, g, second);
    NotInlineBuilt(py, g, i, w, ItemsOf(o));
    var kept := Built(g, false, i, w, NotInline(py, ItemsOf(o)));
    c := !HasConfirm(py, kept);
    var rest := (if i then [Str(g.imaging)] else []) + ((if w then [Str(g.wifi)] else []) + NotInline(py, ItemsOf(o)));
    assert [] + rest == rest;
  }

  // The early section's confirm condition, inline condition and rewrite always settle.
  lemma EarlySettles(py: Python, g: Generated, o: Option<Value>)
    requires Sound(py) && WellMade(g)
    ensures var r := Early(py, g, o).items; HasConfirm(py, r) && NoInline(py, r) && RewrittenAll(r) == r
  {
    hide Contains, AnyMentions, Mentions, Inline, RewrittenAll, NotInline, NoInline, InlineText, AsyncText, NoEmptyPost,
      Steady;
    hide AddsWifi, AddsImaging, Early, Built, Sound;
    var c := EarlyIs(py, g, o);
    var i, w := AddsImaging(py, g, o), AddsWifi(py, o);
    var kept := NotInline(py, ItemsOf(o));
    var built := Built(g, c, i, w, kept);
    BuiltNoInline(py, g, c, i, w, ItemsOf(o));
    InlineStays(py, built);
    AllTwice(built);
    ConfirmSteady();
    MarkerCount(py, g, c, i, w, kept, CONFIRM);
    MarkerCount(py, g, false, i, w, kept, CONFIRM);
  }

  lemma NoneMention(py: Python, m: string)
    ensures !AnyMentions(py, [], m)
  {
  }

  // Its Wi-Fi marker is there afterwards unless it was lost with the inline helpers.
  lemma WifiAfter(py: Python, g: Generated, o: Option<Value>)
    requires Sound(py) && WellMade(g)
    ensures var r := Early(py, g, o).items; var items := ItemsOf(o);
      && ((HasWifi(py, items) ==> HasWifi(py, NotInline(py, items))) ==> HasWifi(py, r))
      && (OwnMarkers(g) && HasWifi(py, r) ==> (HasWifi(py, items) ==> HasWifi(py, NotInline(py, items))))
  {
    hide Contains, AnyMentions, Mentions, RewrittenAll, NotInline, InlineText, AsyncText, NoEmptyPost, Steady,
      AddsImaging, Early, Built, Sound;
    var c := EarlyIs(py, g, o);
    var items := ItemsOf(o);
    WifiSteady();
    MarkerCount(py, g, c, AddsImaging(py, g, o), AddsWifi(py, o), NotInline(py, items), WIFI);
    SpacelessMentions(py, items);
    SpacelessMentions(py, NotInline(py, items));
    NoneMention(py, WIFI);
  }

  lemma ImagingAfter(py: Python, g: Generated, o: Option<Value>)
    requires Sound(py) && WellMade(g)
    ensures var r := Early(py, g, o).items; var items := ItemsOf(o);
      && ((HasImaging(py, items) ==> HasImaging(py, NotInline(py, items))) ==> HasImaging(py, r))
      && (OwnMarkers(g) && HasImaging(py, r) ==> (HasImaging(py, items) ==> HasImaging(py, NotInline(py, items))))
  {
    hide Contains, AnyMentions, Mentions, RewrittenAll, NotInline, InlineText, AsyncText, NoEmptyPost, Steady,
      AddsImaging, AddsWifi, Early, Built, Sound;
    var c := EarlyIs(py, g, o);
    var items := ItemsOf(o);
    ImagingSteady();
    TokenSteady();
    MarkerCount(py, g, c, AddsImaging(py, g, o), AddsWifi(py, o), NotInline(py, items), IMAGING);
    MarkerCount(py, g, c, AddsImaging(py, g, o), AddsWifi(py, o), NotInline(py, items), IMAGING_TOKEN);
    FirstImaging(py, g, o);
  }

  // Joined-text and per-command tests agree on the early markers.
  lemma SpacelessMentions(py: Python, cmds: seq<Value>)
    ensures Mentions(py, cmds, WIFI) <==> AnyMentions(py, cmds, WIFI)
    ensures Mentions(py, cmds, CONFIRM) <==> AnyMentions(py, cmds, CONFIRM)
  {
    hide Mentions, AnyMentions;
    MentionsAny(py, cmds, WIFI);
    MentionsAny(py, cmds, CONFIRM);
  }

  lemma MarkerCount(py: Python, g: Generated, c: bool, i: bool, w: bool, kept: seq<Value>, m: string)
    requires Sound(py) && Steady(m) && m != ""
    ensures var built := Built(g, c, i, w, kept); var any := AnyMentions(py, built, m);
      && (any <==>
          (c && Contains(g.confirm, m)) || (i && Contains(g.imaging, m)) || (w && Contains(g.wifi, m))
          || AnyMentions(py, kept, m))
      && (AnyMentions(py, RewrittenAll(built), m) <==> any) && (Mentions(py, RewrittenAll(built), m) <==> any)
      && (Mentions(py, built, m) <==> any)
  {
    hide Contains, AnyMentions, Mentions, RewrittenAll, Built, Clear;
    AnyBuilt(py, g, c, i, w, kept, m);
    AnyRewritten(py, Built(g, c, i, w, kept), m);
    MentionsAny(py, RewrittenAll(Built(g, c, i, w, kept)), m);
    MentionsAny(py, Built(g, c, i, w, kept), m);
  }

  lemma BuiltNoInline(py: Python, g: Generated, c: bool, i: bool, w: bool, cmds: seq<Value>)
    requires Sound(py) && WellMade(g)
    ensures NoInline(py, Built(g, c, i, w, NotInline(py, cmds)))
  {
    hide InlineText, Contains, AsyncText, NoEmptyPost;
    NotInlineIs(py, cmds);
  }

  // Whether the imaging command is added depends on the seed's own commands and the Wi-Fi command's text.
  lemma FirstImaging(py: Python, g: Generated, o: Option<Value>)
    requires Sound(py)
    ensures AddsImaging(py, g, o) <==>
      !HasImaging(py, ItemsOf(o))
        && !(AddsWifi(py, o) && (Contains(g.wifi, IMAGING) || Contains(g.wifi, IMAGING_TOKEN)))
  {
    hide Contains, AnyMentions, HasWifi;
    var items := ItemsOf(o);
    AnyMaybe(py, AddsWifi(py, o), g.wifi, items, IMAGING);
    AnyMaybe(py, AddsWifi(py, o), g.wifi, items, IMAGING_TOKEN);
    assert [] + items == items;
  }

  // A settled section is left exactly as it is, and only a settled one is.
  lemma EarlyUnchanged(py: Python, g: Generated, cmds: seq<Value>)
    requires Sound(py) && WellMade(g) && NoInline(py, cmds) && HasConfirm(py, cmds) && RewrittenAll(cmds) == cmds
    ensures Early(py, g, Some(List(cmds))) == List(cmds) <==> HasWifi(py, cmds) && HasImaging(py, cmds)
  {
    hide HasWifi, HasImaging, HasConfirm, WellMade, RewrittenAll, Sound;
    var o := Some(List(cmds));
    var c := EarlyIs(py, g, o);
    NotInlineIs(py, cmds);
    var i, w := AddsImaging(py, g, o), AddsWifi(py, o);
    var built := Built(g, c, i, w, cmds);
    assert |RewrittenAll(built)| == |built| by { SameLength(built); }
    if !i && !w {
      assert Built(g, false, i, w, cmds) == cmds;
    }
    if HasWifi(py, cmds) { assert WithWifi(py, g, o) == List(cmds); }
  }

  lemma SameLength(cmds: seq<Value>)
    ensures |RewrittenAll(cmds)| == |cmds|
  {
  }

  // Treating the early commands twice changes nothing more exactly when their markers survive the inline filter.
  lemma EarlyTwice(py: Python, g: Generated, o: Option<Value>)
    requires Sound(py) && WellMade(g) && OwnMarkers(g)
    ensures Early(py, g, Some(Early(py, g, o))) == Early(py, g, o) <==> Survives(py, ItemsOf(o))
  {
    hide HasWifi, HasImaging, HasConfirm, WellMade, RewrittenAll, Sound, OwnMarkers, NotInline, Early;
    EarlySettles(py, g, o);
    WifiAfter(py, g, o);
    ImagingAfter(py, g, o);
    var c := EarlyIs(py, g, o);
    EarlyUnchanged(py, g, Early(py, g, o).items);
  }

  // ---- late commands

  ghost predicate NoAsync(py: Python, cmds: seq<Value>) {
    forall i | 0 <= i < |cmds| :: !Async(py, cmds[i])
  }

  // All late-command conditions hold.
  ghost predicate LateSettled(py: Python, order: bool, cmds: seq<Value>) {
    && HasReboot(py, cmds) && NoAsync(py, cmds) && RewrittenAll(cmds) == cmds
    && (order ==> AnyMentions(py, cmds, UEFI))
  }

  lemma MentionsAt(py: Python, cmds: seq<Value>, i: nat, m: string)
    requires i < |cmds| && Contains(TextOf(py, cmds[i]), m)
    ensures Mentions(py, cmds, m)
  {
    hide Contains, Join, TextOf;
    assert Texts(py, cmds)[i] == TextOf(py, cmds[i]);
    JoinContains(" ", Texts(py, cmds), i, m);
  }

  lemma RebootsAt(py: Python, cmds: seq<Value>, i: nat)
    requires i < |cmds| && HasReboot(py, [cmds[i]])
    ensures HasReboot(py, cmds)
  {
    hide Contains, TextOf;
    assert Join(" ", Texts(py, [cmds[i]])) == TextOf(py, cmds[i]);
    if Mentions(py, [cmds[i]], SYSRQ) { MentionsAt(py, cmds, i, SYSRQ); } else { MentionsAt(py, cmds, i, REBOOT); }
  }

  lemma {:induction false} JoinLonger(ts: seq<string>, x: string, m: string)
    requires ts != [] && Contains(Join(" ", ts), m)
    ensures Contains(Join(" ", ts + [x]), m)
  {
    JoinAppend(ts, x);
    ContainsWider("", Join(" ", ts), " " + x, m);
    assert "" + Join(" ", ts) + (" " + x) == Join(" ", ts) + " " + x;
  }

  lemma {:induction false} JoinAppend(ts: seq<string>, x: string)
    requires ts != []
    ensures Join(" ", ts + [x]) == Join(" ", ts) + " " + x
  {
    var all := ts + [x];
    if |ts| == 1 {
      assert all[1..] == [x];
    } else {
      assert all[1..] == ts[1..] + [x];
      JoinAppend(ts[1..], x);
      assert ts[0] + " " + (Join(" ", ts[1..]) + " " + x) == (ts[0] + " " + Join(" ", ts[1..])) + " " + x;
    }
  }

  lemma NothingReboots(py: Python)
    ensures !HasReboot(py, [])
  {
    NotInEmpty(SYSRQ);
    NotInEmpty(REBOOT);
  }

  // A command at the end breaks no joined text.
  lemma RebootsLonger(py: Python, cmds: seq<Value>, c: Value)
    requires HasReboot(py, cmds)
    ensures HasReboot(py, cmds + [c])
  {
    hide Contains, TextOf;
    NothingReboots(py);
    assert Texts(py, cmds + [c]) == Texts(py, cmds) + [TextOf(py, c)];
    if Mentions(py, cmds, SYSRQ) { JoinLonger(Texts(py, cmds), TextOf(py, c), SYSRQ); }
    else { JoinLonger(Texts(py, cmds), TextOf(py, c), REBOOT); }
  }

  lemma ForcedSettles(py: Python, g: Generated, o: Option<Value>)
    requires Sound(py) && WellMade(g)
    ensures var r := WithReboot(py, g, Rewritten(o)).items; HasReboot(py, r) && NoAsync(py, r) && RewrittenAll(r) == r
  {
    hide Contains, InlineText, AsyncText, Mentions, RewrittenCommand, Normalized, NoEmptyPost;
    var items := ItemsOf(Rewritten(o));
    var sync := Synchronous(py, g, items);
    var r := WithReboot(py, g, Rewritten(o)).items;
    var last := Str(g.reboot);
    assert TextOf(py, last) == g.reboot;
    RewrittenReboot(g);
    forall i | 0 <= i < |r| ensures !Async(py, r[i]) && RewrittenCommand(r[i]) == r[i] {
      if i < |items| && r[i] == items[i] { RewrittenTwice(o.value.items[i]); }
    }
    if r != sync {
      assert r == sync + [last] && r[|sync|] == last;
      if Contains(g.reboot, SYSRQ) { MentionsAt(py, r, |sync|, SYSRQ); } else { MentionsAt(py, r, |sync|, REBOOT); }
    }
  }

  lemma RewrittenReboot(g: Generated)
    requires WellMade(g)
    ensures RewrittenCommand(Str(g.reboot)) == Str(g.reboot) && RewrittenCommand(Str(g.uefi)) == Str(g.uefi)
  {
    hide Contains, InlineText, AsyncText, NoEmptyPost;
    NormalizedSame(g.reboot);
    NormalizedSame(g.uefi);
  }

  // The order command goes in without disturbing the others.
  lemma InsertSettles(py: Python, g: Generated, cmds: seq<Value>)
    requires Sound(py) && WellMade(g) && HasReboot(py, cmds) && NoAsync(py, cmds) && RewrittenAll(cmds) == cmds
    ensures var r := WithUefi(py, g, Some(List(cmds))).items; LateSettled(py, true, r)
  {
    hide Contains, InlineText, AsyncText, RewrittenCommand, NoEmptyPost, HasReboot;
    if !AnyMentions(py, cmds, UEFI) {
      var i := RebootIndex(py, cmds);
      var u := Str(g.uefi);
      var r := cmds[..i] + [u] + cmds[i..];
      assert TextOf(py, u) == g.uefi && r[i] == u;
      RewrittenReboot(g);
      forall k | 0 <= k < |r| ensures !Async(py, r[k]) && RewrittenCommand(r[k]) == r[k] {
        if k != i {
          var j := if k < i then k else k - 1;
          assert r[k] == cmds[j] && RewrittenAll(cmds)[j] == RewrittenCommand(cmds[j]);
        }
      }
      if i < |cmds| {
        assert r[i + 1] == cmds[i];
        RebootsAt(py, r, i + 1);
      } else {
        RebootsLonger(py, cmds, u);
        assert r == cmds + [u];
      }
    }
  }

  lemma LateSettles(py: Python, g: Generated, order: bool, o: Option<Value>)
    requires Sound(py) && WellMade(g)
    ensures LateSettled(py, order, Late(py, g, order, o).items)
  {
    hide HasReboot, NoAsync, RewrittenAll, WellMade, Sound, WithReboot, WithUefi, AnyMentions;
    ForcedSettles(py, g, o);
    var forced := WithReboot(py, g, Rewritten(o));
    assert forced.List? by { ForcedList(py, g, Rewritten(o)); }
    if order { InsertSettles(py, g, forced.items); }
  }

  lemma ForcedList(py: Python, g: Generated, o: Option<Value>)
    ensures WithReboot(py, g, o).List?
  {
  }

  // A settled section is left exactly as it is.
  lemma LateUnchanged(py: Python, g: Generated, order: bool, cmds: seq<Value>)
    requires LateSettled(py, order, cmds)
    ensures Late(py, g, order, Some(List(cmds))) == List(cmds)
  {
    hide HasReboot, Async, RewrittenCommand, AnyMentions;
    assert Synchronous(py, g, cmds) == cmds;
  }

  // ---- error commands

  lemma LogSettles(py: Python, g: Generated, o: Option<Value>)
    requires Sound(py) && WellMade(g)
    ensures HasLog(py, WithLog(py, g, o).items)
    ensures HasLog(py, WithLog(py, g, o).items) ==> WithLog(py, g, Some(WithLog(py, g, o))) == WithLog(py, g, o)
  {
    hide Contains, Mentions, InlineText, AsyncText, NoEmptyPost;
    var r := WithLog(py, g, o).items;
    if !(IsList(o) && HasLog(py, o.value.items)) {
      var n := |ItemsOf(o)|;
      assert r[n] == Str(g.log) && TextOf(py, r[n]) == g.log;
      if Contains(g.log, LOG) { MentionsAt(py, r, n, LOG); } else { MentionsAt(py, r, n, LOG_TOKEN); }
    }
  }
}
