// The command lists the completion pipeline keeps in a seed: early, late and error commands.

module SeedCommands {
  import opened Text
  import opened Values
  import opened WgetText

  // str() of a parsed value; strings stand for themselves, lists and mappings are shown in their brackets.
  datatype Python = Python(text: Value -> string)

  ghost predicate Sound(py: Python) {
    (forall s: string :: py.text(Str(s)) == s) && Bracketed(py)
  }

  ghost predicate Bracketed(py: Python) {
    forall v: Value | v.List? || v.Dict? :: py.text(v) != "" && (py.text(v)[0] == '[' || py.text(v)[0] == '{')
  }

  const WIFI := "phy80211"
  const IMAGING := "event=imaging"
  const IMAGING_TOKEN := "{{imaging_url}}"
  const CONFIRM := "autoinstall-confirm.py"
  const INLINE_PATCH := "silence_subiquity_client_source"
  const INLINE_PYTHON := "python3 - << 'PY'"
  const INLINE_POST := "/meta/confirm"
  const LOG := "install-log"
  const LOG_TOKEN := "{{install_log_url}}"
  const SYSRQ := "sysrq-trigger"
  const REBOOT := "reboot -f"
  const UEFI := "uefi-boot-order.py"

  // ---- commands

  function PartTexts(py: Python, parts: seq<Value>): seq<string> {
    seq(|parts|, i requires 0 <= i < |parts| => py.text(parts[i]))
  }

  function TextOf(py: Python, cmd: Value): string {
    match cmd
    case List(parts) => Join(" ", PartTexts(py, parts))
    case _ => py.text(cmd)
  }

  function Texts(py: Python, cmds: seq<Value>): seq<string> {
    seq(|cmds|, i requires 0 <= i < |cmds| => TextOf(py, cmds[i]))
  }

  predicate Mentions(py: Python, cmds: seq<Value>, m: string) {
    Contains(Join(" ", Texts(py, cmds)), m)
  }

  predicate AnyMentions(py: Python, cmds: seq<Value>, m: string) {
    exists i | 0 <= i < |cmds| :: Contains(TextOf(py, cmds[i]), m)
  }

  predicate HasWifi(py: Python, cmds: seq<Value>) {
    Mentions(py, cmds, WIFI)
  }

  predicate HasImaging(py: Python, cmds: seq<Value>) {
    AnyMentions(py, cmds, IMAGING) || AnyMentions(py, cmds, IMAGING_TOKEN)
  }

  predicate HasConfirm(py: Python, cmds: seq<Value>) {
    Mentions(py, cmds, CONFIRM)
  }

  predicate HasLog(py: Python, cmds: seq<Value>) {
    Mentions(py, cmds, LOG) || Mentions(py, cmds, LOG_TOKEN)
  }

  predicate HasReboot(py: Python, cmds: seq<Value>) {
    Mentions(py, cmds, SYSRQ) || Mentions(py, cmds, REBOOT)
  }

  predicate InlineText(t: string) {
    Contains(t, INLINE_PATCH) || (Contains(t, INLINE_PYTHON) && Contains(t, INLINE_POST))
  }

  // A confirm helper pasted into the seed by an older version.
  predicate Inline(py: Python, cmd: Value) {
    InlineText(TextOf(py, cmd))
  }

  predicate AsyncText(t: string) {
    Contains(t, SYSRQ) && (Contains(t, "echo s >") || Contains(t, "echo u >"))
  }

  predicate Async(py: Python, cmd: Value) {
    AsyncText(TextOf(py, cmd))
  }

  // ---- the generated commands

  datatype Generated = Generated(wifi: string, imaging: string, confirm: string, log: string, reboot: string,
    uefi: string)

  // Each carries its own marker, none is an inline helper or an asynchronous sync, and none needs the wget rewrite.
  ghost predicate WellMade(g: Generated) {
    && Contains(g.wifi, WIFI)
    && (Contains(g.imaging, IMAGING) || Contains(g.imaging, IMAGING_TOKEN))
    && Contains(g.confirm, CONFIRM)
    && (Contains(g.log, LOG) || Contains(g.log, LOG_TOKEN))
    && (Contains(g.reboot, SYSRQ) || Contains(g.reboot, REBOOT))
    && Contains(g.uefi, UEFI)
    && !InlineText(g.wifi) && !InlineText(g.imaging) && !InlineText(g.confirm)
    && !AsyncText(g.reboot) && !AsyncText(g.uefi)
    && NoEmptyPost(g.wifi) && NoEmptyPost(g.imaging) && NoEmptyPost(g.confirm) && NoEmptyPost(g.reboot)
    && NoEmptyPost(g.uefi)
  }

  // No generated early command carries another one's marker.
  ghost predicate OwnMarkers(g: Generated) {
    && !Contains(g.imaging, WIFI) && !Contains(g.confirm, WIFI)
    && !Contains(g.wifi, IMAGING) && !Contains(g.wifi, IMAGING_TOKEN)
    && !Contains(g.confirm, IMAGING) && !Contains(g.confirm, IMAGING_TOKEN)
  }

  // ---- passes over one section

  predicate IsList(o: Option<Value>) {
    o.Some? && o.value.List?
  }

  function ItemsOf(o: Option<Value>): seq<Value> {
    if IsList(o) then o.value.items else []
  }

  function WithWifi(py: Python, g: Generated, o: Option<Value>): Value {
    if IsList(o) && HasWifi(py, o.value.items) then o.value else List([Str(g.wifi)] + ItemsOf(o))
  }

  function WithImaging(py: Python, g: Generated, o: Option<Value>): Value {
    if IsList(o) && HasImaging(py, o.value.items) then o.value else List([Str(g.imaging)] + ItemsOf(o))
  }

  function NotInline(py: Python, cmds: seq<Value>): seq<Value> {
    if cmds == [] then [] else
    var rest := NotInline(py, cmds[1..]);
    if Inline(py, cmds[0]) then rest else [cmds[0]] + rest
  }

  function WithConfirm(py: Python, g: Generated, o: Option<Value>): Value {
    var kept := NotInline(py, ItemsOf(o));
    if IsList(o) && HasConfirm(py, kept) then List(kept) else List([Str(g.confirm)] + kept)
  }

  function WithLog(py: Python, g: Generated, o: Option<Value>): Value {
    if IsList(o) && HasLog(py, o.value.items) then o.value else List(ItemsOf(o) + [Str(g.log)])
  }

  function RewrittenPart(v: Value): Value {
    if v == Str(POST_DATA) || v == Str(POST_DATA_ARG) then Str(POST_FILE) else v
  }

  function RewrittenParts(parts: seq<Value>): seq<Value> {
    seq(|parts|, i requires 0 <= i < |parts| => RewrittenPart(parts[i]))
  }

  function RewrittenCommand(cmd: Value): Value {
    match cmd
    case Str(s) => Str(Normalized(s))
    case List(parts) => List(RewrittenParts(parts))
    case _ => cmd
  }

  function RewrittenAll(cmds: seq<Value>): seq<Value> {
    seq(|cmds|, i requires 0 <= i < |cmds| => RewrittenCommand(cmds[i]))
  }

  function Rewritten(o: Option<Value>): Option<Value> {
    if IsList(o) then Some(List(RewrittenAll(o.value.items))) else o
  }

  function Synchronous(py: Python, g: Generated, cmds: seq<Value>): seq<Value> {
    seq(|cmds|, i requires 0 <= i < |cmds| => if Async(py, cmds[i]) then Str(g.reboot) else cmds[i])
  }

  function WithReboot(py: Python, g: Generated, o: Option<Value>): Value {
    var rewritten := Synchronous(py, g, ItemsOf(o));
    if IsList(o) && HasReboot(py, rewritten) then List(rewritten) else List(rewritten + [Str(g.reboot)])
  }

  // The first command that reboots by itself, or the end.
  function RebootIndex(py: Python, cmds: seq<Value>): (r: nat)
    ensures r <= |cmds|
    ensures r < |cmds| ==> HasReboot(py, [cmds[r]])
    ensures r == |cmds| ==> forall i | 0 <= i < |cmds| :: !HasReboot(py, [cmds[i]])
  {
    if cmds == [] then 0 else if HasReboot(py, [cmds[0]]) then 0 else
    assert forall i | 0 < i < |cmds| :: cmds[i] == cmds[1..][i - 1];
    1 + RebootIndex(py, cmds[1..])
  }

  function WithUefi(py: Python, g: Generated, o: Option<Value>): Value {
    var cmds := ItemsOf(o);
    if AnyMentions(py, cmds, UEFI) then List(cmds) else
    var i := RebootIndex(py, cmds);
    List(cmds[..i] + [Str(g.uefi)] + cmds[i..])
  }

  // The whole treatment of each section. order: a valid boot policy and machine id were given.
  function Early(py: Python, g: Generated, o: Option<Value>): Value {
    var confirmed := WithConfirm(py, g, Some(WithImaging(py, g, Some(WithWifi(py, g, o)))));
    List(RewrittenAll(ItemsOf(Some(confirmed))))
  }

  function Late(py: Python, g: Generated, order: bool, o: Option<Value>): Value {
    var forced := WithReboot(py, g, Rewritten(o));
    if order then WithUefi(py, g, Some(forced)) else forced
  }

  // ---- markers in joined texts

  lemma {:induction false} JoinAround(ts: seq<string>, i: nat) returns (a: string, b: string)
    requires i < |ts|
    ensures Join(" ", ts) == a + ts[i] + b && Apart(b)
    ensures forall x: string :: Join(" ", ts[i := x]) == a + x + b
    decreases i
  {
    if i == 0 {
      a := "";
      b := if |ts| == 1 then "" else " " + Join(" ", ts[1..]);
      forall x: string ensures Join(" ", ts[0 := x]) == a + x + b {
        assert ts[0 := x][1..] == ts[1..];
        if |ts| > 1 { assert x + " " + Join(" ", ts[1..]) == x + b; }
      }
      assert ts[0 := ts[0]] == ts;
    } else {
      var c, d := JoinAround(ts[1..], i - 1);
      a, b := ts[0] + " " + c, d;
      forall x: string ensures Join(" ", ts[i := x]) == a + x + b {
        assert ts[i := x][1..] == ts[1..][i - 1 := x];
        assert ts[0] + " " + (c + x + d) == a + x + b;
      }
      assert ts[i := ts[i]] == ts;
    }
  }

  // A marker without blanks is in the joined text exactly when it is in one of the texts.
  lemma {:induction false} JoinAny(ts: seq<string>, m: string)
    requires m != "" && ' ' !in m
    ensures Contains(Join(" ", ts), m) <==> exists i | 0 <= i < |ts| :: Contains(ts[i], m)
  {
    if i :| 0 <= i < |ts| && Contains(ts[i], m) { JoinContains(" ", ts, i, m); }
    if |ts| > 1 && Contains(Join(" ", ts), m) {
      CharSplits(ts[0], ' ', Join(" ", ts[1..]), m);
      if !Contains(ts[0], m) {
        JoinAny(ts[1..], m);
        var i :| 0 <= i < |ts[1..]| && Contains(ts[1..][i], m);
        assert Contains(ts[i + 1], m);
      }
    } else if |ts| == 0 {
      assert !Contains("", m);
    }
  }

  lemma Straddles(a: string, c: char, b: string, m: string, i: nat)
    requires i <= |a| < i + |m| <= |a| + 1 + |b| && Occurs(a + [c] + b, m, i)
    ensures c in m
  {
    assert (a + [c] + b)[i + (|a| - i)] == m[|a| - i];
  }

  lemma OccursLeft(a: string, b: string, m: string, i: nat)
    requires i + |m| <= |a| && Occurs(a + b, m, i)
    ensures Contains(a, m)
  {
    assert (a + b)[i..i + |m|] == a[i..i + |m|];
    assert Occurs(a, m, i);
  }

  lemma OccursRight(a: string, b: string, m: string, i: nat)
    requires |a| <= i && Occurs(a + b, m, i)
    ensures Contains(b, m)
  {
    assert (a + b)[i..i + |m|] == b[i - |a|..i - |a| + |m|];
    assert Occurs(b, m, i - |a|);
  }

  // A marker without the character between two texts is in one of them.
  lemma CharSplits(a: string, c: char, b: string, m: string)
    requires m != "" && c !in m && Contains(a + [c] + b, m)
    ensures Contains(a, m) || Contains(b, m)
  {
    hide Occurs;
    var t := a + [c] + b;
    var i: nat :| i <= |t| && Occurs(t, m, i);
    assert i + |m| <= |t| by { OccursFits(t, m, i); }
    if i + |m| <= |a| {
      assert t == a + ([c] + b);
      OccursLeft(a, [c] + b, m, i);
    } else if i > |a| {
      OccursRight(a + [c], b, m, i);
    } else {
      Straddles(a, c, b, m, i);
    }
  }

  lemma OccursFits(t: string, m: string, i: nat)
    requires Occurs(t, m, i)
    ensures i + |m| <= |t|
  {
  }
}
