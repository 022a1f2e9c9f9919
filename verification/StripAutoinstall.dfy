// Turning an installer seed into a first-boot seed: which early and late commands become `runcmd` entries.

module StripAutoinstall {
  import opened Text

  // A command in the seed: a shell line, an argument list, or something else.
  datatype Command = Shell(line: string) | Argv(parts: seq<string>) | Odd(text: string)

  const INSTALLER_ONLY: seq<string> :=
    ["phy80211", "autoinstall-confirm.py", "subiquity-server-debug.log", "install_log_url", "sysrq-trigger",
     "reboot -f", "uefi-boot-order.py"]

  function CommandText(c: Command): string {
    match c
    case Shell(line) => line
    case Argv(parts) => Join(" ", parts)
    case Odd(text) => text
  }

  predicate Marked(c: Command) {
    exists i | 0 <= i < |INSTALLER_ONLY| :: Contains(CommandText(c), INSTALLER_ONLY[i])
  }

  // The text after a leading `curtin in-target --`.
  function AfterCurtin(s: string): string {
    if !StartsWith(s, "curtin") then s else
    var a := s[|"curtin"|..];
    var b := LStrip(a);
    if b == a || !StartsWith(b, "in-target") then s else
    var c := b[|"in-target"|..];
    var d := LStrip(c);
    if d == c || !StartsWith(d, "--") then s else LStrip(d[|"--"|..])
  }

  function ArgvAfterCurtin(parts: seq<string>): seq<string> {
    if |parts| >= 2 && parts[0] == "curtin" && parts[1] == "in-target" then
      var rest := parts[2..];
      if rest != [] && rest[0] == "--" then rest[1..] else rest
    else parts
  }

  // The command as it runs on the installed system, if there is anything left of it.
  function Unwrapped(c: Command): Option<Command> {
    match c
    case Shell(line) => var text := AfterCurtin(Strip(line)); if text == "" then None else Some(Shell(text))
    case Argv(parts) => var rest := ArgvAfterCurtin(parts); if rest == [] then None else Some(Argv(rest))
    case Odd(_) => None
  }

  // What a command becomes on the first boot, if anything: a marked one becomes nothing.
  function Converted(c: Command): Option<Command> {
    if Marked(c) then None else Unwrapped(c)
  }

  ghost predicate Ran(commands: seq<Command>, text: string) {
    exists i | 0 <= i < |commands| :: CommandText(commands[i]) == text
  }

  function Texts(commands: seq<Command>): set<string> {
    set i | 0 <= i < |commands| :: CommandText(commands[i])
  }

  // The commands kept after `existing`, scanning in order.
  function Kept(existing: seq<Command>, commands: seq<Command>): seq<Command> {
    if commands == [] then [] else
    var prev := Kept(existing, commands[..|commands| - 1]);
    match Converted(commands[|commands| - 1])
    case None => prev
    case Some(c) => if CommandText(c) in Texts(existing + prev) then prev else prev + [c]
  }

  // A section that is not a list contributes nothing.
  function Section(s: Option<seq<Command>>): seq<Command> {
    match s case Some(commands) => commands case None => []
  }

  // The `runcmd` of the first-boot seed; None: no such key.
  function RunCommands(runcmd: Option<seq<Command>>, early: Option<seq<Command>>,
                       late: Option<seq<Command>>): Option<seq<Command>> {
    var kept := Kept(Section(runcmd), Section(early) + Section(late));
    if kept == [] then runcmd else Some(Section(runcmd) + kept)
  }

  lemma KeptStep(existing: seq<Command>, done: seq<Command>, next: Command)
    ensures Kept(existing, done + [next]) == var prev := Kept(existing, done);
      match Converted(next)
      case None => prev
      case Some(c) => if CommandText(c) in Texts(existing + prev) then prev else prev + [c]
  {
    var all := done + [next];
    assert all[..|all| - 1] == done && all[|all| - 1] == next;
  }

  // Scan one more section; done: what was scanned before.
  method AppendKept(existing: seq<Command>, commands: seq<Command>, before: seq<Command>, seenBefore: set<string>,
                    ghost done: seq<Command>)
    returns (kept: seq<Command>, seen: set<string>)
    requires seenBefore == Texts(existing + before) && before == Kept(existing, done)
    ensures seen == Texts(existing + kept) && kept == Kept(existing, done + commands)
  {
    hide Converted, CommandText, Texts, Kept;
    kept, seen := before, seenBefore;
    var n := 0;
    assert done + commands[..0] == done;
    while n < |commands|
      invariant n <= |commands| && seen == Texts(existing + kept) && kept == Kept(existing, done + commands[..n])
    {
      KeptStep(existing, done + commands[..n], commands[n]);
      assert (done + commands[..n]) + [commands[n]] == done + commands[..n + 1];
      var converted := Converted(commands[n]);
      if converted.Some? && CommandText(converted.value) !in seen {
        TextsGrow(existing + kept, converted.value);
        assert existing + (kept + [converted.value]) == (existing + kept) + [converted.value];
        kept := kept + [converted.value];
        seen := seen + {CommandText(converted.value)};
      }
      n := n + 1;
    }
    assert done + commands[..n] == done + commands;
  }

  lemma TextsGrow(commands: seq<Command>, c: Command)
    ensures Texts(commands + [c]) == Texts(commands) + {CommandText(c)}
  {
    var all := commands + [c];
    forall t | t in Texts(commands) ensures t in Texts(all) {
      var i :| 0 <= i < |commands| && CommandText(commands[i]) == t;
      assert all[i] == commands[i];
    }
    assert all[|commands|] == c;
  }

  // The source's loop over both sections with one set of seen texts.
  method CollectRunCommands(runcmd: Option<seq<Command>>, early: Option<seq<Command>>, late: Option<seq<Command>>)
    returns (r: Option<seq<Command>>)
    ensures r == RunCommands(runcmd, early, late)
  {
    var existing := Section(runcmd);
    var kept, seen := [], Texts(existing);
    assert existing + kept == existing;
    kept, seen := AppendKept(existing, Section(early), kept, seen, []);
    assert [] + Section(early) == Section(early);
    kept, seen := AppendKept(existing, Section(late), kept, seen, Section(early));
    r := if kept == [] then runcmd else Some(existing + kept);
  }

  // ---- what is kept

  // Entry k of the result comes from command source[k], the first whose converted text is that entry's.
  ghost predicate FirstOf(existing: seq<Command>, commands: seq<Command>, kept: seq<Command>, source: seq<nat>) {
    && |source| == |kept|
    && (forall k | 0 <= k < |kept| :: source[k] < |commands| && Converted(commands[source[k]]) == Some(kept[k]))
    && (forall j, k | 0 <= j < k < |kept| :: source[j] < source[k])
    && (forall k, i | 0 <= k < |kept| && 0 <= i < source[k] && Converted(commands[i]).Some? ::
          CommandText(Converted(commands[i]).value) != CommandText(kept[k]))
  }

  // No text twice, none that already ran.
  ghost predicate NoRepeats(existing: seq<Command>, kept: seq<Command>) {
    && (forall k | 0 <= k < |kept| :: !Ran(existing, CommandText(kept[k])))
    && (forall j, k | 0 <= j < k < |kept| :: CommandText(kept[j]) != CommandText(kept[k]))
  }

  // Everything convertible is there by its text.
  ghost predicate Complete(existing: seq<Command>, commands: seq<Command>, kept: seq<Command>) {
    forall i | 0 <= i < |commands| && Converted(commands[i]).Some? ::
      Ran(existing + kept, CommandText(Converted(commands[i]).value))
  }

  lemma RanSplit(a: seq<Command>, b: seq<Command>, text: string)
    ensures Ran(a + b, text) <==> Ran(a, text) || Ran(b, text)
    ensures text in Texts(a) <==> Ran(a, text)
  {
    if i :| 0 <= i < |a| && CommandText(a[i]) == text { assert (a + b)[i] == a[i]; }
    if i :| 0 <= i < |b| && CommandText(b[i]) == text { assert (a + b)[|a| + i] == b[i]; }
    if i :| 0 <= i < |a + b| && CommandText((a + b)[i]) == text {
      assert (a + b)[i] == if i < |a| then a[i] else b[i - |a|];
    }
  }

  lemma CompleteStep(existing: seq<Command>, commands: seq<Command>, prev: seq<Command>, kept: seq<Command>)
    requires commands != [] && Complete(existing, commands[..|commands| - 1], prev)
    requires kept == prev || (kept != [] && kept[..|kept| - 1] == prev)
    requires var last := Converted(commands[|commands| - 1]);
      last.Some? ==> Ran(existing + kept, CommandText(last.value))
    ensures Complete(existing, commands, kept)
  {
    hide Converted, CommandText;
    var n := |commands| - 1;
    forall i | 0 <= i < |commands| && Converted(commands[i]).Some?
      ensures Ran(existing + kept, CommandText(Converted(commands[i]).value))
    {
      if i < n {
        assert commands[..n][i] == commands[i];
        RanSplit(existing + prev, kept[|prev|..], CommandText(Converted(commands[i]).value));
        assert (existing + prev) + kept[|prev|..] == existing + kept;
      }
    }
  }

  // The kept commands are the first occurrences, in early-then-late order, without repeats and without gaps.
  lemma {:induction false} KeptExactly(existing: seq<Command>, commands: seq<Command>) returns (source: seq<nat>)
    ensures var kept := Kept(existing, commands);
      FirstOf(existing, commands, kept, source) && NoRepeats(existing, kept) && Complete(existing, commands, kept)
  {
    hide Converted, CommandText, Texts, Ran, Complete;
    if commands == [] {
      source := [];
      NothingMissing(existing);
    } else {
      var n := |commands| - 1;
      var before := KeptExactly(existing, commands[..n]);
      var prev, kept := Kept(existing, commands[..n]), Kept(existing, commands);
      source := before;
      match Converted(commands[n])
      case None => CompleteStep(existing, commands, prev, kept);
      case Some(c) =>
        var text := CommandText(c);
        RanSplit(existing + prev, [], text);
        RanSplit(existing, prev, text);
        if kept != prev {
          source := before + [n];
          EntryRan(existing, kept, |prev|);
          NewIsFirst(existing, commands, prev, before, c);
        }
        CompleteStep(existing, commands, prev, kept);
    }
  }

  lemma NothingMissing(existing: seq<Command>)
    ensures Complete(existing, [], [])
  {
  }

  lemma EntryRan(existing: seq<Command>, kept: seq<Command>, k: nat)
    requires k < |kept|
    ensures Ran(existing + kept, CommandText(kept[k]))
  {
    assert (existing + kept)[|existing| + k] == kept[k];
  }

  // A command whose text has not run is the first of its text, and repeats no kept one.
  lemma NewIsFirst(existing: seq<Command>, commands: seq<Command>, prev: seq<Command>, before: seq<nat>, c: Command)
    requires commands != [] && Converted(commands[|commands| - 1]) == Some(c) && !Ran(existing + prev, CommandText(c))
    requires var done := commands[..|commands| - 1];
      FirstOf(existing, done, prev, before) && NoRepeats(existing, prev) && Complete(existing, done, prev)
    ensures FirstOf(existing, commands, prev + [c], before + [|commands| - 1]) && NoRepeats(existing, prev + [c])
  {
    hide Converted, CommandText;
    var n := |commands| - 1;
    RanSplit(existing, prev, CommandText(c));
    forall i | 0 <= i < n && Converted(commands[i]).Some?
      ensures CommandText(Converted(commands[i]).value) != CommandText(c) {
      assert commands[..n][i] == commands[i];
    }
  }

  // ---- free of installer markers

  predicate IsTail(s: string, t: string) {
    |t| <= |s| && s[|s| - |t|..] == t
  }

  lemma StrippedTail(s: string, k: nat)
    requires k <= |s|
    ensures IsTail(s, LStrip(s[k..]))
  {
    LStripFacts(s[k..]);
  }

  lemma TailTail(s: string, t: string, u: string)
    requires IsTail(s, t) && IsTail(t, u)
    ensures IsTail(s, u)
  {
  }

  lemma AfterCurtinIsTail(s: string)
    ensures IsTail(s, AfterCurtin(s))
  {
    hide IsTail, LStrip;
    assert IsTail(s, s) by { WholeTail(s); }
    if StartsWith(s, "curtin") {
      var b := LStrip(s[|"curtin"|..]);
      StrippedTail(s, |"curtin"|);
      if StartsWith(b, "in-target") {
        var d := LStrip(b[|"in-target"|..]);
        StrippedTail(b, |"in-target"|);
        TailTail(s, b, d);
        if StartsWith(d, "--") {
          StrippedTail(d, |"--"|);
          TailTail(s, d, LStrip(d[|"--"|..]));
        }
      }
    }
  }

  lemma WholeTail(s: string)
    ensures IsTail(s, s)
  {
  }

  lemma {:induction false} JoinTail(parts: seq<string>, k: nat, m: string)
    requires k <= |parts| && Contains(Join(" ", parts[k..]), m) && k < |parts|
    ensures Contains(Join(" ", parts), m)
    decreases k
  {
    if k == 0 {
      assert parts[0..] == parts;
    } else {
      assert parts[1..][k - 1..] == parts[k..];
      JoinTail(parts[1..], k - 1, m);
      ContainsWider(parts[0] + " ", Join(" ", parts[1..]), "", m);
      assert parts[0] + " " + Join(" ", parts[1..]) + "" == Join(" ", parts);
    }
  }

  lemma ShellContains(line: string, m: string)
    requires Contains(AfterCurtin(Strip(line)), m)
    ensures Contains(line, m)
  {
    hide Contains, AfterCurtin, Strip;
    var core, rest := Strip(line), AfterCurtin(Strip(line));
    var i, j := StripCore(line);
    AfterCurtinIsTail(core);
    var pre := core[..|core| - |rest|];
    ContainsWider(pre, rest, "", m);
    assert pre + rest + "" == core;
    ContainsWider(line[..i], core, line[j..], m);
    assert line[..i] + core + line[j..] == line;
  }

  lemma ArgvContains(parts: seq<string>, m: string)
    requires ArgvAfterCurtin(parts) != [] && Contains(Join(" ", ArgvAfterCurtin(parts)), m)
    ensures Contains(Join(" ", parts), m)
  {
    hide Contains, Join;
    var rest := ArgvAfterCurtin(parts);
    var k := |parts| - |rest|;
    assert parts[k..] == rest;
    JoinTail(parts, k, m);
  }

  // Unwrapping never uncovers text the wrapped command did not have.
  lemma UnwrappedContains(c: Command, m: string)
    requires Unwrapped(c).Some? && Contains(CommandText(Unwrapped(c).value), m)
    ensures Contains(CommandText(c), m)
  {
    hide Contains, Join, AfterCurtin, ArgvAfterCurtin, Strip;
    match c
    case Shell(line) => ShellContains(line, m);
    case Argv(parts) => ArgvContains(parts, m);
    case Odd(_) =>
  }

  // No kept command carries an installer marker, and the existing commands come first, untouched.
  lemma {:induction false} KeptUnmarked(existing: seq<Command>, commands: seq<Command>, k: nat)
    requires k < |Kept(existing, commands)|
    ensures !Marked(Kept(existing, commands)[k])
  {
    var n := |commands| - 1;
    if k < |Kept(existing, commands[..n])| {
      KeptUnmarked(existing, commands[..n], k);
    } else {
      var c := Kept(existing, commands)[k];
      if i :| 0 <= i < |INSTALLER_ONLY| && Contains(CommandText(c), INSTALLER_ONLY[i]) {
        UnwrappedContains(commands[n], INSTALLER_ONLY[i]);
      }
    }
  }

  // The whole result: existing entries first, then the kept ones, or the seed's own value when nothing is kept.
  lemma RunCommandsExactly(runcmd: Option<seq<Command>>, early: Option<seq<Command>>, late: Option<seq<Command>>)
    returns (source: seq<nat>)
    ensures var existing := Section(runcmd); var commands := Section(early) + Section(late);
      var kept := Kept(existing, commands); var r := RunCommands(runcmd, early, late);
      && Section(r) == existing + kept && (r.None? <==> runcmd.None? && kept == [])
      && FirstOf(existing, commands, kept, source) && NoRepeats(existing, kept) && Complete(existing, commands, kept)
      && forall k | 0 <= k < |kept| :: !Marked(kept[k])
  {
    var existing, commands := Section(runcmd), Section(early) + Section(late);
    source := KeptExactly(existing, commands);
    var kept := Kept(existing, commands);
    forall k | 0 <= k < |kept| ensures !Marked(kept[k]) { KeptUnmarked(existing, commands, k); }
    assert existing + [] == existing;
  }
}
