// The commands the completion generates, word by word, and the URLs for which they carry their own markers only.

module SeedUrls {
  import opened Text
  import opened Values
  import opened WgetText
  import opened SeedCommands

  // ---- URLs

  // json.dumps of a text: printable ASCII stands for itself, the rest is escaped.
  function JsonText(s: string): string {
    "\"" + JsonChars(s) + "\""
  }

  function JsonChars(s: string): string {
    if s == "" then "" else JsonChar(s[0]) + JsonChars(s[1..])
  }

  function JsonChar(c: char): string {
    if c == '"' then "\\\""
    else if c == '\\' then "\\\\"
    else if ' ' <= c <= '~' then [c]
    else if c == '\n' then "\\n"
    else if c == '\r' then "\\r"
    else if c == '\t' then "\\t"
    else if c == '\U{08}' then "\\b"
    else if c == '\U{0C}' then "\\f"
    else if c as int < 0x10000 then "\\u" + Hex(c as int, 4)
    else "\\u" + Hex(0xD800 + (c as int - 0x10000) / 0x400, 4) + "\\u" + Hex(0xDC00 + (c as int - 0x10000) % 0x400, 4)
  }

  function Hex(n: nat, digits: nat): string {
    if digits == 0 then "" else
    var d := n % 16;
    Hex(n / 16, digits - 1) + [if d < 10 then '0' + d as char else 'a' + (d - 10) as char]
  }

  // The URL as a shell word; a placeholder is left for the renderer.
  function UrlWord(url: string): string {
    if StartsWith(url, "{{") then url else JsonText(url)
  }

  function OrDefault(url: string, token: string): string {
    if url == "" then token else url
  }

  function TrimSlashes(s: string): string {
    if s != "" && s[|s| - 1] == '/' then TrimSlashes(s[..|s| - 1]) else s
  }

  // ---- the commands

  const WIFI_WORDS: seq<string> := WIFI_FIND + WIFI_DEVICE + WIFI_DRIVER + WIFI_PCI + WIFI_USB + WIFI_DOWN

  const WIFI_FIND := ["sh", "-c", "'for", "p", "in", "/sys/class/net/*;", "do", "n=$(basename", "\"$p\");",
    "[", "-e", "\"$p/phy80211\"", "]", "||", "continue;"]

  const WIFI_DEVICE :=
    ["dev=$(basename", "\"$(readlink", "-f", "\"$p/device\"", "2>/dev/null)\"", "2>/dev/null", "||", "true);"]

  const WIFI_DRIVER :=
    ["drv=$(basename", "\"$(readlink", "-f", "\"$p/device/driver\"", "2>/dev/null)\"", "2>/dev/null", "||", "true);"]

  const UNBIND := "/drivers/$drv/unbind\""

  const WIFI_PCI := ["if", "[", "-n", "\"$dev\"", "]", "&&", "[", "-n", "\"$drv\"", "]", "&&", "[", "-w",
    "\"/sys/bus/pci" + UNBIND, "];", "then", "printf", "%s", "\"$dev\"", ">",
    "\"/sys/bus/pci" + UNBIND, "||", "true;"]

  const WIFI_USB := ["elif", "[", "-n", "\"$dev\"", "]", "&&", "[", "-n", "\"$drv\"", "]", "&&", "[", "-w",
    "\"/sys/bus/usb" + UNBIND, "];", "then", "printf", "%s", "\"$dev\"", ">",
    "\"/sys/bus/usb" + UNBIND, "||", "true;"]

  const WIFI_DOWN := ["else", "ip", "link", "set", "\"$n\"", "down", "||", "true;", "fi;", "done;", "true'"]

  const REBOOT_WORDS := ["sh", "-c", "'sync;", "sync;", "sleep", "2;", "echo", "1", ">", "/proc/sys/kernel/sysrq;",
    "echo", "b", ">", "/proc/sysrq-trigger'"]

  function ImagingWords(url: string): seq<string> {
    ["wget", "-q", "--tries=3", "--timeout=10", "--post-file=/dev/null", "-O", "/dev/null", UrlWord(url), "||", "true"]
  }

  function FetchWords(file: string, url: string, args: seq<string>): seq<string> {
    ["wget", "-q", "--tries=3", "--timeout=20", "-O", file, UrlWord(url), "&&", "python3", file] + args + ["||", "true"]
  }

  const CONFIRM_FILE := "/run/pxe-" + CONFIRM
  const CONFIRM_PATH := "/boot-files/" + CONFIRM
  const UEFI_FILE := "/run/pxe-" + UEFI
  const UEFI_PATH := "/boot-files/" + UEFI

  function ConfirmWords(public: string): seq<string> {
    FetchWords(CONFIRM_FILE, TrimSlashes(public) + CONFIRM_PATH, [])
  }

  function UefiWords(public: string, policy: string, machine: string): seq<string> {
    FetchWords(UEFI_FILE, TrimSlashes(public) + UEFI_PATH, [policy, machine])
  }

  const LOG_COPY := "sh -c 'log=/tmp/pxe-install-fail.log; : > \"$log\"; "
    + "tail -c 49152 /var/log/installer/subiquity-server-debug.log >> \"$log\" 2>/dev/null || true; "
    + "tail -c 16384 /var/log/installer/curtin-install.log >> \"$log\" 2>/dev/null || true; "
    + "wget -q --tries=3 --timeout=30 --post-file=\"$log\" -O /dev/null "

  function LogCommand(url: string): string {
    LOG_COPY + UrlWord(url) + " || true'"
  }

  predicate ValidPolicy(policy: string, machine: string) {
    (policy == "pxe" || policy == "disk") && machine != "" && forall c | c in machine :: '0' <= c <= '9'
  }

  // What a completion is called with; order needs a valid policy and machine id.
  datatype Urls = Urls(imaging: string, log: string, public: string, policy: string, machine: string)

  // With an invalid policy no boot-order command is ever used; the model then names the one for machine 0.
  function Commands(u: Urls): Generated {
    var public := OrDefault(u.public, "{{public_url}}");
    var valid := ValidPolicy(u.policy, u.machine);
    Generated(
      Join(" ", WIFI_WORDS),
      Join(" ", ImagingWords(OrDefault(u.imaging, IMAGING_TOKEN))),
      Join(" ", ConfirmWords(public)),
      LogCommand(OrDefault(u.log, LOG_TOKEN)),
      Join(" ", REBOOT_WORDS),
      Join(" ", UefiWords(public, if valid then u.policy else "pxe", if valid then u.machine else "0")))
  }

  // ---- URLs that will do

  // Printable ASCII without blanks, quotes, backslashes and angle brackets.
  predicate PlainUrl(s: string) {
    forall c | c in s :: '!' <= c <= '~' && c != '"' && c != '\\' && c != '<' && c != '>'
  }

  // No text that the passes look for in an early or late command.
  predicate Unmarked(s: string) {
    !Contains(s, WIFI) && !Contains(s, INLINE_PATCH) && !Contains(s, POST_DATA)
  }

  predicate GoodImaging(s: string) {
    PlainUrl(s) && Unmarked(s) && (Contains(s, IMAGING) || Contains(s, IMAGING_TOKEN))
  }

  predicate GoodPublic(s: string) {
    PlainUrl(s) && Unmarked(s) && !Contains(s, IMAGING) && !Contains(s, IMAGING_TOKEN)
  }

  predicate GoodLog(s: string) {
    PlainUrl(s) && (Contains(s, LOG) || Contains(s, LOG_TOKEN))
  }

  // Every given URL is plain, carries the marker of its own callback and no other; a missing one is its placeholder.
  predicate GoodUrls(u: Urls) {
    && (u.imaging == "" || GoodImaging(u.imaging))
    && (u.log == "" || GoodLog(u.log))
    && (u.public == "" || GoodPublic(u.public))
  }

  // ---- markers in words

  lemma NoneInEmpty(m: string)
    requires m != ""
    ensures !Contains("", m)
  {
  }

  // A plain URL is quoted as it is.
  lemma {:induction false} PlainChars(s: string)
    requires PlainUrl(s)
    ensures JsonChars(s) == s
  {
    if s != "" {
      assert s[0] in s && forall c | c in s[1..] :: c in s;
      assert JsonChar(s[0]) == [s[0]];
      hide JsonChar;
      PlainChars(s[1..]);
      assert s == [s[0]] + s[1..];
    }
  }

  lemma QuotedHas(url: string, m: string)
    requires m != "" && '"' !in m
    ensures Contains("\"" + url + "\"", m) <==> Contains(url, m)
  {
    if Contains(url, m) { ContainsWider("\"", url, "\"", m); }
    if Contains("\"" + url + "\"", m) {
      assert "\"" + url + "\"" == "" + ['"'] + (url + ['"'] + "");
      CharSplits("", '"', url + ['"'] + "", m);
      NoneInEmpty(m);
      if !Contains(url, m) { CharSplits(url, '"', "", m); }
    }
  }

  // Quoting neither adds nor removes a marker.
  lemma UrlWordHas(url: string, m: string)
    requires PlainUrl(url) && m != "" && '"' !in m
    ensures Contains(UrlWord(url), m) <==> Contains(url, m)
  {
    hide Contains;
    if !StartsWith(url, "{{") {
      PlainChars(url);
      QuotedHas(url, m);
    }
  }

  lemma UrlWordChars(url: string)
    requires PlainUrl(url)
    ensures '<' !in UrlWord(url) && '>' !in UrlWord(url)
  {
    if !StartsWith(url, "{{") { PlainChars(url); }
  }

  lemma OccurrenceHas(w: string, m: string, c: char)
    requires c in m && Contains(w, m)
    ensures c in w
  {
    var k :| 0 <= k < |m| && m[k] == c;
    var i: nat :| i <= |w| && Occurs(w, m, i);
    assert w[i + k] == w[i..i + |m|][k];
  }

  lemma LacksChar(w: string, m: string, c: char)
    requires c in m && c !in w
    ensures !Contains(w, m)
  {
    if Contains(w, m) { OccurrenceHas(w, m, c); }
  }

  lemma TooShort(w: string, m: string)
    requires |w| < |m|
    ensures !Contains(w, m)
  {
  }

  // A character of the joined words is a blank or in a word.
  lemma {:induction false} JoinChars(ws: seq<string>, c: char)
    requires c != ' ' && forall i | 0 <= i < |ws| :: c !in ws[i]
    ensures c !in Join(" ", ws)
  {
    if |ws| > 1 {
      assert forall i | 0 <= i < |ws[1..]| :: c !in ws[1..][i];
      JoinChars(ws[1..], c);
    }
  }

  lemma NoBlanks()
    ensures ' ' !in WIFI && ' ' !in IMAGING && ' ' !in IMAGING_TOKEN && ' ' !in INLINE_PATCH && ' ' !in POST_DATA
  {
  }

  lemma NoPost(s: string)
    requires !Contains(s, POST_DATA)
    ensures NoEmptyPost(s)
  {
    forall i | 0 <= i <= |s| ensures !EmptyPost(s[i..]) {
      if StartsWith(s[i..], POST_DATA) { assert Occurs(s, POST_DATA, i); }
    }
  }

  // ---- the Wi-Fi command

  predicate Sparse(w: string) {
    forall i | 0 <= i < |w| :: w[i] != 'g' && w[i] != 'q' && w[i] != '-' && w[i] != 'f'
  }

  // Also too short for, or without a character of, the confirm page's path.
  predicate WifiWord(w: string) {
    |w| < 12 || Sparse(w)
  }

  predicate WifiCalm(ws: seq<string>) {
    forall i | 0 <= i < |ws| :: WifiWord(ws[i])
  }

  lemma NameWords()
    ensures Sparse("n=$(basename") && Sparse("dev=$(basename") && Sparse("drv=$(basename") && Sparse("2>/dev/null)\"")
  {
  }

  lemma NetWords()
    ensures Sparse("/sys/class/net/*;") && Sparse("\"$p/phy80211\"") && Sparse("\"$p/device/driver\"")
  {
  }

  lemma PathWords()
    ensures Sparse("\"/sys/bus/pci" + UNBIND) && Sparse("\"/sys/bus/usb" + UNBIND)
  {
    assert Sparse(UNBIND);
    assert Sparse("\"/sys/bus/pci") && Sparse("\"/sys/bus/usb");
  }

  lemma WifiPieces()
    ensures WifiCalm(WIFI_FIND) && WifiCalm(WIFI_DEVICE) && WifiCalm(WIFI_DRIVER) && WifiCalm(WIFI_PCI)
    ensures WifiCalm(WIFI_USB) && WifiCalm(WIFI_DOWN)
  {
    hide Sparse;
    NameWords();
    NetWords();
    PathWords();
  }

  lemma WifiAppend(a: seq<string>, b: seq<string>)
    requires WifiCalm(a) && WifiCalm(b)
    ensures WifiCalm(a + b)
  {
  }

  lemma WifiCommand()
    ensures WifiCalm(WIFI_WORDS) && |WIFI_WORDS| > 11 && WIFI_WORDS[11] == "\"$p/phy80211\""
  {
    assert |WIFI_FIND| == 15 && WIFI_FIND[11] == "\"$p/phy80211\"";
    hide WifiCalm, WIFI_FIND, WIFI_DEVICE, WIFI_DRIVER, WIFI_PCI, WIFI_USB, WIFI_DOWN;
    WifiPieces();
    WifiAppend(WIFI_FIND, WIFI_DEVICE);
    WifiAppend(WIFI_FIND + WIFI_DEVICE, WIFI_DRIVER);
    WifiAppend(WIFI_FIND + WIFI_DEVICE + WIFI_DRIVER, WIFI_PCI);
    WifiAppend(WIFI_FIND + WIFI_DEVICE + WIFI_DRIVER + WIFI_PCI, WIFI_USB);
    WifiAppend(WIFI_FIND + WIFI_DEVICE + WIFI_DRIVER + WIFI_PCI + WIFI_USB, WIFI_DOWN);
  }

  lemma WifiWordLacks(w: string, m: string)
    requires WifiWord(w) && m in {IMAGING, IMAGING_TOKEN, INLINE_PATCH, POST_DATA, INLINE_POST}
    ensures !Contains(w, m)
  {
    if |w| < 12 {
      TooShort(w, m);
    } else {
      assert IMAGING[12] == 'g' && IMAGING_TOKEN[8] == 'g' && INLINE_PATCH[12] == 'q' && POST_DATA[0] == '-'
        && INLINE_POST[9] == 'f';
      LacksChar(w, m, if m == INLINE_POST then 'f' else if m == POST_DATA then '-' else if m == INLINE_PATCH then 'q'
        else 'g');
    }
  }

  lemma MarkersSpaceless(m: string)
    requires m in {WIFI, IMAGING, IMAGING_TOKEN, INLINE_PATCH, POST_DATA, INLINE_POST}
    ensures m != "" && ' ' !in m && '"' !in m
  {
  }

  lemma WifiLacks(m: string)
    requires m in {IMAGING, IMAGING_TOKEN, INLINE_PATCH, POST_DATA, INLINE_POST}
    ensures !Contains(Join(" ", WIFI_WORDS), m)
  {
    hide WIFI_WORDS, Contains, WifiWord;
    WifiCommand();
    MarkersSpaceless(m);
    forall i | 0 <= i < |WIFI_WORDS| ensures !Contains(WIFI_WORDS[i], m) { WifiWordLacks(WIFI_WORDS[i], m); }
    JoinAny(WIFI_WORDS, m);
  }

  lemma WifiMarked()
    ensures Contains(Join(" ", WIFI_WORDS), WIFI)
  {
    hide WIFI_WORDS;
    WifiCommand();
    var w := "\"$p/phy80211\"";
    assert w[4..12] == WIFI;
    assert Occurs(w, WIFI, 4);
    JoinContains(" ", WIFI_WORDS, 11, WIFI);
  }

  // ---- the commands with a URL

  // A word that holds neither the Wi-Fi marker nor one of the others, and no angle bracket.
  predicate Silent(w: string) {
    && !Contains(w, WIFI) && !Contains(w, INLINE_PATCH) && !Contains(w, POST_DATA) && '<' !in w && '>' !in w
  }

  predicate Unimaged(w: string) {
    !Contains(w, IMAGING) && !Contains(w, IMAGING_TOKEN)
  }

  // Without a character each marker needs.
  predicate Tame(w: string, c: char) {
    forall i | 0 <= i < |w| :: w[i] != 'h' && w[i] != 'g' && w[i] != 'q' && w[i] != '<' && w[i] != '>' && w[i] != c
  }

  predicate Short(w: string) {
    |w| < 8 && forall i | 0 <= i < |w| :: w[i] != '<' && w[i] != '>'
  }

  predicate FixedWord(w: string) {
    Tame(w, 'a') || Tame(w, 'd') || Short(w)
  }

  lemma FixedSilent(w: string)
    requires FixedWord(w)
    ensures Silent(w) && Unimaged(w)
  {
    if Short(w) {
      TooShort(w, WIFI); TooShort(w, IMAGING); TooShort(w, IMAGING_TOKEN); TooShort(w, INLINE_PATCH);
      TooShort(w, POST_DATA);
    } else {
      assert WIFI[1] == 'h' && IMAGING[12] == 'g' && IMAGING_TOKEN[8] == 'g' && INLINE_PATCH[12] == 'q';
      LacksChar(w, WIFI, 'h');
      LacksChar(w, IMAGING, 'g');
      LacksChar(w, IMAGING_TOKEN, 'g');
      LacksChar(w, INLINE_PATCH, 'q');
      assert POST_DATA[7] == 'd' && POST_DATA[8] == 'a';
      LacksChar(w, POST_DATA, if Tame(w, 'a') then 'a' else 'd');
    }
  }

  lemma SilentJoin(ws: seq<string>)
    requires forall i | 0 <= i < |ws| :: Silent(ws[i])
    ensures Silent(Join(" ", ws))
    ensures (forall i | 0 <= i < |ws| :: Unimaged(ws[i])) ==> Unimaged(Join(" ", ws))
  {
    hide Contains, Join;
    NoBlanks();
    JoinAny(ws, WIFI);
    JoinAny(ws, INLINE_PATCH);
    JoinAny(ws, POST_DATA);
    JoinAny(ws, IMAGING);
    JoinAny(ws, IMAGING_TOKEN);
    JoinChars(ws, '<');
    JoinChars(ws, '>');
  }

  // A silent text is no inline helper, no asynchronous sync, and has no empty post.
  lemma SilentIs(s: string)
    requires Silent(s)
    ensures !InlineText(s) && !AsyncText(s) && NoEmptyPost(s)
  {
    hide NoEmptyPost;
    NoPost(s);
    assert INLINE_PYTHON[10] == '<' && "echo s >"[7] == '>' && "echo u >"[7] == '>';
    LacksChar(s, INLINE_PYTHON, '<');
    LacksChar(s, "echo s >", '>');
    LacksChar(s, "echo u >", '>');
  }

  lemma UrlSilent(url: string)
    requires PlainUrl(url) && Unmarked(url)
    ensures Silent(UrlWord(url))
    ensures Unimaged(url) ==> Unimaged(UrlWord(url))
  {
    hide Contains, UrlWord, PlainUrl;
    UrlWordChars(url);
    Quoteless();
    UrlWordHas(url, WIFI);
    UrlWordHas(url, INLINE_PATCH);
    UrlWordHas(url, POST_DATA);
    UrlWordHas(url, IMAGING);
    UrlWordHas(url, IMAGING_TOKEN);
  }

  lemma Quoteless()
    ensures '"' !in WIFI && '"' !in IMAGING && '"' !in IMAGING_TOKEN && '"' !in INLINE_PATCH && '"' !in POST_DATA
  {
  }

  lemma {:induction false} Trimmed(s: string)
    ensures |TrimSlashes(s)| <= |s| && TrimSlashes(s) == s[..|TrimSlashes(s)|]
  {
    if s != "" && s[|s| - 1] == '/' { Trimmed(s[..|s| - 1]); }
  }

  // Neither the base nor the path holds the marker, and it cannot straddle them.
  lemma PathLacks(public: string, path: string, m: string)
    requires path != "" && path[0] == '/' && m != "" && '/' !in m && !Contains(public, m) && !Contains(path[1..], m)
    ensures !Contains(TrimSlashes(public) + path, m)
  {
    var base := TrimSlashes(public);
    Trimmed(public);
    assert base + path == base + ['/'] + path[1..];
    if Contains(base + path, m) {
      CharSplits(base, '/', path[1..], m);
      assert "" + base + public[|base|..] == public;
      ContainsWider("", base, public[|base|..], m);
    }
  }

  lemma PathSilent(public: string, path: string)
    requires GoodPublic(public) && path != "" && path[0] == '/' && PlainUrl(path) && Silent(path[1..])
      && Unimaged(path[1..])
    ensures var url := TrimSlashes(public) + path; Silent(UrlWord(url)) && Unimaged(UrlWord(url))
  {
    hide Contains, TrimSlashes;
    assert '/' !in WIFI && '/' !in IMAGING && '/' !in IMAGING_TOKEN && '/' !in INLINE_PATCH && '/' !in POST_DATA;
    NoBlanks();
    PathLacks(public, path, WIFI);
    PathLacks(public, path, INLINE_PATCH);
    PathLacks(public, path, POST_DATA);
    PathLacks(public, path, IMAGING);
    PathLacks(public, path, IMAGING_TOKEN);
    var url := TrimSlashes(public) + path;
    Trimmed(public);
    assert forall c | c in TrimSlashes(public) :: c in public;
    UrlSilent(url);
  }

  lemma ShortWords()
    ensures FixedWord("wget") && FixedWord("-q") && FixedWord("-O") && FixedWord("||") && FixedWord("true")
      && FixedWord("&&")
    ensures FixedWord("python3")
  {
    assert Short("wget") && Short("-q") && Short("-O") && Short("||") && Short("true") && Short("&&")
      && Short("python3");
  }

  lemma OptionWords()
    ensures FixedWord("--tries=3") && FixedWord("--timeout=10") && FixedWord("--timeout=20") && FixedWord("/dev/null")
    ensures FixedWord(POST_FILE)
  {
    assert Tame("--tries=3", 'a') && Tame("--timeout=10", 'a') && Tame("--timeout=20", 'a') && Tame("/dev/null", 'a');
    assert Tame(POST_FILE, 'a');
  }

  lemma TameAppend(a: string, b: string, c: char)
    requires Tame(a, c) && Tame(b, c)
    ensures Tame(a + b, c)
  {
  }

  lemma TameFiles()
    ensures Tame(CONFIRM, 'd') && Tame(UEFI, 'a')
  {
  }

  lemma TameFolders()
    ensures Tame("/run/pxe-", 'd') && Tame("/run/pxe-", 'a') && Tame("boot-files/", 'd') && Tame("boot-files/", 'a')
  {
  }

  lemma FileWords()
    ensures FixedWord(CONFIRM_FILE) && FixedWord(CONFIRM_PATH[1..]) && FixedWord(UEFI_FILE) && FixedWord(UEFI_PATH[1..])
  {
    hide Tame;
    assert CONFIRM_PATH[1..] == "boot-files/" + CONFIRM && UEFI_PATH[1..] == "boot-files/" + UEFI;
    TameFiles();
    TameFolders();
    TameAppend("/run/pxe-", CONFIRM, 'd');
    TameAppend("boot-files/", CONFIRM, 'd');
    TameAppend("/run/pxe-", UEFI, 'a');
    TameAppend("boot-files/", UEFI, 'a');
  }

  lemma PlainPaths()
    ensures PlainUrl(CONFIRM_PATH) && PlainUrl(UEFI_PATH) && CONFIRM_PATH[0] == '/' && UEFI_PATH[0] == '/'
  {
    assert PlainUrl("/boot-files/") && PlainUrl(CONFIRM) && PlainUrl(UEFI);
  }

  // ---- each command, for every URL that will do

  lemma ImagingMade(url: string)
    requires GoodImaging(url)
    ensures var s := Join(" ", ImagingWords(url)); Silent(s) && (Contains(s, IMAGING) || Contains(s, IMAGING_TOKEN))
  {
    hide Contains, Join, FixedWord, UrlWord, PlainUrl, Silent, Unimaged;
    var ws := ImagingWords(url);
    var w := UrlWord(url);
    ShortWords();
    OptionWords();
    UrlSilent(url);
    forall i | 0 <= i < |ws| ensures Silent(ws[i]) {
      if i != 7 { FixedSilent(ws[i]); }
    }
    SilentJoin(ws);
    Quoteless();
    var m := if Contains(url, IMAGING) then IMAGING else IMAGING_TOKEN;
    UrlWordHas(url, m);
    JoinContains(" ", ws, 7, m);
  }

  lemma FetchMade(file: string, url: string, args: seq<string>)
    requires FixedWord(file) && Silent(UrlWord(url)) && Unimaged(UrlWord(url)) && forall i | 0 <= i < |args| ::
      FixedWord(args[i])
    ensures var s := Join(" ", FetchWords(file, url, args)); Silent(s) && Unimaged(s)
    ensures forall m: string :: Contains(file, m) ==> Contains(Join(" ", FetchWords(file, url, args)), m)
  {
    hide Contains, Join, FixedWord, UrlWord, Silent, Unimaged;
    var ws := FetchWords(file, url, args);
    ShortWords();
    OptionWords();
    forall i | 0 <= i < |ws| ensures Silent(ws[i]) && Unimaged(ws[i]) {
      if i != 6 {
        assert ws[i] in ["wget", "-q", "--tries=3", "--timeout=20", "-O", file, "&&", "python3", "||", "true"]
          || ws[i] in args;
        FixedSilent(ws[i]);
      }
    }
    SilentJoin(ws);
    forall m: string | Contains(file, m) ensures Contains(Join(" ", ws), m) { JoinContains(" ", ws, 5, m); }
  }

  lemma FileHas(folder: string, m: string)
    ensures Contains(folder + m, m)
  {
    var s := folder + m;
    assert s[|folder|..|folder| + |m|] == m;
    assert Occurs(s, m, |folder|);
  }

  lemma ConfirmMade(public: string)
    requires GoodPublic(public)
    ensures var s := Join(" ", ConfirmWords(public)); Silent(s) && Unimaged(s) && Contains(s, CONFIRM)
  {
    hide Contains, Join, FixedWord, UrlWord, Silent, Unimaged, FetchWords, PlainUrl;
    FileWords();
    PlainPaths();
    FixedSilent(CONFIRM_PATH[1..]);
    PathSilent(public, CONFIRM_PATH);
    FetchMade(CONFIRM_FILE, TrimSlashes(public) + CONFIRM_PATH, []);
    FileHas("/run/pxe-", CONFIRM);
  }

  lemma UefiMade(public: string, policy: string, machine: string)
    requires GoodPublic(public) && ValidPolicy(policy, machine)
    ensures var s := Join(" ", UefiWords(public, policy, machine)); Silent(s) && Contains(s, UEFI)
  {
    hide Contains, Join, UrlWord, Silent, Unimaged, FetchWords, PlainUrl;
    FileWords();
    PlainPaths();
    FixedSilent(UEFI_PATH[1..]);
    PathSilent(public, UEFI_PATH);
    assert FixedWord(policy) by { assert Short(policy); }
    assert FixedWord(machine) by {
      assert forall i | 0 <= i < |machine| :: machine[i] in machine;
      assert Tame(machine, 'a');
    }
    FetchMade(UEFI_FILE, TrimSlashes(public) + UEFI_PATH, [policy, machine]);
    FileHas("/run/pxe-", UEFI);
  }

  lemma LogMade(url: string)
    requires GoodLog(url)
    ensures Contains(LogCommand(url), LOG) || Contains(LogCommand(url), LOG_TOKEN)
  {
    hide Contains, UrlWord, PlainUrl, LOG_COPY;
    var m := if Contains(url, LOG) then LOG else LOG_TOKEN;
    assert '"' !in LOG && '"' !in LOG_TOKEN;
    UrlWordHas(url, m);
    ContainsWider(LOG_COPY, UrlWord(url), " || true'", m);
  }

  // ---- the forced reboot

  // No word ends in this character.
  predicate NoneEndsIn(ws: seq<string>, c: char) {
    forall i | 0 <= i < |ws| && ws[i] != "" :: ws[i][|ws[i]| - 1] != c
  }

  predicate Single(ws: seq<string>) {
    forall i | 0 <= i < |ws| :: ws[i] != "" && ' ' !in ws[i]
  }

  // A character before a blank ends a word.
  lemma {:induction false} BlankAfterWord(ws: seq<string>, c: char, i: nat)
    requires Single(ws) && NoneEndsIn(ws, c) && c != ' ' && i + 1 < |Join(" ", ws)|
    ensures Join(" ", ws)[i + 1] == ' ' ==> Join(" ", ws)[i] != c
  {
    if |ws| == 1 {
      assert ws[0][i + 1] in ws[0];
    } else {
      var n, rest := |ws[0]|, Join(" ", ws[1..]);
      assert Join(" ", ws) == ws[0] + " " + rest;
      if i + 1 < n {
        assert ws[0][i + 1] in ws[0];
      } else if i > n {
        assert Single(ws[1..]) && NoneEndsIn(ws[1..], c);
        BlankAfterWord(ws[1..], c, i - n - 1);
      }
    }
  }

  lemma RebootWords()
    ensures Single(REBOOT_WORDS) && NoneEndsIn(REBOOT_WORDS, 's') && NoneEndsIn(REBOOT_WORDS, 'u')
    ensures |REBOOT_WORDS| == 14 && REBOOT_WORDS[13] == "/proc/sysrq-trigger'"
  {
  }

  lemma EchoAt(s: string, c: char, i: nat)
    requires Occurs(s, "echo " + [c] + " >", i)
    ensures i + 6 < |s| && s[i + 5] == c && s[i + 6] == ' '
  {
    var m := "echo " + [c] + " >";
    assert s[i + 5] == s[i..i + |m|][5] == m[5] && s[i + 6] == s[i..i + |m|][6] == m[6];
  }

  lemma EchoNever(ws: seq<string>, c: char)
    requires Single(ws) && NoneEndsIn(ws, c) && c != ' '
    ensures !Contains(Join(" ", ws), "echo " + [c] + " >")
  {
    hide Occurs;
    var s := Join(" ", ws);
    if i: nat :| i <= |s| && Occurs(s, "echo " + [c] + " >", i) {
      EchoAt(s, c, i);
      BlankAfterWord(ws, c, i + 5);
    }
  }

  // The forced reboot is no asynchronous sync itself: it echoes neither `s` nor `u`.
  lemma RebootMade()
    ensures var s := Join(" ", REBOOT_WORDS); Contains(s, SYSRQ) && !AsyncText(s) && NoEmptyPost(s)
  {
    hide REBOOT_WORDS, Join;
    RebootWords();
    var ws := REBOOT_WORDS;
    assert "echo s >" == "echo " + ['s'] + " >" && "echo u >" == "echo " + ['u'] + " >";
    EchoNever(ws, 's');
    EchoNever(ws, 'u');
    var w := "/proc/sysrq-trigger'";
    assert w[6..19] == SYSRQ;
    assert Occurs(w, SYSRQ, 6);
    JoinContains(" ", ws, 13, SYSRQ);
    RebootPost();
    NoPost(Join(" ", ws));
  }

  lemma RebootPost()
    ensures !Contains(Join(" ", REBOOT_WORDS), POST_DATA)
  {
    hide Join;
    assert POST_DATA[7] == 'd';
    assert forall i | 0 <= i < |REBOOT_WORDS| :: 'd' !in REBOOT_WORDS[i];
    JoinChars(REBOOT_WORDS, 'd');
    LacksChar(Join(" ", REBOOT_WORDS), POST_DATA, 'd');
  }

  // ---- all of them

  lemma TokensPlain()
    ensures PlainUrl(IMAGING_TOKEN) && PlainUrl("{{public_url}}") && PlainUrl(LOG_TOKEN)
  {
  }

  lemma TokensUnmarked(s: string)
    requires 'h' !in s && 'q' !in s && '-' !in s
    ensures Unmarked(s)
  {
    assert WIFI[1] == 'h' && INLINE_PATCH[12] == 'q' && POST_DATA[0] == '-';
    LacksChar(s, WIFI, 'h');
    LacksChar(s, INLINE_PATCH, 'q');
    LacksChar(s, POST_DATA, '-');
  }

  lemma DefaultUrls()
    ensures GoodImaging(IMAGING_TOKEN) && GoodPublic("{{public_url}}") && GoodLog(LOG_TOKEN)
  {
    hide Contains, PlainUrl, Unmarked;
    TokensPlain();
    TokensUnmarked(IMAGING_TOKEN);
    TokensUnmarked("{{public_url}}");
    assert IMAGING[12] == 'g' && IMAGING_TOKEN[8] == 'g';
    LacksChar("{{public_url}}", IMAGING, 'g');
    LacksChar("{{public_url}}", IMAGING_TOKEN, 'g');
    FileHas("", IMAGING_TOKEN);
    FileHas("", LOG_TOKEN);
    assert "" + IMAGING_TOKEN == IMAGING_TOKEN && "" + LOG_TOKEN == LOG_TOKEN;
  }

  // Main result: for all plain URLs that carry their own markers only, the generated commands are well made and do not
  // share markers; the Wi-Fi and reboot commands are so by themselves.
  lemma CommandsWellMade(u: Urls)
    requires GoodUrls(u)
    ensures WellMade(Commands(u)) && OwnMarkers(Commands(u))
  {
    hide Contains, Join, WIFI_WORDS, REBOOT_WORDS, ImagingWords, ConfirmWords, UefiWords, LogCommand, GoodImaging,
      GoodPublic, GoodLog, AsyncText, InlineText, NoEmptyPost;
    DefaultUrls();
    var public := OrDefault(u.public, "{{public_url}}");
    var valid := ValidPolicy(u.policy, u.machine);
    var policy, machine := if valid then u.policy else "pxe", if valid then u.machine else "0";
    var g := Commands(u);
    WifiMarked();
    WifiLacks(IMAGING);
    WifiLacks(IMAGING_TOKEN);
    WifiLacks(POST_DATA);
    NoPost(g.wifi);
    WifiInline();
    ImagingMade(OrDefault(u.imaging, IMAGING_TOKEN));
    SilentIs(g.imaging);
    ConfirmMade(public);
    SilentIs(g.confirm);
    assert ValidPolicy("pxe", "0");
    UefiMade(public, policy, machine);
    SilentIs(g.uefi);
    LogMade(OrDefault(u.log, LOG_TOKEN));
    RebootMade();
  }

  lemma WifiInline()
    ensures !InlineText(Join(" ", WIFI_WORDS))
  {
    WifiLacks(INLINE_PATCH);
    WifiLacks(INLINE_POST);
  }
}
