// Character-level helpers shared by the models: Python's str.strip, substring tests and joins.

module Text {

  datatype Option<+T> = None | Some(value: T)

  // The ASCII characters str.strip removes.
  predicate IsSpace(c: char) {
    c == ' ' || c == '\t' || c == '\n' || c == '\r' || c == '\U{0B}' || c == '\U{0C}'
  }

  // str.lower on ASCII letters.
  function Lower(s: string): (r: string)
    ensures |r| == |s|
  {
    seq(|s|, i requires 0 <= i < |s| => if 'A' <= s[i] <= 'Z' then s[i] - 'A' + 'a' else s[i])
  }

  predicate Blank(s: string) {
    forall c | c in s :: IsSpace(c)
  }

  function LStrip(s: string): (r: string) {
    if s != "" && IsSpace(s[0]) then LStrip(s[1..]) else s
  }

  function RStrip(s: string): (r: string) {
    if s != "" && IsSpace(s[|s| - 1]) then RStrip(s[..|s| - 1]) else s
  }

  function Strip(s: string): (r: string) {
    RStrip(LStrip(s))
  }

  // Nothing for str.strip to remove.
  predicate Trimmed(s: string) {
    s != "" ==> !IsSpace(s[0]) && !IsSpace(s[|s| - 1])
  }

  // str.splitlines with "\n" line ends.
  function SplitLines(s: string): seq<string> {
    if s == "" then [] else
    var n := LineLength(s);
    if n == |s| then [s] else [s[..n]] + SplitLines(s[n + 1..])
  }

  function LineLength(s: string): (n: nat)
    ensures n <= |s|
  {
    if s == "" || s[0] == '\n' then 0 else 1 + LineLength(s[1..])
  }

  predicate StartsWith(s: string, prefix: string) {
    |prefix| <= |s| && s[..|prefix|] == prefix
  }

  predicate Occurs(s: string, m: string, i: nat) {
    i + |m| <= |s| && s[i..i + |m|] == m
  }

  // `m in s` on Python strings.
  predicate Contains(s: string, m: string) {
    exists i: nat | i <= |s| :: Occurs(s, m, i)
  }

  lemma {:induction false} LStripFacts(s: string)
    ensures |LStrip(s)| <= |s| && LStrip(s) == s[|s| - |LStrip(s)|..]
    ensures LStrip(s) != "" ==> !IsSpace(LStrip(s)[0])
    ensures Blank(s[..|s| - |LStrip(s)|])
  {
    if s != "" && IsSpace(s[0]) {
      LStripFacts(s[1..]);
      assert s[..|s| - |LStrip(s)|] == [s[0]] + s[1..][..|s| - 1 - |LStrip(s)|];
    }
  }

  lemma {:induction false} RStripFacts(s: string)
    ensures |RStrip(s)| <= |s| && RStrip(s) == s[..|RStrip(s)|]
    ensures RStrip(s) != "" ==> !IsSpace(RStrip(s)[|RStrip(s)| - 1])
    ensures Blank(s[|RStrip(s)|..])
  {
    if s != "" && IsSpace(s[|s| - 1]) {
      RStripFacts(s[..|s| - 1]);
      assert s[|RStrip(s)|..] == s[..|s| - 1][|RStrip(s)|..] + [s[|s| - 1]];
    }
  }

  // str.strip returns the trimmed core: the text is blank padding around it.
  lemma StripCore(s: string) returns (i: nat, j: nat)
    ensures i <= j <= |s| && Strip(s) == s[i..j]
    ensures Blank(s[..i]) && Blank(s[j..])
  {
    LStripFacts(s);
    var l := LStrip(s);
    RStripFacts(l);
    i := |s| - |l|;
    j := i + |RStrip(l)|;
    assert s[j..] == l[|RStrip(l)|..];
    assert s[i..j] == l[..|RStrip(l)|];
  }

  lemma StripTrims(s: string)
    ensures Trimmed(Strip(s))
    ensures Trimmed(s) <==> Strip(s) == s
  {
    LStripFacts(s);
    RStripFacts(LStrip(s));
  }

  lemma StripBlank(s: string)
    ensures Blank(s) <==> Strip(s) == ""
  {
    var i, j := StripCore(s);
    StripTrims(s);
    if Strip(s) == "" {
      forall c | c in s ensures IsSpace(c) {
        var k :| 0 <= k < |s| && s[k] == c;
        assert if k < i then s[..i][k] == c else s[j..][k - j] == c;
      }
    } else {
      assert s[i] == Strip(s)[0] && s[i] in s;
    }
  }

  lemma ContainsWider(pre: string, s: string, post: string, m: string)
    requires Contains(s, m)
    ensures Contains(pre + s + post, m)
  {
    var i: nat :| i <= |s| && Occurs(s, m, i);
    var t := pre + s + post;
    assert t[|pre| + i..|pre| + i + |m|] == s[i..i + |m|];
    assert Occurs(t, m, |pre| + i);
  }

  function Join(sep: string, parts: seq<string>): string {
    if parts == [] then ""
    else if |parts| == 1 then parts[0]
    else parts[0] + sep + Join(sep, parts[1..])
  }

  lemma {:induction false} JoinContains(sep: string, parts: seq<string>, k: nat, m: string)
    requires k < |parts| && Contains(parts[k], m)
    ensures Contains(Join(sep, parts), m)
  {
    if |parts| == 1 {
    } else if k == 0 {
      ContainsWider("", parts[0], sep + Join(sep, parts[1..]), m);
      assert "" + parts[0] + (sep + Join(sep, parts[1..])) == Join(sep, parts);
    } else {
      JoinContains(sep, parts[1..], k - 1, m);
      ContainsWider(parts[0] + sep, Join(sep, parts[1..]), "", m);
      assert parts[0] + sep + Join(sep, parts[1..]) + "" == Join(sep, parts);
    }
  }
}
