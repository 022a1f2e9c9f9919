// Placeholder shielding: how the editor carries {{token}} placeholders through YAML scalars.
// A seed is parsed with every placeholder written as "__PXE_token__"; the form shows {{token}} again.

module Tokens {
  import opened Text

  const PXE := "__PXE_"
  const QUOTED_PXE := "\"__PXE_"
  const BLOCK := "PXEBLOCK_"

  // The two placeholders a renderer replaces by whole lists.
  const BLOCK_MARKERS: set<string> := {"ssh_keys", "packages"}

  predicate IsTokenChar(c: char) {
    'a' <= c <= 'z' || c == '_'
  }

  predicate IsToken(t: string) {
    t != "" && forall c | c in t :: IsTokenChar(c)
  }

  function Brace(t: string): string { "{{" + t + "}}" }

  function Shielded(t: string): string { PXE + t + "__" }

  // The token of a text that is exactly pre + token + post.
  function Between(s: string, pre: string, post: string): (r: Option<string>) {
    if |s| <= |pre| + |post| || !StartsWith(s, pre) || s[|s| - |post|..] != post
       || !IsToken(s[|pre|..|s| - |post|])
    then None
    else Some(s[|pre|..|s| - |post|])
  }

  // Full matches of the three token spellings.
  function ShieldedToken(s: string): Option<string> { Between(s, PXE, "__") }

  function BraceToken(s: string): Option<string> { Between(s, "{{", "}}") }

  function BlockText(s: string): Option<string> { Between(s, BLOCK, "") }

  function RunLength(s: string): (n: nat)
    ensures n <= |s|
  {
    if s == "" || !IsTokenChar(s[0]) then 0 else 1 + RunLength(s[1..])
  }

  // Length of the quoted shield "__PXE_token__" that starts s, or 0. The greedy token run ends at the quote.
  function QuotedLength(s: string): (n: nat)
    ensures n > 0 ==> |QUOTED_PXE| + 4 <= n <= |s| && s[0] == '"' && s[n - 1] == '"'
  {
    if !StartsWith(s, QUOTED_PXE) then 0 else
    assert s[0] == s[..|QUOTED_PXE|][0] == '"';
    var r := RunLength(s[|QUOTED_PXE|..]);
    var stop := |QUOTED_PXE| + r;
    if r >= 3 && stop < |s| && s[stop] == '"' && s[stop - 2..stop] == "__" then stop + 1 else 0
  }

  // re.sub of every quoted shield by its {{token}}.
  function Embedded(s: string): string {
    var n := QuotedLength(s);
    if n > 0 then Brace(s[|QUOTED_PXE|..n - 3]) + Embedded(s[n..])
    else if s == "" then ""
    else [s[0]] + Embedded(s[1..])
  }

  // What the form shows for a parsed scalar.
  function Unshield(s: string): string {
    match ShieldedToken(s)
    case Some(t) => Brace(t)
    case None => Embedded(s)
  }

  // What the form writes back for a shown scalar.
  function Shield(s: string): string {
    match BraceToken(Strip(s))
    case Some(t) => Shielded(t)
    case None => s
  }

  // One spelling for a placeholder however it was shielded, so that equal texts mean the same.
  function ComparableText(s: string): string {
    match BlockText(s)
    case Some(t) => Brace(t)
    case None => Unshield(s)
  }

  // A lone placeholder with blanks around it: shielding drops the blanks.
  predicate PaddedToken(s: string) {
    var u := Unshield(s);
    BraceToken(Strip(u)).Some? && !Trimmed(u)
  }

  // The block-list placeholder a scalar spells, if any.
  function BlockToken(s: string): Option<string> {
    var s := Strip(s);
    match ShieldedToken(s)
    case Some(t) => if t in BLOCK_MARKERS then Some(t) else None
    case None =>
      match BraceToken(s)
      case Some(t) => if t in BLOCK_MARKERS then Some(t) else None
      case None => None
  }

  // ---- facts about single spellings

  lemma ShieldedTokenOf(t: string)
    requires IsToken(t)
    ensures ShieldedToken(Shielded(t)) == Some(t)
    ensures Trimmed(Shielded(t))
  {
    var s := Shielded(t);
    assert s[|PXE|..|s| - 2] == t;
  }

  lemma BraceTokenOf(t: string)
    requires IsToken(t)
    ensures BraceToken(Brace(t)) == Some(t)
    ensures Trimmed(Brace(t)) && '{' in Brace(t)
  {
    var s := Brace(t);
    assert s[2..|s| - 2] == t && s[0] == '{';
  }

  lemma BlockTextOf(t: string)
    requires IsToken(t)
    ensures BlockText(BLOCK + t) == Some(t)
  {
    var s := BLOCK + t;
    assert s[|BLOCK|..|s|] == t && s[|s|..] == "" && s[..|BLOCK|] == BLOCK;
  }

  lemma BetweenSpells(s: string, pre: string, post: string)
    requires Between(s, pre, post).Some?
    ensures IsToken(Between(s, pre, post).value) && s == pre + Between(s, pre, post).value + post
  {
  }

  // ---- facts about Embedded

  lemma {:induction false} RunPrefix(s: string, t: string, n: nat)
    requires n <= |s| && n <= |t| && s[..n] == t[..n]
    requires RunLength(s) < n
    ensures RunLength(t) == RunLength(s)
  {
    assert s[0] == s[..n][0] == t[0];
    if IsTokenChar(s[0]) {
      assert s[1..][..n - 1] == s[..n][1..] == t[..n][1..] == t[1..][..n - 1];
      RunPrefix(s[1..], t[1..], n - 1);
    }
  }

  // A quoted shield is decided by its own characters.
  lemma QuotedPrefix(s: string, t: string)
    requires 0 < QuotedLength(s) <= |t| && s[..QuotedLength(s)] == t[..QuotedLength(s)]
    ensures QuotedLength(t) == QuotedLength(s)
  {
    var n, q := QuotedLength(s), |QUOTED_PXE|;
    assert t[..q] == t[..n][..q] == s[..n][..q] == s[..q];
    assert s[q..][..n - q] == s[..n][q..] == t[..n][q..] == t[q..][..n - q];
    RunPrefix(s[q..], t[q..], n - q);
    assert forall i | 0 <= i < n :: t[i] == s[i] by {
      forall i | 0 <= i < n ensures t[i] == s[i] { assert t[..n][i] == s[..n][i]; }
    }
    assert t[n - 3..n - 1] == s[n - 3..n - 1];
  }

  lemma {:induction false} RunChars(s: string)
    ensures forall c | c in s[..RunLength(s)] :: IsTokenChar(c)
  {
    if s != "" && IsTokenChar(s[0]) {
      RunChars(s[1..]);
      assert s[..RunLength(s)] == [s[0]] + s[1..][..RunLength(s[1..])];
    }
  }

  // The name inside a quoted shield is a token, and the whole shield spells it.
  lemma QuotedSpells(s: string)
    requires QuotedLength(s) > 0
    ensures IsToken(s[|QUOTED_PXE|..QuotedLength(s) - 3])
    ensures s[..QuotedLength(s)] == "\"" + Shielded(s[|QUOTED_PXE|..QuotedLength(s) - 3]) + "\""
    ensures '{' !in s[..QuotedLength(s)]
  {
    var n, q := QuotedLength(s), |QUOTED_PXE|;
    RunChars(s[q..]);
    var run := s[q..][..RunLength(s[q..])];
    assert run == s[q..n - 1];
    assert forall c | c in s[q..n - 3] :: c in run;
    assert s[..n] == s[..q] + s[q..n - 3] + s[n - 3..n - 1] + [s[n - 1]];
  }

  lemma EmbeddedStart(s: string, n: nat)
    requires 0 < n <= |Embedded(s)|
    ensures QuotedLength(s) > 0 ==> '{' in Embedded(s)[..n]
  {
    hide QuotedLength;
    if QuotedLength(s) > 0 {
      assert Embedded(s)[..n][0] == '{';
    }
  }

  // Up to the first brace, Embedded copies its input.
  lemma {:induction false} EmbeddedPrefix(s: string, n: nat)
    requires n <= |Embedded(s)| && '{' !in Embedded(s)[..n]
    ensures n <= |s| && s[..n] == Embedded(s)[..n]
  {
    hide QuotedLength;
    if n > 0 {
      EmbeddedStart(s, n);
      var rest := Embedded(s[1..]);
      assert Embedded(s)[..n] == [s[0]] + rest[..n - 1];
      assert forall c | c in rest[..n - 1] :: c in Embedded(s)[..n];
      EmbeddedPrefix(s[1..], n - 1);
      assert s[..n] == [s[0]] + s[1..][..n - 1];
    }
  }

  // Without a brace in the output nothing was rewritten.
  lemma {:induction false} EmbeddedSame(s: string)
    requires '{' !in Embedded(s)
    ensures Embedded(s) == s
    decreases |s|
  {
    hide QuotedLength;
    if s != "" {
      assert Embedded(s)[..|Embedded(s)|] == Embedded(s);
      if Embedded(s) != "" { EmbeddedStart(s, |Embedded(s)|); }
      assert Embedded(s) == [s[0]] + Embedded(s[1..]);
      EmbeddedSame(s[1..]);
    }
  }

  lemma NoQuoteHere(c: char, rest: string)
    requires c != '"'
    ensures Embedded([c] + rest) == [c] + Embedded(rest)
  {
    hide QuotedLength;
    var s := [c] + rest;
    assert s[0] == c && s[1..] == rest;
  }

  lemma {:induction false} EmbeddedOfPlain(p: string, rest: string)
    requires forall c | c in p :: c != '"'
    ensures Embedded(p + rest) == p + Embedded(rest)
  {
    hide Embedded;
    if p == "" {
      assert p + rest == rest;
    } else {
      var c, q := p[0], p[1..];
      assert c in p && forall x | x in q :: x in p;
      EmbeddedOfPlain(q, rest);
      NoQuoteHere(c, q + rest);
      assert p + rest == [c] + (q + rest);
      assert p + Embedded(rest) == [c] + (q + Embedded(rest));
    }
  }

  lemma EmbeddedOfBrace(t: string, rest: string)
    requires IsToken(t)
    ensures Embedded(Brace(t) + rest) == Brace(t) + Embedded(rest)
  {
    EmbeddedOfPlain(Brace(t), rest);
  }

  // Rewriting leaves nothing to rewrite.
  lemma {:induction false} EmbeddedTwice(s: string)
    ensures Embedded(Embedded(s)) == Embedded(s)
    decreases |s|
  {
    hide QuotedLength;
    var n := QuotedLength(s);
    var e := Embedded(s);
    if n > 0 {
      QuotedSpells(s);
      EmbeddedOfBrace(s[|QUOTED_PXE|..n - 3], Embedded(s[n..]));
      EmbeddedTwice(s[n..]);
    } else if s != "" {
      if QuotedLength(e) > 0 {
        QuotedSpells(e);
        EmbeddedPrefix(s, QuotedLength(e));
        QuotedPrefix(e, s);
      }
      assert e[1..] == Embedded(s[1..]);
      EmbeddedTwice(s[1..]);
    }
  }

  // Blanks at either end stay, and none appear.
  lemma {:induction false} EmbeddedEnds(s: string)
    ensures s == "" <==> Embedded(s) == ""
    ensures s != "" ==> (IsSpace(Embedded(s)[0]) <==> IsSpace(s[0]))
    ensures s != "" ==> (IsSpace(Embedded(s)[|Embedded(s)| - 1]) <==> IsSpace(s[|s| - 1]))
    decreases |s|
  {
    hide QuotedLength, IsSpace;
    if s != "" {
      var n := QuotedLength(s);
      var head := if n > 0 then Brace(s[|QUOTED_PXE|..n - 3]) else [s[0]];
      var tail := s[if n > 0 then n else 1..];
      var rest := Embedded(tail);
      assert Embedded(s) == head + rest;
      PunctuationIsNoSpace();
      EmbeddedEnds(tail);
      assert tail != "" ==> tail[|tail| - 1] == s[|s| - 1];
      hide Embedded;
      Ends(head, rest);
    }
  }

  lemma Ends(a: string, b: string)
    requires a != ""
    ensures (a + b)[0] == a[0] && (a + b)[|a + b| - 1] == if b == "" then a[|a| - 1] else b[|b| - 1]
  {
  }

  lemma PunctuationIsNoSpace()
    ensures !IsSpace('"') && !IsSpace('{') && !IsSpace('}')
  {
  }

  lemma UnshieldEnds(s: string)
    ensures s == "" <==> Unshield(s) == ""
    ensures s != "" ==> (IsSpace(Unshield(s)[0]) <==> IsSpace(s[0]))
    ensures s != "" ==> (IsSpace(Unshield(s)[|Unshield(s)| - 1]) <==> IsSpace(s[|s| - 1]))
    ensures Trimmed(Unshield(s)) <==> Trimmed(s)
  {
    hide Embedded;
    EmbeddedEnds(s);
    if ShieldedToken(s).Some? {
      BetweenSpells(s, PXE, "__");
    }
  }

  // A shown text is the parsed text itself unless it carries a brace.
  lemma UnshieldSame(s: string)
    requires '{' !in Unshield(s)
    ensures Unshield(s) == s
  {
    hide Embedded;
    if ShieldedToken(s).Some? {
      BetweenSpells(s, PXE, "__");
      BraceTokenOf(ShieldedToken(s).value);
    } else {
      EmbeddedSame(s);
    }
  }

  lemma UnshieldBlank(s: string)
    ensures Blank(Unshield(s)) <==> Blank(s)
  {
    hide Embedded;
    if Blank(s) {
      BlankIsNoShield(s);
      BlankEmbedded(s);
    }
    if Blank(Unshield(s)) {
      UnshieldSame(s);
    }
  }

  lemma BlankIsNoShield(s: string)
    ensures ShieldedToken(s).Some? ==> !Blank(s)
  {
    if ShieldedToken(s).Some? {
      BetweenSpells(s, PXE, "__");
      assert s[0] == '_' && s[0] in s;
    }
  }

  lemma {:induction false} BlankEmbedded(s: string)
    requires Blank(s)
    ensures Embedded(s) == s
    decreases |s|
  {
    hide QuotedLength, IsSpace;
    if s != "" {
      assert s[0] in s && !IsSpace('"') by { PunctuationIsNoSpace(); }
      assert forall c | c in s[1..] :: c in s;
      BlankEmbedded(s[1..]);
    }
  }

  lemma ShieldHasNoBrace(s: string)
    requires ShieldedToken(s).Some?
    ensures '{' !in s
  {
    BetweenSpells(s, PXE, "__");
    var t := ShieldedToken(s).value;
    assert forall c | c in t :: IsTokenChar(c);
    assert s == PXE + t + "__";
  }

  lemma UnshieldFixed(s: string)
    requires ShieldedToken(s).None?
    ensures Unshield(Unshield(s)) == Unshield(s)
  {
    hide Embedded;
    var u := Embedded(s);
    EmbeddedTwice(s);
    if ShieldedToken(u).Some? {
      ShieldHasNoBrace(u);
      EmbeddedSame(s);
    }
  }

  lemma UnshieldOfBrace(t: string)
    requires IsToken(t)
    ensures Unshield(Brace(t)) == Brace(t)
    ensures ComparableText(Brace(t)) == Brace(t)
  {
    assert Embedded("") == "";
    assert Brace(t)[0] == '{' && PXE[0] == '_' && BLOCK[0] == 'P';
    assert ShieldedToken(Brace(t)).None? && BlockText(Brace(t)).None?;
    hide QuotedLength, Embedded, ShieldedToken, BlockText, Brace;
    EmbeddedOfBrace(t, "");
    assert Brace(t) + "" == Brace(t);
  }

  lemma ComparableOfShielded(t: string)
    requires IsToken(t)
    ensures ComparableText(Shielded(t)) == Brace(t)
    ensures ComparableText(BLOCK + t) == Brace(t)
  {
    ShieldedTokenOf(t);
    BlockTextOf(t);
    assert Shielded(t)[0] == '_';
  }

  // ---- the round trip of one scalar

  // Showing a scalar and writing it back keeps its meaning, except for a lone placeholder with blanks around it.
  lemma ShowThenWrite(s: string)
    ensures ComparableText(Shield(Unshield(s))) == ComparableText(s) <==> !PaddedToken(s)
  {
    hide Embedded;
    var u := Unshield(s);
    StripTrims(u);
    if BraceToken(Strip(u)).Some? {
      var t := BraceToken(Strip(u)).value;
      BetweenSpells(Strip(u), "{{", "}}");
      ComparableOfShielded(t);
      BraceTokenOf(t);
      StripBrace(u, t);
      if BlockText(s).Some? {
        BlockTextPlain(s);
      }
    } else if ShieldedToken(s).Some? {
      BetweenSpells(s, PXE, "__");
      BraceTokenOf(ShieldedToken(s).value);
      StripTrims(u);
    } else {
      WriteFixed(s);
    }
  }

  lemma StripBrace(u: string, t: string)
    requires Strip(u) == Brace(t)
    ensures '{' in u
  {
    hide Embedded;
    var i, j := StripCore(u);
    assert u[i] == Brace(t)[0] == '{';
  }

  lemma BlockTextPlain(s: string)
    requires BlockText(s).Some?
    ensures '{' !in s && Unshield(s) == s
  {
    BetweenSpells(s, BLOCK, "");
    var t := BlockText(s).value;
    assert s == BLOCK + t;
    EmbeddedOfBlock(t);
  }

  lemma EmbeddedOfBlock(t: string)
    requires IsToken(t)
    ensures Unshield(BLOCK + t) == BLOCK + t
  {
    var s := BLOCK + t;
    NoQuote(s);
    assert s[0] == 'P';
  }

  lemma {:induction false} NoQuote(s: string)
    requires '"' !in s
    ensures Embedded(s) == s
    decreases |s|
  {
    hide QuotedLength;
    if s != "" {
      assert s[0] in s;
      NoQuote(s[1..]);
    }
  }

  lemma WriteFixed(s: string)
    requires ShieldedToken(s).None?
    ensures ComparableText(Unshield(s)) == ComparableText(s)
  {
    hide Embedded;
    var u := Unshield(s);
    UnshieldFixed(s);
    if BlockText(u).Some? {
      BlockTextPlain(u);
      UnshieldSame(s);
    } else if BlockText(s).Some? {
      BlockTextPlain(s);
    }
  }
}
