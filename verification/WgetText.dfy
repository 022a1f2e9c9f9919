// Rewriting an empty `--post-data=` in callback commands, and why it neither removes nor invents other markers.

module WgetText {
  import opened Text

  const POST_DATA := "--post-data="
  const POST_DATA_ARG := "--post-data"
  const POST_FILE := "--post-file=/dev/null"

  // `--post-data=` followed by white space or the end.
  predicate EmptyPost(s: string) {
    StartsWith(s, POST_DATA) && (|s| == |POST_DATA| || IsSpace(s[|POST_DATA|]))
  }

  function Normalized(s: string): string {
    if s == "" then ""
    else if EmptyPost(s) then POST_FILE + Normalized(s[|POST_DATA|..])
    else [s[0]] + Normalized(s[1..])
  }

  // ---- markers that keep clear of an option

  // No dash pair, and no dash at the end: no option begins inside the text.
  predicate Undashed(m: string) {
    && (forall i | 0 <= i < |m| - 1 :: m[i] != '-' || m[i + 1] != '-')
    && (m != "" ==> m[|m| - 1] != '-')
  }

  // The marker neither runs into the option from the left nor starts inside it.
  predicate Clear(m: string, x: string) {
    && |m| >= 3 && |x| >= 2 && Undashed(m)
    && (forall p | 0 <= p < |x| - 1 :: x[p] != m[0] || x[p + 1] != m[1] || (p + 2 < |x| && x[p + 2] != m[2]))
    && (m[0] == x[|x| - 1] ==> !IsSpace(m[1]))
  }

  // The text after an option: nothing, or white space first.
  predicate Apart(b: string) {
    b == "" || IsSpace(b[0])
  }

  lemma NotFromLeft(m: string, k: nat)
    requires Undashed(m) && k < |m|
    ensures !(m[k] == '-' && (k + 1 < |m| ==> m[k + 1] == '-'))
  {
  }

  lemma ClearParts(m: string, x: string)
    requires Clear(m, x)
    ensures |m| >= 2 && |x| >= 2 && Undashed(m)
  {
  }

  // A marker running into the option from the left has a dash pair or a dash at its end.
  lemma FromLeft(a: string, x: string, b: string, m: string, i: nat)
    requires |x| >= 2 && x[0] == '-' && x[1] == '-' && i < |a| < i + |m|
    requires i + |m| <= |a + x + b| && Occurs(a + x + b, m, i)
    ensures !Undashed(m)
  {
    var t, k := a + x + b, |a| - i;
    assert m[k] == t[i + k] == '-';
    assert k + 1 < |m| ==> m[k + 1] == t[i + k + 1] == '-';
  }

  // A marker starting inside the option begins with two of its characters, or with its last one and white space.
  lemma FromInside(a: string, x: string, b: string, m: string, i: nat)
    requires |m| >= 2 && |x| >= 2 && Apart(b) && |a| <= i < |a| + |x|
    requires i + |m| <= |a + x + b| && Occurs(a + x + b, m, i)
    ensures !Clear(m, x)
  {
    var t, p := a + x + b, i - |a|;
    assert m[0] == t[i + 0] == x[p] && m[1] == t[i + 1] && (|m| >= 3 ==> m[2] == t[i + 2]);
  }

  // No occurrence of a clear marker touches the option.
  lemma ClearSplits(a: string, x: string, b: string, m: string)
    requires Clear(m, x) && Apart(b) && x[0] == '-' && x[1] == '-'
    requires Contains(a + x + b, m)
    ensures Contains(a, m) || Contains(b, m)
  {
    hide Clear, Undashed, IsSpace;
    ClearParts(m, x);
    var t := a + x + b;
    var i: nat :| i <= |t| && Occurs(t, m, i);
    if i + |m| <= |a| {
      assert a[i..i + |m|] == t[i..i + |m|];
      assert Occurs(a, m, i);
    } else if i >= |a| + |x| {
      var j := i - |a| - |x|;
      assert b[j..j + |m|] == t[i..i + |m|];
      assert Occurs(b, m, j);
    } else if i < |a| {
      FromLeft(a, x, b, m, i);
    } else {
      FromInside(a, x, b, m, i);
    }
  }

  // Replacing one option by another keeps a marker clear of the first.
  lemma ReplaceKeeps(a: string, x: string, y: string, b: string, m: string)
    requires Clear(m, x) && Apart(b) && x[0] == '-' && x[1] == '-'
    requires Contains(a + x + b, m)
    ensures Contains(a + y + b, m)
  {
    ClearSplits(a, x, b, m);
    if Contains(a, m) {
      ContainsWider("", a, y + b, m);
      assert "" + a + (y + b) == a + y + b;
    } else {
      ContainsWider(a + y, b, "", m);
      assert a + y + b + "" == a + y + b;
    }
  }

  // ---- the rewritten text

  lemma {:induction false} CopiesPrefix(s: string, n: nat)
    requires n <= |s| && forall i | 0 <= i < n :: !EmptyPost(s[i..])
    ensures Normalized(s) == s[..n] + Normalized(s[n..])
    decreases n
  {
    if n == 0 {
      assert s[0..] == s;
    } else {
      assert s[0..] == s;
      forall i | 0 <= i < n - 1 ensures !EmptyPost(s[1..][i..]) { assert s[1..][i..] == s[i + 1..]; }
      CopiesPrefix(s[1..], n - 1);
      assert s[1..][n - 1..] == s[n..] && [s[0]] + s[1..][..n - 1] == s[..n];
    }
  }

  lemma PostStarts(s: string)
    requires EmptyPost(s)
    ensures |s| >= |POST_DATA| && forall k | 0 <= k < |POST_DATA| :: s[k] == POST_DATA[k]
  {
    forall k | 0 <= k < |POST_DATA| ensures s[k] == POST_DATA[k] { assert s[..|POST_DATA|][k] == POST_DATA[k]; }
  }

  // No option starts inside an undashed text.
  lemma NoPostInside(s: string, m: string, i: nat)
    requires StartsWith(s, m) && i < |m| && Undashed(m)
    ensures !EmptyPost(s[i..])
  {
    hide Undashed, EmptyPost;
    assert forall k | 0 <= k < |m| :: s[k] == m[k] by {
      forall k | 0 <= k < |m| ensures s[k] == m[k] { assert s[..|m|][k] == m[k]; }
    }
    if EmptyPost(s[i..]) {
      PostStarts(s[i..]);
      assert m[i] == s[i..][0] && (i + 1 < |m| ==> m[i + 1] == s[i..][1]);
      NotFromLeft(m, i);
    }
  }

  lemma OccursAtStart(s: string, m: string)
    requires StartsWith(s, m)
    ensures Contains(s, m)
  {
    assert s[0..|m|] == s[..|m|];
    assert Occurs(s, m, 0);
  }

  lemma ContainsLater(s: string, m: string)
    requires Contains(s, m) && s != "" && !StartsWith(s, m)
    ensures Contains(s[1..], m)
  {
    var i: nat :| i <= |s| && Occurs(s, m, i);
    assert i > 0;
    assert s[1..][i - 1..i - 1 + |m|] == s[i..i + |m|];
    assert Occurs(s[1..], m, i - 1);
  }

  lemma NotInEmpty(m: string)
    requires m != ""
    ensures !Contains("", m)
  {
  }

  // Markers clear of the old option survive the rewrite.
  lemma {:induction false} RewriteKeeps(s: string, m: string)
    requires Clear(m, POST_DATA) && Contains(s, m)
    ensures Contains(Normalized(s), m)
  {
    hide Clear, Undashed, Contains;
    ClearParts(m, POST_DATA);
    NotInEmpty(m);
    if EmptyPost(s) {
      var rest := s[|POST_DATA|..];
      assert "" + POST_DATA + rest == s;
      ClearSplits("", POST_DATA, rest, m);
      RewriteKeeps(rest, m);
      ContainsWider(POST_FILE, Normalized(rest), "", m);
      assert POST_FILE + Normalized(rest) + "" == Normalized(s);
    } else if StartsWith(s, m) {
      forall i | 0 <= i < |m| ensures !EmptyPost(s[i..]) { NoPostInside(s, m, i); }
      CopiesPrefix(s, |m|);
      OccursAtStart(s[..|m|] + Normalized(s[|m|..]), m);
    } else {
      ContainsLater(s, m);
      RewriteKeeps(s[1..], m);
      ContainsWider([s[0]], Normalized(s[1..]), "", m);
      assert [s[0]] + Normalized(s[1..]) + "" == Normalized(s);
    }
  }

  lemma UndashedRest(u: string)
    requires u != "" && Undashed(u)
    ensures Undashed(u[1..])
  {
  }

  // What the rewritten text starts with, the text did.
  lemma {:induction false} StartsBefore(s: string, u: string)
    requires StartsWith(Normalized(s), u) && Undashed(u)
    ensures StartsWith(s, u)
  {
    hide Undashed;
    if u != "" {
      if EmptyPost(s) {
        var t := POST_FILE + Normalized(s[|POST_DATA|..]);
        assert t[..|u|] == u;
        assert u[0] == t[..|u|][0] && (1 < |u| ==> u[1] == t[..|u|][1]);
        NotFromLeft(u, 0);
      } else {
        var t := [s[0]] + Normalized(s[1..]);
        assert t[..|u|] == u && t[1..][..|u| - 1] == u[1..];
        UndashedRest(u);
        StartsBefore(s[1..], u[1..]);
        assert u == [s[0]] + u[1..] && s[..|u|] == [s[0]] + s[1..][..|u| - 1];
      }
    }
  }

  // Markers clear of the new option are not invented.
  lemma {:induction false} RewriteAdds(s: string, m: string)
    requires Clear(m, POST_FILE) && Contains(Normalized(s), m)
    ensures Contains(s, m)
  {
    hide Clear, Undashed, Contains;
    ClearParts(m, POST_FILE);
    NotInEmpty(m);
    if EmptyPost(s) {
      var rest := s[|POST_DATA|..];
      assert Apart(Normalized(rest));
      assert "" + POST_FILE + Normalized(rest) == Normalized(s);
      ClearSplits("", POST_FILE, Normalized(rest), m);
      RewriteAdds(rest, m);
      ContainsWider(POST_DATA, rest, "", m);
      assert POST_DATA + rest + "" == s;
    } else if StartsWith(Normalized(s), m) {
      StartsBefore(s, m);
      OccursAtStart(s, m);
    } else {
      ContainsLater(Normalized(s), m);
      assert Normalized(s)[1..] == Normalized(s[1..]);
      RewriteAdds(s[1..], m);
      ContainsWider([s[0]], s[1..], "", m);
      assert [s[0]] + s[1..] + "" == s;
    }
  }

  // ---- rewriting twice

  ghost predicate NoEmptyPost(t: string) {
    forall i | 0 <= i <= |t| :: !EmptyPost(t[i..])
  }

  // A text without an empty post is left alone.
  lemma NormalizedSame(t: string)
    requires NoEmptyPost(t)
    ensures Normalized(t) == t
  {
    CopiesPrefix(t, |t|);
    assert t[|t|..] == "" && t[..|t|] == t;
  }

  lemma PostFileDiffers(i: nat)
    requires i < |POST_FILE|
    ensures POST_FILE[i] != '-' || (i + 1 < |POST_FILE| && POST_FILE[i + 1] != '-')
      || (i + 7 < |POST_FILE| && POST_FILE[i + 7] != 'd')
  {
  }

  lemma PostFileIsNot(b: string, i: nat)
    requires i < |POST_FILE|
    ensures !EmptyPost((POST_FILE + b)[i..])
  {
    hide EmptyPost;
    var t := POST_FILE + b;
    if EmptyPost(t[i..]) {
      PostStarts(t[i..]);
      assert t[i] == t[i..][0] && t[i + 1] == t[i..][1] && t[i + 7] == t[i..][7];
      PostFileDiffers(i);
    }
  }

  // Copying a character cannot complete an option the text did not have.
  lemma CopiedWas(s: string)
    requires s != "" && EmptyPost([s[0]] + Normalized(s[1..]))
    ensures EmptyPost(s)
  {
    var t := [s[0]] + Normalized(s[1..]);
    var rest := CopiedOption(s, t);
    assert t[|POST_DATA|..] == Normalized(rest);
  }

  lemma CopiedOption(s: string, t: string) returns (rest: string)
    requires s != "" && t == [s[0]] + Normalized(s[1..]) && StartsWith(t, POST_DATA)
    ensures s == POST_DATA + rest && t == POST_DATA + Normalized(rest)
  {
    var u := POST_DATA[1..];
    assert t[..|POST_DATA|] == POST_DATA;
    assert Normalized(s[1..])[..|u|] == t[1..][..|u|] == u;
    StartsBefore(s[1..], u);
    forall i | 0 <= i < |u| ensures !EmptyPost(s[1..][i..]) { NoPostInside(s[1..], u, i); }
    CopiesPrefix(s[1..], |u|);
    rest := s[1..][|u|..];
    assert s[1..] == u + rest;
  }

  lemma {:induction false} NoneLeft(s: string)
    ensures NoEmptyPost(Normalized(s))
  {
    var t := Normalized(s);
    if s == "" {
    } else if EmptyPost(s) {
      var rest := s[|POST_DATA|..];
      NoneLeft(rest);
      forall i | 0 <= i <= |t| ensures !EmptyPost(t[i..]) {
        if i < |POST_FILE| { PostFileIsNot(Normalized(rest), i); }
        else { assert t[i..] == Normalized(rest)[i - |POST_FILE|..]; }
      }
    } else {
      NoneLeft(s[1..]);
      if EmptyPost(t) { CopiedWas(s); }
      forall i | 0 <= i <= |t| ensures !EmptyPost(t[i..]) {
        if i == 0 { assert t[0..] == t; } else { assert t[i..] == Normalized(s[1..])[i - 1..]; }
      }
    }
  }

  // Rewriting is done after one pass.
  lemma NormalizedTwice(s: string)
    ensures Normalized(Normalized(s)) == Normalized(s)
  {
    NoneLeft(s);
    NormalizedSame(Normalized(s));
  }
}
