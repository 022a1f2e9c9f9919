// The minimal rewrite of a seed: only the changed top-level `autoinstall` keys are rewritten, line by line.

module EditorSplice {
  import opened Text
  import opened Values
  import opened EditorForm
  import opened EditorInstaller

  // ---- lines

  function IndentOf(line: string): nat {
    if line == "" || line[0] != ' ' then 0 else 1 + IndentOf(line[1..])
  }

  // Blank and comment lines.
  predicate Filler(line: string) {
    var s := Strip(line);
    s == "" || s[0] == '#'
  }

  // End of the content found so far, scanning from line i.
  function ContentEnd(lines: seq<string>, column: nat, i: nat, end: nat): nat
    requires i <= |lines|
    decreases |lines| - i
  {
    if i == |lines| then end
    else if Filler(lines[i]) then ContentEnd(lines, column, i + 1, end)
    else if IndentOf(lines[i]) <= column then end
    else ContentEnd(lines, column, i + 1, i + 1)
  }

  // Where a key's content stops: past its last line that is neither blank nor comment nor indented too little.
  function BlockEnd(lines: seq<string>, start: nat, column: nat): nat
    requires start < |lines|
  {
    ContentEnd(lines, column, start + 1, start + 1)
  }

  method FindBlockEnd(lines: seq<string>, start: nat, column: nat) returns (end: nat)
    requires start < |lines|
    ensures end == BlockEnd(lines, start, column)
  {
    end := start + 1;
    var i := start + 1;
    while i < |lines|
      invariant start + 1 <= i <= |lines|
      invariant BlockEnd(lines, start, column) == ContentEnd(lines, column, i, end)
    {
      if !Filler(lines[i]) {
        if IndentOf(lines[i]) <= column {
          break;
        }
        end := i + 1;
      }
      i := i + 1;
    }
  }

  // The block's last line is content; after it come only blank and comment lines up to a shallower content line.
  lemma {:induction false} ContentEndIs(lines: seq<string>, column: nat, i: nat, end: nat) returns (stop: nat)
    requires 0 < end <= i <= |lines| && forall j | end <= j < i :: Filler(lines[j])
    ensures var r := ContentEnd(lines, column, i, end);
      && i <= stop <= |lines| && end <= r <= stop
      && (forall j | r <= j < stop :: Filler(lines[j]))
      && (r > end ==> i < r && !Filler(lines[r - 1]))
      && (forall j | i <= j < stop :: Filler(lines[j]) || IndentOf(lines[j]) > column)
      && (stop < |lines| ==> !Filler(lines[stop]) && IndentOf(lines[stop]) <= column)
    decreases |lines| - i
  {
    hide Filler, IndentOf;
    if i == |lines| {
      stop := i;
    } else if Filler(lines[i]) {
      stop := ContentEndIs(lines, column, i + 1, end);
    } else if IndentOf(lines[i]) <= column {
      stop := i;
    } else {
      stop := ContentEndIs(lines, column, i + 1, i + 1);
    }
  }

  // ---- locating the keys

  // Where the YAML parser saw each key: its name, line and column.
  datatype Mark = Mark(key: Key, line: nat, column: nat)

  datatype Marks = Marks(autoLine: nat, autoColumn: nat, keys: seq<Mark>)

  // A plain block mapping: the keys stand alone at one column, right of `autoinstall`, on rising lines.
  predicate PlainBlock(lines: seq<string>, m: Marks, before: seq<Entry>) {
    && m.keys != [] && |m.keys| == |before|
    && m.autoLine < |lines|
    && m.keys[0].column > m.autoColumn
    && (forall i | 0 <= i < |m.keys| ::
          && m.keys[i].key == before[i].key
          && m.keys[i].column == m.keys[0].column
          && m.keys[i].line < |lines|
          && m.keys[i].column <= |lines[m.keys[i].line]|
          && Blank(lines[m.keys[i].line][..m.keys[i].column]))
    && (forall i | 0 < i < |m.keys| :: m.keys[i - 1].line < m.keys[i].line)
  }

  // The span of key i runs to the next key's line, or to the end of the whole block.
  function SpanStart(m: Marks, i: nat): nat
    requires i < |m.keys|
  {
    m.keys[i].line
  }

  function SpanEnd(lines: seq<string>, m: Marks, i: nat): nat
    requires i < |m.keys| && m.autoLine < |lines|
  {
    if i + 1 < |m.keys| then m.keys[i + 1].line else AutoEnd(lines, m)
  }

  function AutoEnd(lines: seq<string>, m: Marks): nat
    requires m.autoLine < |lines|
  {
    BlockEnd(lines, m.autoLine, m.autoColumn)
  }

  // What the parser guarantees of such a block: key lines are content at their column, below `autoinstall`, and
  // every content line down to the last key is indented past it.
  ghost predicate IndentedBlock(lines: seq<string>, m: Marks)
    requires m.autoLine < |lines|
  {
    && (forall i | 0 <= i < |m.keys| ::
          && m.autoLine < m.keys[i].line < |lines|
          && !Filler(lines[m.keys[i].line]) && IndentOf(lines[m.keys[i].line]) == m.keys[i].column)
    && (forall i, j | 0 <= i < |m.keys| && m.autoLine < j <= m.keys[i].line ::
      Filler(lines[j]) || IndentOf(lines[j]) > m.autoColumn)
  }

  lemma {:induction false} ContentReaches(lines: seq<string>, column: nat, i: nat, end: nat, k: nat)
    requires i <= k < |lines| && !Filler(lines[k])
    requires forall j | i <= j <= k :: Filler(lines[j]) || IndentOf(lines[j]) > column
    ensures ContentEnd(lines, column, i, end) > k
    decreases |lines| - i
  {
    hide Filler, IndentOf;
    if i == k {
      var stop := ContentEndIs(lines, column, i + 1, i + 1);
    } else if Filler(lines[i]) {
      ContentReaches(lines, column, i + 1, end, k);
    } else {
      ContentReaches(lines, column, i + 1, i + 1, k);
    }
  }

  // The spans are not empty, follow one another without gaps, and end with the block.
  lemma SpansTile(lines: seq<string>, m: Marks, before: seq<Entry>, i: nat)
    requires PlainBlock(lines, m, before) && IndentedBlock(lines, m) && i < |m.keys|
    ensures SpanStart(m, i) < SpanEnd(lines, m, i) <= AutoEnd(lines, m) <= |lines|
    ensures i + 1 < |m.keys| ==> SpanEnd(lines, m, i) == SpanStart(m, i + 1)
    decreases |m.keys| - i
  {
    hide Filler, IndentOf, Blank;
    ContentReaches(lines, m.autoColumn, m.autoLine + 1, m.autoLine + 1, m.keys[i].line);
    var stop := ContentEndIs(lines, m.autoColumn, m.autoLine + 1, m.autoLine + 1);
    if i + 1 < |m.keys| {
      SpansTile(lines, m, before, i + 1);
    }
  }

  // ---- splicing

  // How values compare, how one `key: value` block is dumped at the keys' column, the seed's line end, and how a whole
  // seed text reads back.
  datatype Writer = Writer(same: (Value, Value) -> bool, block: (Key, Value) -> seq<string>, newline: string,
                           parse: string -> Option<Value>)

  function IndexOfKey(es: seq<Entry>, k: Key): (r: Option<nat>)
    ensures r.Some? ==> r.value < |es| && es[r.value].key == k
    ensures r.None? <==> !HasKey(es, k)
  {
    if es == [] then None
    else if es[|es| - 1].key == k then Some(|es| - 1)
    else
      assert HasKey(es, k) ==> HasKey(es[..|es| - 1], k) by {
        if HasKey(es, k) { var i :| 0 <= i < |es| && es[i].key == k; assert es[..|es| - 1][i].key == k; }
      }
      assert HasKey(es[..|es| - 1], k) ==> HasKey(es, k) by {
        if HasKey(es[..|es| - 1], k) {
          var i :| 0 <= i < |es| - 1 && es[..|es| - 1][i].key == k;
          assert es[i].key == k;
        }
      }
      IndexOfKey(es[..|es| - 1], k)
  }

  // Where the content of a changed key stops and its trailing blank and comment lines begin.
  function TailStart(lines: seq<string>, m: Marks, i: nat): (r: nat)
    requires i < |m.keys| && m.autoLine < |lines| && SpanStart(m, i) < |lines|
    ensures r <= SpanEnd(lines, m, i)
  {
    var end, stop := BlockEnd(lines, SpanStart(m, i), m.keys[0].column), SpanEnd(lines, m, i);
    if end < stop then end else stop
  }

  // A plain block with the parser's guarantee.
  ghost predicate Located(lines: seq<string>, m: Marks, before: seq<Entry>) {
    PlainBlock(lines, m, before) && IndentedBlock(lines, m)
  }

  // lines[a:b]
  function Slice(lines: seq<string>, a: nat, b: nat): seq<string> {
    var hi := if b < |lines| then b else |lines|;
    if a <= hi then lines[a..hi] else []
  }

  // New lines for one key of the rewritten mapping.
  function KeyLines(w: Writer, lines: seq<string>, m: Marks, before: seq<Entry>, e: Entry): seq<string>
    requires PlainBlock(lines, m, before)
  {
    match IndexOfKey(before, e.key)
    case None => w.block(e.key, e.value)
    case Some(i) =>
      if w.same(before[i].value, e.value) then Slice(lines, SpanStart(m, i), SpanEnd(lines, m, i))
      else w.block(e.key, e.value) + Slice(lines, TailStart(lines, m, i), SpanEnd(lines, m, i))
  }

  function BodyLines(w: Writer, lines: seq<string>, m: Marks, before: seq<Entry>, after: seq<Entry>): seq<string>
    requires PlainBlock(lines, m, before)
  {
    if after == [] then [] else
    BodyLines(w, lines, m, before, after[..|after| - 1]) + KeyLines(w, lines, m, before, after[|after| - 1])
  }

  function KeysOf(es: seq<Entry>): seq<Key> {
    seq(|es|, i requires 0 <= i < |es| => es[i].key)
  }

  function KeysIn(es: seq<Entry>, other: seq<Entry>): seq<Key> {
    if es == [] then [] else
    var prev, k := KeysIn(es[..|es| - 1], other), es[|es| - 1].key;
    if HasKey(other, k) then prev + [k] else prev
  }

  // The rewritten lines, or None when the block is not plain or the surviving keys changed their order.
  function SpliceLines(w: Writer, lines: seq<string>, m: Marks, before: seq<Entry>,
                       after: seq<Entry>): Option<seq<string>> {
    if !PlainBlock(lines, m, before) || KeysIn(after, before) != KeysIn(before, after) then None
    else Some(lines[..SpanStart(m, 0)] + BodyLines(w, lines, m, before, after)
      + Slice(lines, AutoEnd(lines, m), |lines|))
  }

  function Concat(pieces: seq<string>): string {
    if pieces == [] then "" else Concat(pieces[..|pieces| - 1]) + pieces[|pieces| - 1]
  }

  predicate EndsLine(s: string) {
    s != "" && s[|s| - 1] == '\n'
  }

  // Every piece but the last gets a line end.
  function Ended(newline: string, pieces: seq<string>): seq<string> {
    seq(|pieces|, i requires 0 <= i < |pieces| =>
      if i + 1 < |pieces| && !EndsLine(pieces[i]) then pieces[i] + newline else pieces[i])
  }

  function JoinLines(newline: string, pieces: seq<string>): string {
    Concat(Ended(newline, pieces))
  }

  // The text reads back as what the save built.
  predicate ReadsAs(w: Writer, text: string, built: Value) {
    w.parse(text).Some? && w.same(w.parse(text).value, built)
  }

  // The text of the rewritten lines, unless it reads back as anything but the seed the save built.
  function Splice(w: Writer, lines: seq<string>, m: Marks, before: seq<Entry>, after: seq<Entry>,
                  built: Value): Option<string> {
    match SpliceLines(w, lines, m, before, after)
    case None => None
    case Some(out) =>
      var text := JoinLines(w.newline, out);
      if ReadsAs(w, text, built) then Some(text) else None
  }

  method WriteKey(w: Writer, lines: seq<string>, m: Marks, before: seq<Entry>, e: Entry) returns (r: seq<string>)
    requires PlainBlock(lines, m, before)
    ensures r == KeyLines(w, lines, m, before, e)
  {
    match IndexOfKey(before, e.key) {
      case None => r := w.block(e.key, e.value);
      case Some(i) =>
        var start, end := SpanStart(m, i), SpanEnd(lines, m, i);
        if w.same(before[i].value, e.value) {
          r := Slice(lines, start, end);
        } else {
          var contentEnd := FindBlockEnd(lines, start, m.keys[0].column);
          if contentEnd > end { contentEnd := end; }
          r := w.block(e.key, e.value) + Slice(lines, contentEnd, end);
        }
    }
  }

  // The source's loop over the rewritten mapping.
  method SpliceBody(w: Writer, lines: seq<string>, m: Marks, before: seq<Entry>, after: seq<Entry>)
    returns (body: seq<string>)
    requires PlainBlock(lines, m, before)
    ensures body == BodyLines(w, lines, m, before, after)
  {
    body := [];
    var n := 0;
    while n < |after|
      invariant n <= |after| && body == BodyLines(w, lines, m, before, after[..n])
    {
      var block := WriteKey(w, lines, m, before, after[n]);
      body := body + block;
      assert after[..n + 1][..n] == after[..n] && after[..n + 1][n] == after[n];
      n := n + 1;
    }
    assert after[..n] == after;
  }

  // The source's loop that ends the lines.
  method EndLines(newline: string, pieces: seq<string>) returns (ended: seq<string>)
    ensures ended == Ended(newline, pieces)
  {
    ended := pieces;
    var i := 0;
    while i + 1 < |pieces|
      invariant 0 <= i <= |pieces| == |ended| && (i + 1 <= |pieces| || pieces == [])
      invariant forall k | 0 <= k < i :: ended[k] == Ended(newline, pieces)[k]
      invariant forall k | i <= k < |pieces| :: ended[k] == pieces[k]
    {
      if !EndsLine(ended[i]) {
        ended := ended[i := ended[i] + newline];
      }
      i := i + 1;
    }
  }

  // The keys of one mapping that another has too, as the source lists them.
  method ListShared(es: seq<Entry>, other: seq<Entry>) returns (keys: seq<Key>)
    ensures keys == KeysIn(es, other)
  {
    keys := [];
    for n := 0 to |es|
      invariant keys == KeysIn(es[..n], other)
    {
      assert es[..n + 1][..n] == es[..n] && es[..n + 1][n] == es[n];
      if HasKey(other, es[n].key) {
        keys := keys + [es[n].key];
      }
    }
    assert es[..|es|] == es;
  }

  // The whole splice with its guards: a plain block, surviving keys in order, and the reparse.
  method SpliceAutoinstall(w: Writer, lines: seq<string>, m: Marks, before: seq<Entry>, after: seq<Entry>, built: Value)
    returns (r: Option<string>)
    ensures r == Splice(w, lines, m, before, after, built)
  {
    if !PlainBlock(lines, m, before) {
      return None;
    }
    var shared := ListShared(after, before);
    var survivors := ListShared(before, after);
    if shared != survivors {
      return None;
    }
    var end := FindBlockEnd(lines, m.autoLine, m.autoColumn);
    var body := SpliceBody(w, lines, m, before, after);
    var pieces := EndLines(w.newline, lines[..SpanStart(m, 0)] + body + Slice(lines, end, |lines|));
    var spliced := Concat(pieces);
    if ReadsAs(w, spliced, built) {
      return Some(spliced);
    }
    return None;
  }

  // ---- the frame: what happens to every original line

  // What line j of the block becomes: itself, nothing, or the new block of the key it starts.
  function LineBecomes(w: Writer, lines: seq<string>, m: Marks, before: seq<Entry>, after: seq<Entry>, i: nat,
                       j: nat): seq<string>
    requires Located(lines, m, before) && i < |before| && j < |lines|
  {
    match Get(after, before[i].key)
    case None => []
    case Some(v) =>
      if w.same(before[i].value, v) || j >= TailStart(lines, m, i) then [lines[j]]
      else if j == SpanStart(m, i) then w.block(before[i].key, v)
      else []
  }

  // The lines of span i below line j, rewritten.
  function SpanBecomes(w: Writer, lines: seq<string>, m: Marks, before: seq<Entry>, after: seq<Entry>, i: nat,
                       j: nat): seq<string>
    requires Located(lines, m, before) && i < |before| && SpanStart(m, i) <= j <= |lines|
    decreases j
  {
    if j == SpanStart(m, i) then [] else
    SpanBecomes(w, lines, m, before, after, i, j - 1) + LineBecomes(w, lines, m, before, after, i, j - 1)
  }

  // The rewritten spans of the first n keys.
  function BlockBecomes(w: Writer, lines: seq<string>, m: Marks, before: seq<Entry>, after: seq<Entry>,
                        n: nat): seq<string>
    requires Located(lines, m, before) && n <= |before|
  {
    if n == 0 then [] else
    SpansTile(lines, m, before, n - 1);
    BlockBecomes(w, lines, m, before, after, n - 1)
      + SpanBecomes(w, lines, m, before, after, n - 1, SpanEnd(lines, m, n - 1))
  }

  function NewBlocks(w: Writer, added: seq<Entry>): seq<string> {
    if added == [] then []
      else NewBlocks(w, added[..|added| - 1]) + w.block(added[|added| - 1].key, added[|added| - 1].value)
  }

  lemma {:induction false} SpanCopied(w: Writer, lines: seq<string>, m: Marks, before: seq<Entry>, after: seq<Entry>,
                                      i: nat, from: nat, j: nat)
    requires Located(lines, m, before) && i < |before| && SpanStart(m, i) <= from <= j <= |lines|
    requires forall k | from <= k < j :: LineBecomes(w, lines, m, before, after, i, k) == [lines[k]]
    ensures SpanBecomes(w, lines, m, before, after, i, j)
      == SpanBecomes(w, lines, m, before, after, i, from) + lines[from..j]
  {
    hide LineBecomes, Located;
    if j > from {
      SpanCopied(w, lines, m, before, after, i, from, j - 1);
      assert lines[from..j] == lines[from..j - 1] + [lines[j - 1]];
    } else {
      assert lines[from..j] == [];
    }
  }

  lemma {:induction false} SpanDropped(w: Writer, lines: seq<string>, m: Marks, before: seq<Entry>, after: seq<Entry>,
                                       i: nat, from: nat, j: nat)
    requires Located(lines, m, before) && i < |before| && SpanStart(m, i) <= from <= j <= |lines|
    requires forall k | from <= k < j :: LineBecomes(w, lines, m, before, after, i, k) == []
    ensures SpanBecomes(w, lines, m, before, after, i, j) == SpanBecomes(w, lines, m, before, after, i, from)
  {
    hide LineBecomes, Located;
    if j > from {
      SpanDropped(w, lines, m, before, after, i, from, j - 1);
      assert SpanBecomes(w, lines, m, before, after, i, from) + [] == SpanBecomes(w, lines, m, before, after, i, from);
    }
  }

  lemma TailAfterStart(lines: seq<string>, m: Marks, before: seq<Entry>, i: nat)
    requires Located(lines, m, before) && i < |before|
    ensures SpanStart(m, i) < TailStart(lines, m, i) <= SpanEnd(lines, m, i)
  {
    hide Filler, IndentOf;
    SpansTile(lines, m, before, i);
    var stop := ContentEndIs(lines, m.keys[0].column, SpanStart(m, i) + 1, SpanStart(m, i) + 1);
  }

  // A whole span is copied, rewritten as a unit, or dropped.
  lemma SpanIs(w: Writer, lines: seq<string>, m: Marks, before: seq<Entry>, after: seq<Entry>, i: nat)
    requires Located(lines, m, before) && DistinctKeys(before) && i < |before|
    ensures SpanStart(m, i) < SpanEnd(lines, m, i) <= |lines|
    ensures SpanBecomes(w, lines, m, before, after, i, SpanEnd(lines, m, i))
         == match Get(after, before[i].key)
            case None => []
            case Some(v) => KeyLines(w, lines, m, before, Entry(before[i].key, v))
  {
    hide Located, Filler, IndentOf, BlockEnd, AutoEnd, Get;
    SpansTileLocated(lines, m, before, i);
    TailAfterStart(lines, m, before, i);
    IndexIs(before, i);
    var start, end := SpanStart(m, i), SpanEnd(lines, m, i);
    match Get(after, before[i].key)
    case None => SpanDropped(w, lines, m, before, after, i, start, end);
    case Some(v) =>
      if w.same(before[i].value, v) {
        SpanCopied(w, lines, m, before, after, i, start, end);
      } else {
        var tail := TailStart(lines, m, i);
        assert SpanBecomes(w, lines, m, before, after, i, start) == [];
        assert SpanBecomes(w, lines, m, before, after, i, start + 1) == w.block(before[i].key, v);
        SpanDropped(w, lines, m, before, after, i, start + 1, tail);
        SpanCopied(w, lines, m, before, after, i, tail, end);
      }
  }

  lemma SpansTileLocated(lines: seq<string>, m: Marks, before: seq<Entry>, i: nat)
    requires Located(lines, m, before) && i < |before|
    ensures |m.keys| == |before| && m.autoLine < |lines|
    ensures SpanStart(m, i) < SpanEnd(lines, m, i) <= AutoEnd(lines, m) <= |lines|
    ensures i + 1 < |m.keys| ==> SpanEnd(lines, m, i) == SpanStart(m, i + 1)
  {
    SpansTile(lines, m, before, i);
  }

  lemma IndexIs(es: seq<Entry>, i: nat)
    requires DistinctKeys(es) && i < |es|
    ensures IndexOfKey(es, es[i].key) == Some(i)
  {
    assert HasKey(es, es[i].key);
    var k := IndexOfKey(es, es[i].key).value;
    assert k == i;
  }

  // ---- the frame theorem

  // The surviving keys in their original order, then the new ones: what rebuilding the mapping produces.
  ghost predicate InOrder(before: seq<Entry>, kept: seq<Entry>, added: seq<Entry>) {
    && DistinctKeys(kept + added)
    && (forall i | 0 <= i < |kept| :: HasKey(before, kept[i].key))
    && (forall i | 0 <= i < |added| :: !HasKey(before, added[i].key))
    && KeysIn(kept, before) == KeysIn(before, kept)
  }

  // Rewriting the kept keys one by one rewrites the original spans one by one.
  lemma {:induction false} BodyIsBlock(w: Writer, lines: seq<string>, m: Marks, before: seq<Entry>, after: seq<Entry>,
                                       kept: seq<Entry>, n: nat)
    requires Located(lines, m, before) && DistinctKeys(before) && n <= |before|
    requires DistinctKeys(kept) && KeysOf(kept) == KeysIn(before[..n], after)
    requires forall i | 0 <= i < |kept| :: Get(after, kept[i].key) == Some(kept[i].value)
    ensures BodyLines(w, lines, m, before, kept) == BlockBecomes(w, lines, m, before, after, n)
  {
    hide Get, HasKey, SpanBecomes, KeyLines, Located, KeysIn, KeysOf, DistinctKeys, AutoEnd, SpanEnd;
    if n == 0 {
      NoKeys(kept, before, after);
    } else {
      SpanIs(w, lines, m, before, after, n - 1);
      SpansTileLocated(lines, m, before, n - 1);
      var k := before[n - 1].key;
      KeysInStep(before, after, n);
      assert HasKey(after, k) <==> Get(after, k).Some?;
      if HasKey(after, k) {
        LastKept(kept, KeysIn(before[..n - 1], after), k);
        var last := |kept| - 1;
        BodyIsBlock(w, lines, m, before, after, kept[..last], n - 1);
        assert kept[last] == Entry(k, Get(after, k).value);
      } else {
        BodyIsBlock(w, lines, m, before, after, kept, n - 1);
        var done := BlockBecomes(w, lines, m, before, after, n - 1);
        assert done + [] == done;
      }
    }
  }

  lemma NoKeys(kept: seq<Entry>, before: seq<Entry>, after: seq<Entry>)
    requires KeysOf(kept) == KeysIn(before[..0], after)
    ensures kept == []
  {
    assert |KeysOf(kept)| == 0;
  }

  lemma KeysInStep(before: seq<Entry>, after: seq<Entry>, n: nat)
    requires 0 < n <= |before|
    ensures var k, prev := before[n - 1].key, KeysIn(before[..n - 1], after);
      KeysIn(before[..n], after) == if HasKey(after, k) then prev + [k] else prev
  {
    assert before[..n][..n - 1] == before[..n - 1] && before[..n][n - 1] == before[n - 1];
  }

  lemma LastKept(kept: seq<Entry>, keys: seq<Key>, k: Key)
    requires KeysOf(kept) == keys + [k] && DistinctKeys(kept)
    ensures kept != [] && var last := |kept| - 1;
      kept[last].key == k && KeysOf(kept[..last]) == keys && DistinctKeys(kept[..last])
  {
    var last := |kept| - 1;
    assert KeysOf(kept)[last] == k;
    assert KeysOf(kept[..last]) == KeysOf(kept)[..last];
  }

  lemma AddedLines(w: Writer, lines: seq<string>, m: Marks, before: seq<Entry>, e: Entry)
    requires PlainBlock(lines, m, before) && !HasKey(before, e.key)
    ensures KeyLines(w, lines, m, before, e) == w.block(e.key, e.value)
  {
    hide PlainBlock, SpanEnd, TailStart;
  }

  lemma {:induction false} BodyOfAdded(w: Writer, lines: seq<string>, m: Marks, before: seq<Entry>, kept: seq<Entry>,
                                       added: seq<Entry>)
    requires PlainBlock(lines, m, before) && forall i | 0 <= i < |added| :: !HasKey(before, added[i].key)
    ensures BodyLines(w, lines, m, before, kept + added) == BodyLines(w, lines, m, before, kept) + NewBlocks(w, added)
  {
    hide HasKey, PlainBlock, KeyLines;
    if added == [] {
      assert kept + added == kept;
      var body := BodyLines(w, lines, m, before, kept);
      assert body + [] == body;
    } else {
      var n := |added| - 1;
      BodyOfAdded(w, lines, m, before, kept, added[..n]);
      var all := kept + added;
      assert all[..|all| - 1] == kept + added[..n] && all[|all| - 1] == added[n];
      AddedLines(w, lines, m, before, added[n]);
      var a, b, c :=
        BodyLines(w, lines, m, before, kept), NewBlocks(w, added[..n]), w.block(added[n].key, added[n].value);
      assert (a + b) + c == a + (b + c);
    }
  }

  // The keys of one mapping that another has too.
  lemma {:induction false} KeysInAll(es: seq<Entry>, other: seq<Entry>)
    requires forall i | 0 <= i < |es| :: HasKey(other, es[i].key)
    ensures KeysIn(es, other) == KeysOf(es)
  {
    hide HasKey;
    if es != [] {
      var n := |es| - 1;
      KeysInAll(es[..n], other);
      assert KeysOf(es) == KeysOf(es[..n]) + [es[n].key];
    }
  }

  lemma {:induction false} KeysInSame(es: seq<Entry>, a: seq<Entry>, b: seq<Entry>)
    requires forall i | 0 <= i < |es| :: HasKey(a, es[i].key) <==> HasKey(b, es[i].key)
    ensures KeysIn(es, a) == KeysIn(es, b)
  {
    hide HasKey;
    if es != [] { KeysInSame(es[..|es| - 1], a, b); }
  }

  lemma {:induction false} KeysInPrefix(es: seq<Entry>, more: seq<Entry>, other: seq<Entry>)
    requires forall i | 0 <= i < |more| :: !HasKey(other, more[i].key)
    ensures KeysIn(es + more, other) == KeysIn(es, other)
  {
    hide HasKey;
    if more == [] {
      assert es + more == es;
    } else {
      var n := |more| - 1;
      var all := es + more;
      assert all[..|all| - 1] == es + more[..n] && all[|all| - 1] == more[n];
      KeysInPrefix(es, more[..n], other);
    }
  }

  // The original lines with only the block's changed spans rewritten line by line, removed keys' spans dropped, and the
  // new keys' blocks at the end of the block.
  function FramedLines(w: Writer, lines: seq<string>, m: Marks, before: seq<Entry>, kept: seq<Entry>,
                       added: seq<Entry>): seq<string>
    requires Located(lines, m, before) && SpanStart(m, 0) <= AutoEnd(lines, m) <= |lines|
  {
    lines[..SpanStart(m, 0)] + BlockBecomes(w, lines, m, before, kept + added, |before|) + NewBlocks(w, added)
    + lines[AutoEnd(lines, m)..]
  }

  // The spliced seed is exactly the framed lines, and it is given up exactly when they read back differently.
  lemma SpliceFrame(w: Writer, lines: seq<string>, m: Marks, before: seq<Entry>, kept: seq<Entry>, added: seq<Entry>,
                    built: Value)
    requires Located(lines, m, before) && DistinctKeys(before) && InOrder(before, kept, added)
    ensures SpanStart(m, 0) <= AutoEnd(lines, m) <= |lines|
    ensures var text := JoinLines(w.newline, FramedLines(w, lines, m, before, kept, added));
      Splice(w, lines, m, before, kept + added, built) == if ReadsAs(w, text, built) then Some(text) else None
  {
    hide InOrder, ReadsAs, JoinLines, FramedLines, SpliceLines, Located;
    LinesFrame(w, lines, m, before, kept, added);
  }

  lemma LinesFrame(w: Writer, lines: seq<string>, m: Marks, before: seq<Entry>, kept: seq<Entry>, added: seq<Entry>)
    requires Located(lines, m, before) && DistinctKeys(before) && InOrder(before, kept, added)
    ensures SpanStart(m, 0) <= AutoEnd(lines, m) <= |lines|
    ensures SpliceLines(w, lines, m, before, kept + added) == Some(FramedLines(w, lines, m, before, kept, added))
  {
    hide HasKey, KeyLines, IndentedBlock, LineBecomes, Get, AutoEnd, InOrder, KeysIn, KeysOf, BodyLines, BlockBecomes;
    var after := kept + added;
    SpansTileLocated(lines, m, before, 0);
    KeptInOrder(before, kept, added);
    assert before[..|before|] == before;
    BodyIsBlock(w, lines, m, before, after, kept, |before|);
    BodyOfAdded(w, lines, m, before, kept, added);
    var a, b, c := lines[..SpanStart(m, 0)], BodyLines(w, lines, m, before, kept), NewBlocks(w, added);
    assert a + (b + c) == a + b + c;
    assert Slice(lines, AutoEnd(lines, m), |lines|) == lines[AutoEnd(lines, m)..];
    GuardHolds(before, kept, added);
  }

  // The order guard of the splice.
  lemma GuardHolds(before: seq<Entry>, kept: seq<Entry>, added: seq<Entry>)
    requires InOrder(before, kept, added)
    ensures KeysIn(kept + added, before) == KeysIn(before, kept + added)
  {
    hide HasKey, KeysIn, KeysOf;
    KeysInPrefix(kept, added, before);
    SameSurvivors(before, kept, added);
    KeysInSame(before, kept + added, kept);
  }

  lemma SameSurvivors(before: seq<Entry>, kept: seq<Entry>, added: seq<Entry>)
    requires InOrder(before, kept, added)
    ensures forall i | 0 <= i < |before| :: HasKey(kept + added, before[i].key) <==> HasKey(kept, before[i].key)
  {
    hide HasKey, KeysIn, KeysOf;
    forall i | 0 <= i < |before| ensures HasKey(kept + added, before[i].key) <==> HasKey(kept, before[i].key) {
      HasAppend(kept, added, before[i].key);
      forall j | 0 <= j < |added| ensures added[j].key != before[i].key { HereKey(before, i); }
      NoneHas(added, before[i].key);
    }
  }

  // The kept entries are the surviving keys in their original order, each with its new value.
  lemma KeptInOrder(before: seq<Entry>, kept: seq<Entry>, added: seq<Entry>)
    requires InOrder(before, kept, added)
    ensures DistinctKeys(kept) && KeysOf(kept) == KeysIn(before, kept + added)
    ensures forall i | 0 <= i < |kept| :: Get(kept + added, kept[i].key) == Some(kept[i].value)
    ensures forall i | 0 <= i < |added| :: !HasKey(before, added[i].key)
  {
    hide HasKey, Get, KeysIn, KeysOf;
    var after := kept + added;
    KeysInAll(kept, before);
    SameSurvivors(before, kept, added);
    KeysInSame(before, after, kept);
    forall i | 0 <= i < |kept| ensures Get(after, kept[i].key) == Some(kept[i].value) {
      assert after[i] == kept[i];
      GetAt(after, i);
    }
    assert DistinctKeys(kept) by { assert forall i | 0 <= i < |kept| :: after[i] == kept[i]; }
  }

  lemma NoneHas(es: seq<Entry>, k: Key)
    requires forall i | 0 <= i < |es| :: es[i].key != k
    ensures !HasKey(es, k)
  {
  }

  // Content lines of a span are deeper than its key: the value of a block mapping entry.
  ghost predicate DeeperSpan(lines: seq<string>, m: Marks, i: nat)
    requires i < |m.keys| && m.autoLine < |lines|
  {
    SpanEnd(lines, m, i) <= |lines|
    && forall j | SpanStart(m, i) < j < SpanEnd(lines, m, i) ::
      Filler(lines[j]) || IndentOf(lines[j]) > m.keys[0].column
  }

  // Nothing of a later key or of the text after the block counts as content of a key.
  lemma ContentInSpan(lines: seq<string>, m: Marks, before: seq<Entry>, i: nat)
    requires Located(lines, m, before) && i < |before|
    ensures SpanStart(m, i) < SpanEnd(lines, m, i) <= |lines|
    ensures BlockEnd(lines, SpanStart(m, i), m.keys[0].column) <= SpanEnd(lines, m, i)
  {
    hide Filler, IndentOf, Blank;
    SpansTile(lines, m, before, i);
    var start := SpanStart(m, i);
    var stop := ContentEndIs(lines, m.keys[0].column, start + 1, start + 1);
    var autoStop := ContentEndIs(lines, m.autoColumn, m.autoLine + 1, m.autoLine + 1);
    if i + 1 < |m.keys| {
      SpansTile(lines, m, before, i + 1);
      assert !Filler(lines[m.keys[i + 1].line]);
    }
  }

  // The last line before the surviving tail is content.
  lemma ContentAboveTail(lines: seq<string>, m: Marks, before: seq<Entry>, i: nat)
    requires Located(lines, m, before) && i < |before|
    ensures var tail := TailStart(lines, m, i);
      SpanStart(m, i) < tail <= SpanEnd(lines, m, i) <= |lines| && !Filler(lines[tail - 1])
  {
    hide Filler, IndentOf, Blank, SpanEnd;
    ContentInSpan(lines, m, before, i);
    var start := SpanStart(m, i);
    var stop := ContentEndIs(lines, m.keys[0].column, start + 1, start + 1);
    assert !Filler(lines[m.keys[i].line]);
  }

  // Line k is content of key i, with no content between them that is as shallow as the key.
  ghost predicate ContentOf(lines: seq<string>, m: Marks, i: nat, k: nat)
    requires i < |m.keys| && SpanStart(m, i) < k < |lines|
  {
    !Filler(lines[k])
    && forall l | SpanStart(m, i) < l <= k :: Filler(lines[l]) || IndentOf(lines[l]) > m.keys[0].column
  }

  // A key that survives with another value.
  ghost predicate Rewritten(w: Writer, before: seq<Entry>, after: seq<Entry>, i: nat)
    requires i < |before|
  {
    HasKey(after, before[i].key) && !w.same(before[i].value, Get(after, before[i].key).value)
  }

  // Below the line of a rewritten key, exactly the lines at or above its last content line go.
  lemma CommentsSurvive(w: Writer, lines: seq<string>, m: Marks, before: seq<Entry>, after: seq<Entry>, i: nat, j: nat)
    requires Located(lines, m, before) && i < |before| && Rewritten(w, before, after, i)
    requires SpanStart(m, i) < j < SpanEnd(lines, m, i)
    ensures SpanEnd(lines, m, i) <= |lines|
    ensures LineBecomes(w, lines, m, before, after, i, j)
         == if exists k | j <= k < SpanEnd(lines, m, i) :: ContentOf(lines, m, i, k) then [] else [lines[j]]
  {
    hide Filler, IndentOf, Get, Blank, HasKey;
    ContentAboveTail(lines, m, before, i);
    ContentInSpan(lines, m, before, i);
    var start, end, tail := SpanStart(m, i), SpanEnd(lines, m, i), TailStart(lines, m, i);
    var stop := ContentEndIs(lines, m.keys[0].column, start + 1, start + 1);
    if j < tail {
      assert ContentOf(lines, m, i, tail - 1);
    } else {
      forall k | j <= k < end ensures !ContentOf(lines, m, i, k) {
        if stop > k {
          assert Filler(lines[k]);
        } else {
          assert !Filler(lines[stop]) && IndentOf(lines[stop]) <= m.keys[0].column;
        }
      }
    }
  }

  // No content line of a rewritten key stays behind.
  ghost predicate NothingStale(w: Writer, lines: seq<string>, m: Marks, before: seq<Entry>, after: seq<Entry>, i: nat)
    requires Located(lines, m, before) && i < |before|
  {
    SpanEnd(lines, m, i) <= |lines|
    && forall j | SpanStart(m, i) < j < SpanEnd(lines, m, i) && !Filler(lines[j]) ::
      LineBecomes(w, lines, m, before, after, i, j) == []
  }

  // That is so exactly when all the key's content is indented past the key.
  lemma StaleExactly(w: Writer, lines: seq<string>, m: Marks, before: seq<Entry>, after: seq<Entry>, i: nat)
    requires Located(lines, m, before) && i < |before| && Rewritten(w, before, after, i)
    ensures NothingStale(w, lines, m, before, after, i) <==> DeeperSpan(lines, m, i)
  {
    hide Filler, IndentOf, Get, Blank, HasKey, LineBecomes, Rewritten;
    ContentAboveTail(lines, m, before, i);
    forall j | SpanStart(m, i) < j < SpanEnd(lines, m, i)
      ensures LineBecomes(w, lines, m, before, after, i, j)
           == if exists k | j <= k < SpanEnd(lines, m, i) :: ContentOf(lines, m, i, k) then [] else [lines[j]]
    {
      CommentsSurvive(w, lines, m, before, after, i, j);
    }
    if DeeperSpan(lines, m, i) {
      forall j | SpanStart(m, i) < j < SpanEnd(lines, m, i) && !Filler(lines[j]) ensures ContentOf(lines, m, i, j) {}
    } else {
      var j :| SpanStart(m, i) < j < SpanEnd(lines, m, i) && !Filler(lines[j])
        && IndentOf(lines[j]) <= m.keys[0].column;
      assert forall k | j <= k < SpanEnd(lines, m, i) :: !ContentOf(lines, m, i, k);
      assert LineBecomes(w, lines, m, before, after, i, j) == [lines[j]];
    }
  }

  // A save leaves no old content behind exactly when every rewritten key's content is indented past its key.
  lemma NothingStaleExactly(w: Writer, lines: seq<string>, m: Marks, before: seq<Entry>, after: seq<Entry>)
    requires Located(lines, m, before)
    ensures (forall i | 0 <= i < |before| && Rewritten(w, before, after, i) ::
      NothingStale(w, lines, m, before, after, i))
       <==> (forall i | 0 <= i < |before| && Rewritten(w, before, after, i) :: DeeperSpan(lines, m, i))
  {
    hide Located, NothingStale, DeeperSpan, Rewritten;
    NotNone(lines, m, before);
    forall i | 0 <= i < |before| && Rewritten(w, before, after, i)
      ensures NothingStale(w, lines, m, before, after, i) <==> DeeperSpan(lines, m, i)
    {
      StaleExactly(w, lines, m, before, after, i);
    }
  }

  // ---- a list at its key's own column

  const FLUSH_LINES: seq<string> := ["autoinstall:", "  a:", "  - x", "  b: 1"]
  const FLUSH_MARKS: Marks := Marks(0, 0, [Mark(KStr("a"), 1, 2), Mark(KStr("b"), 3, 2)])

  function Flush(a: Value): seq<Entry> {
    [Entry(KStr("a"), a), Entry(KStr("b"), Int(1))]
  }

  lemma FlushContent()
    ensures !Filler("  a:") && !Filler("  - x") && !Filler("  b: 1") && Blank("  ")
    ensures IndentOf("  a:") == 2 && IndentOf("  - x") == 2 && IndentOf("  b: 1") == 2
  {
  }

  lemma FlushLocated(a: Value)
    ensures Located(FLUSH_LINES, FLUSH_MARKS, Flush(a)) && !DeeperSpan(FLUSH_LINES, FLUSH_MARKS, 0)
    ensures TailStart(FLUSH_LINES, FLUSH_MARKS, 0) == 2
  {
    hide Filler, IndentOf, Blank;
    FlushContent();
    assert "  a:"[..2] == "  " && "  b: 1"[..2] == "  ";
    assert SpanEnd(FLUSH_LINES, FLUSH_MARKS, 0) == 3;
    assert !Filler(FLUSH_LINES[2]) && IndentOf(FLUSH_LINES[2]) <= 2;
  }

  // The old item stays below whatever replaces the list.
  lemma FlushListStays(w: Writer, u: Value, v: Value)
    requires !w.same(u, v)
    ensures Located(FLUSH_LINES, FLUSH_MARKS, Flush(u)) && Rewritten(w, Flush(u), Flush(v), 0)
    ensures KeyLines(w, FLUSH_LINES, FLUSH_MARKS, Flush(u), Flush(v)[0]) == w.block(KStr("a"), v) + ["  - x"]
    ensures !NothingStale(w, FLUSH_LINES, FLUSH_MARKS, Flush(u), Flush(v), 0)
  {
    hide Located, NothingStale, TailStart;
    FlushLocated(u);
    HereKey(Flush(v), 0);
    StaleExactly(w, FLUSH_LINES, FLUSH_MARKS, Flush(u), Flush(v), 0);
  }

  // ---- nothing changed

  // A rewrite that changes no value leaves every line as it was.
  lemma UnchangedLines(w: Writer, lines: seq<string>, m: Marks, before: seq<Entry>, kept: seq<Entry>)
    requires Located(lines, m, before) && DistinctKeys(before) && |kept| == |before|
    requires forall i | 0 <= i < |before| :: kept[i].key == before[i].key && w.same(before[i].value, kept[i].value)
    ensures SpliceLines(w, lines, m, before, kept) == Some(lines)
  {
    hide Located, SpliceLines, BlockBecomes, HasKey, AutoEnd, KeysIn;
    NotNone(lines, m, before);
    SpansTileLocated(lines, m, before, 0);
    var last := |before| - 1;
    SpansTileLocated(lines, m, before, last);
    forall i | 0 <= i < |before| ensures HasKey(before, kept[i].key) && HasKey(kept, before[i].key) {
      HereKey(before, i);
      HereKey(kept, i);
    }
    KeysInAll(kept, before);
    KeysInAll(before, kept);
    assert KeysOf(kept) == KeysOf(before) && kept + [] == kept;
    LinesFrame(w, lines, m, before, kept, []);
    UnchangedBlock(w, lines, m, before, kept, |before|);
    var first, end := SpanStart(m, 0), AutoEnd(lines, m);
    assert lines[..first] + lines[first..end] + [] + lines[end..] == lines;
  }

  lemma NotNone(lines: seq<string>, m: Marks, before: seq<Entry>)
    requires Located(lines, m, before)
    ensures 0 < |before| == |m.keys| && m.autoLine < |lines|
  {
  }

  lemma {:induction false} UnchangedSpan(w: Writer, lines: seq<string>, m: Marks, before: seq<Entry>, kept: seq<Entry>,
                                         i: nat)
    requires Located(lines, m, before) && DistinctKeys(before) && |kept| == |before| && i < |before|
    requires forall i | 0 <= i < |before| :: kept[i].key == before[i].key && w.same(before[i].value, kept[i].value)
    ensures SpanStart(m, i) < SpanEnd(lines, m, i) <= |lines|
    ensures SpanBecomes(w, lines, m, before, kept, i, SpanEnd(lines, m, i))
      == lines[SpanStart(m, i)..SpanEnd(lines, m, i)]
  {
    hide Filler, IndentOf, AutoEnd, BlockEnd;
    SpanIs(w, lines, m, before, kept, i);
    forall j, k | 0 <= j < k < |kept| ensures kept[j].key != kept[k].key { assert before[j].key != before[k].key; }
    GetAt(kept, i);
    IndexIs(before, i);
    assert KeyLines(w, lines, m, before, Entry(before[i].key, kept[i].value))
      == Slice(lines, SpanStart(m, i), SpanEnd(lines, m, i));
  }

  lemma {:induction false} UnchangedBlock(w: Writer, lines: seq<string>, m: Marks, before: seq<Entry>, kept: seq<Entry>,
                                          n: nat)
    requires Located(lines, m, before) && DistinctKeys(before) && |kept| == |before| && 0 < n <= |before|
    requires forall i | 0 <= i < |before| :: kept[i].key == before[i].key && w.same(before[i].value, kept[i].value)
    ensures SpanStart(m, 0) <= SpanEnd(lines, m, n - 1) <= |lines|
    ensures BlockBecomes(w, lines, m, before, kept, n) == lines[SpanStart(m, 0)..SpanEnd(lines, m, n - 1)]
  {
    hide Located, SpanBecomes, AutoEnd;
    NotNone(lines, m, before);
    UnchangedSpan(w, lines, m, before, kept, n - 1);
    if n == 1 {
      assert BlockBecomes(w, lines, m, before, kept, 0) == [];
    } else {
      UnchangedBlock(w, lines, m, before, kept, n - 1);
      SpansTileLocated(lines, m, before, n - 2);
      var a, b, c := SpanStart(m, 0), SpanStart(m, n - 1), SpanEnd(lines, m, n - 1);
      assert lines[a..b] + lines[b..c] == lines[a..c];
    }
  }

  // The seed text itself comes back if it reads as what the save built, and nothing does if not.
  lemma UnchangedText(w: Writer, lines: seq<string>, m: Marks, before: seq<Entry>, kept: seq<Entry>, built: Value)
    requires Located(lines, m, before) && DistinctKeys(before) && |kept| == |before|
    requires forall i | 0 <= i < |before| :: kept[i].key == before[i].key && w.same(before[i].value, kept[i].value)
    requires forall i | 0 <= i < |lines| - 1 :: EndsLine(lines[i])
    ensures Splice(w, lines, m, before, kept, built)
      == if ReadsAs(w, Concat(lines), built) then Some(Concat(lines)) else None
  {
    hide Located, SpliceLines, EndsLine, ReadsAs;
    UnchangedLines(w, lines, m, before, kept);
    assert Ended(w.newline, lines) == lines;
  }

  // ---- the rebuilt mapping

  // Original keys that survive, in order: user-data gets its new value.
  function RebuiltOld(auto: seq<Entry>, userData: Value, installer: seq<Entry>): seq<Entry> {
    if auto == [] then [] else
    var prev, k := RebuiltOld(auto[..|auto| - 1], userData, installer), auto[|auto| - 1].key;
    if k == USER_DATA then prev + [Entry(k, userData)]
    else match Get(installer, k)
      case Some(v) => prev + [Entry(k, v)]
      case None => prev
  }

  function RebuiltNew(auto: seq<Entry>, userData: Value, installer: seq<Entry>): seq<Entry> {
    Newcomers(auto, installer)
    + if !IsEmpty(userData) && !HasKey(auto, USER_DATA) then [Entry(USER_DATA, userData)] else []
  }

  // What a save makes of the mapping: old keys first, then new ones.
  function Rebuilt(auto: seq<Entry>, userData: Value, installer: seq<Entry>): seq<Entry> {
    RebuiltOld(auto, userData, installer) + RebuiltNew(auto, userData, installer)
  }

  lemma {:induction false} RebuiltKeys(auto: seq<Entry>, userData: Value, installer: seq<Entry>, k: Key)
    requires DistinctKeys(auto)
    ensures var out := RebuiltOld(auto, userData, installer);
      && DistinctKeys(out)
      && (HasKey(out, k) <==> HasKey(auto, k) && (k == USER_DATA || HasKey(installer, k)))
  {
    hide Get, HasKey;
    if auto == [] {
      HasNone(k);
    } else {
      var n := |auto| - 1;
      var before, last := auto[..n], auto[n];
      var prev := RebuiltOld(before, userData, installer);
      RebuiltKeys(before, userData, installer, k);
      RebuiltKeys(before, userData, installer, last.key);
      assert auto == before + [last];
      HasAppend(before, [last], k);
      HasOne(last, k);
      forall i | 0 <= i < n ensures before[i].key != last.key { assert auto[i].key != auto[n].key; }
      NoneHas(before, last.key);
      assert HasKey(installer, last.key) <==> Get(installer, last.key).Some?;
      var v := if last.key == USER_DATA then userData
        else if Get(installer, last.key).Some? then Get(installer, last.key).value else Null;
      HasAppend(prev, [Entry(last.key, v)], k);
      HasOne(Entry(last.key, v), k);
      forall i | 0 <= i < |prev| ensures prev[i].key != last.key { HereKey(prev, i); }
    }
  }

  lemma {:induction false} NewcomersAre(original: seq<Entry>, combined: seq<Entry>)
    requires DistinctKeys(combined)
    ensures var out := Newcomers(original, combined);
      && DistinctKeys(out)
      && (forall j | 0 <= j < |out| :: !HasKey(original, out[j].key) && HasKey(combined, out[j].key))
  {
    hide HasKey;
    if combined != [] {
      var n := |combined| - 1;
      var prev := Newcomers(original, combined[..n]);
      NewcomersAre(original, combined[..n]);
      forall j | 0 <= j < |prev| ensures HasKey(combined, prev[j].key) && prev[j].key != combined[n].key {
        KeyBelow(combined, n, prev[j].key);
      }
      HereKey(combined, n);
    }
  }

  lemma KeyBelow(es: seq<Entry>, n: nat, k: Key)
    requires DistinctKeys(es) && n < |es| && HasKey(es[..n], k)
    ensures HasKey(es, k) && es[n].key != k
  {
    var i :| 0 <= i < n && es[..n][i].key == k;
    assert es[i].key == k;
  }

  lemma {:induction false} RebuiltOrder(auto: seq<Entry>, userData: Value, installer: seq<Entry>, other: seq<Entry>)
    requires forall i | 0 <= i < |auto| ::
      HasKey(other, auto[i].key) <==> auto[i].key == USER_DATA || HasKey(installer, auto[i].key)
    ensures KeysIn(auto, other) == KeysOf(RebuiltOld(auto, userData, installer))
  {
    hide Get, HasKey;
    if auto != [] {
      var n := |auto| - 1;
      RebuiltOrder(auto[..n], userData, installer, other);
      var k := auto[n].key;
      assert HasKey(installer, k) <==> Get(installer, k).Some?;
      var prev := RebuiltOld(auto[..n], userData, installer);
      var v := if k == USER_DATA then userData else if Get(installer, k).Some? then Get(installer, k).value else Null;
      assert KeysOf(prev + [Entry(k, v)]) == KeysOf(prev) + [k];
    }
  }

  // Rebuilding never reorders: the splice's order guard always passes and new keys come last.
  lemma RebuiltInOrder(auto: seq<Entry>, userData: Value, installer: seq<Entry>)
    requires DistinctKeys(auto) && DistinctKeys(installer) && !HasKey(installer, USER_DATA)
    ensures InOrder(auto, RebuiltOld(auto, userData, installer), RebuiltNew(auto, userData, installer))
  {
    hide HasKey, Newcomers, RebuiltOld;
    var kept, added := RebuiltOld(auto, userData, installer), RebuiltNew(auto, userData, installer);
    NewcomersAre(auto, installer);
    forall k: Key
      ensures HasKey(kept, k) <==> HasKey(auto, k) && (k == USER_DATA || HasKey(installer, k))
    {
      RebuiltKeys(auto, userData, installer, k);
    }
    RebuiltKeys(auto, userData, installer, USER_DATA);
    forall i | 0 <= i < |kept| ensures HasKey(auto, kept[i].key) { HereKey(kept, i); }
    forall i | 0 <= i < |auto| ensures HasKey(auto, auto[i].key) { HereKey(auto, i); }
    KeysInAll(kept, auto);
    RebuiltOrder(auto, userData, installer, kept);
    var newcomers := Newcomers(auto, installer);
    forall i | 0 <= i < |added|
      ensures !HasKey(auto, added[i].key)
      ensures forall j | 0 <= j < i :: added[j].key != added[i].key
    {
      if i == |newcomers| {
        forall j | 0 <= j < i ensures added[j].key != USER_DATA { assert HasKey(installer, newcomers[j].key); }
      }
    }
  }

  // The whole rewrite: rebuilding the mapping and splicing it back changes only the lines of changed keys, or is given
  // up because the result does not read back.
  lemma RebuiltSplice(w: Writer, lines: seq<string>, m: Marks, auto: seq<Entry>, userData: Value, installer: seq<Entry>,
                      built: Value)
    requires Located(lines, m, auto) && DistinctKeys(auto) && DistinctKeys(installer) && !HasKey(installer, USER_DATA)
    ensures SpanStart(m, 0) <= AutoEnd(lines, m) <= |lines|
    ensures var kept, added := RebuiltOld(auto, userData, installer), RebuiltNew(auto, userData, installer);
      var text := JoinLines(w.newline, FramedLines(w, lines, m, auto, kept, added));
      Splice(w, lines, m, auto, Rebuilt(auto, userData, installer), built)
        == if ReadsAs(w, text, built) then Some(text) else None
  {
    hide Located, Splice, FramedLines, JoinLines, ReadsAs, InOrder, AutoEnd, RebuiltOld, RebuiltNew;
    RebuiltInOrder(auto, userData, installer);
    SpliceFrame(w, lines, m, auto, RebuiltOld(auto, userData, installer), RebuiltNew(auto, userData, installer), built);
  }
}
