// Parsed YAML trees and the equality the editor uses to compare them.

module Values {
  import opened Text
  import opened Tokens

  // Mapping keys: YAML allows any scalar, the editor only understands strings.
  datatype Key = KStr(s: string) | KOther(text: string)

  // A YAML tree. Octal is the int subclass that dumps in octal; Other is any further YAML scalar (dates, binary).
  datatype Value =
    | Null
    | Bool(b: bool)
    | Int(n: int)
    | Octal(o: nat)
    | Float(digits: string)
    | Str(s: string)
    | Other(text: string)
    | List(items: seq<Value>)
    | Dict(entries: seq<Entry>)

  datatype Entry = Entry(key: Key, value: Value)

  // Value as an int, bools excluded.
  predicate IsNumber(v: Value) {
    v.Int? || v.Octal? || v.Float?
  }

  // The editor's notion of an empty form value.
  predicate IsEmpty(v: Value) {
    match v
    case Null => true
    case Str(s) => Blank(s)
    case List(items) => items == []
    case Dict(entries) => entries == []
    case _ => false
  }

  predicate HasKey(es: seq<Entry>, k: Key) {
    exists i | 0 <= i < |es| :: es[i].key == k
  }

  predicate DistinctKeys(es: seq<Entry>) {
    forall i, j | 0 <= i < j < |es| :: es[i].key != es[j].key
  }

  // dict.get
  function Get(es: seq<Entry>, k: Key): (r: Option<Value>)
    ensures r.Some? <==> HasKey(es, k)
    ensures r.Some? ==> exists i | 0 <= i < |es| :: es[i] == Entry(k, r.value)
  {
    if es == [] then None
    else if es[0].key == k then assert es[0] == Entry(k, es[0].value); Some(es[0].value)
    else
      assert HasKey(es, k) ==> HasKey(es[1..], k) by {
        if HasKey(es, k) { var i :| 0 <= i < |es| && es[i].key == k; assert es[1..][i - 1].key == k; }
      }
      var r := Get(es[1..], k);
      assert r.Some? ==> exists i | 0 <= i < |es| :: es[i] == Entry(k, r.value) by {
        if r.Some? {
          var i :| 0 <= i < |es[1..]| && es[1..][i] == Entry(k, r.value);
          assert es[i + 1] == Entry(k, r.value);
        }
      }
      r
  }

  // dict[k] = v: an existing key keeps its place.
  function Put(es: seq<Entry>, k: Key, v: Value): seq<Entry> {
    if es == [] then [Entry(k, v)]
    else if es[0].key == k then [Entry(k, v)] + es[1..]
    else [es[0]] + Put(es[1..], k, v)
  }

  function ComparableKey(k: Key): Key {
    match k
    case KStr(s) => KStr(ComparableText(s))
    case KOther(_) => k
  }

  // A tree with every placeholder spelled in braces and octal ints as plain ones.
  function Comparable(v: Value): Value {
    match v
    case Str(s) => Str(ComparableText(s))
    case Octal(n) => Int(n)
    case List(items) => List(seq(|items|, i requires 0 <= i < |items| => Comparable(items[i])))
    case Dict(es) =>
      Dict(seq(|es|, i requires 0 <= i < |es| => Entry(ComparableKey(es[i].key), Comparable(es[i].value))))
    case _ => v
  }

  // The same shape and scalars throughout; a mapping is a set of entries.
  ghost predicate Equivalent(l: Value, r: Value) {
    match (l, r)
    case (Dict(les), Dict(res)) =>
      && (forall i | 0 <= i < |les| :: HasKey(res, les[i].key))
      && (forall j | 0 <= j < |res| :: HasKey(les, res[j].key))
      && (forall i, j | 0 <= i < |les| && 0 <= j < |res| && les[i].key == res[j].key ::
            Equivalent(les[i].value, res[j].value))
    case (List(ls), List(rs)) =>
      |ls| == |rs| && forall i | 0 <= i < |ls| :: Equivalent(ls[i], rs[i])
    case _ => l == r
  }

  ghost predicate SameMeaning(l: Value, r: Value) {
    Equivalent(Comparable(l), Comparable(r))
  }

  // No two keys of one mapping spell the same text once placeholders are normalised.
  predicate TidyKeys(es: seq<Entry>) {
    forall i, j | 0 <= i < j < |es| :: ComparableKey(es[i].key) != ComparableKey(es[j].key)
  }

  // A tree as the seed parser returns it: no octal ints, and tidy keys at every level.
  predicate Tidy(v: Value) {
    match v
    case Octal(_) => false
    case List(items) => forall i | 0 <= i < |items| :: Tidy(items[i])
    case Dict(es) => TidyKeys(es) && forall i | 0 <= i < |es| :: Tidy(es[i].value)
    case _ => true
  }

  // A list placeholder standing as a mapping value takes the spelling that later becomes a line of its own.
  function Blockify(v: Value): Value
    decreases v, 0
  {
    match v
    case List(items) => List(seq(|items|, i requires 0 <= i < |items| => Blockify(items[i])))
    case Dict(es) =>
      Dict(seq(|es|, i requires 0 <= i < |es| => Entry(es[i].key, BlockifyItem(es[i].value))))
    case _ => v
  }

  function BlockifyItem(v: Value): Value
    decreases v, 1
  {
    if v.Str? && ShieldedToken(v.s).Some? && ShieldedToken(v.s).value in BLOCK_MARKERS
    then Str(BLOCK + ShieldedToken(v.s).value)
    else Blockify(v)
  }

  function ShieldValue(v: Value): Value {
    match v
    case Str(s) => Str(Shield(s))
    case List(items) => List(seq(|items|, i requires 0 <= i < |items| => ShieldValue(items[i])))
    case Dict(es) => Dict(seq(|es|, i requires 0 <= i < |es| => Entry(es[i].key, ShieldValue(es[i].value))))
    case _ => v
  }

  // ---- meaning

  lemma {:induction false} SameRefl(v: Value)
    requires Tidy(v)
    ensures SameMeaning(v, v)
  {
    match v
    case List(items) =>
      forall i | 0 <= i < |items| ensures SameMeaning(items[i], items[i]) { SameRefl(items[i]); }
    case Dict(es) =>
      var cs := Comparable(v).entries;
      forall i, j | 0 <= i < |cs| && 0 <= j < |cs| && cs[i].key == cs[j].key
        ensures Equivalent(cs[i].value, cs[j].value)
      {
        assert i == j;
        SameRefl(es[i].value);
      }
    case _ =>
  }

  lemma {:induction false} BlockifyMeans(v: Value)
    ensures Comparable(Blockify(v)) == Comparable(v)
    ensures Comparable(BlockifyItem(v)) == Comparable(v)
  {
    if v.Str? && ShieldedToken(v.s).Some? {
      BetweenSpells(v.s, PXE, "__");
      ComparableOfShielded(ShieldedToken(v.s).value);
    }
    match v
    case List(items) =>
      forall i | 0 <= i < |items|
        ensures Comparable(Blockify(items[i])) == Comparable(items[i]) { BlockifyMeans(items[i]); }
      assert Comparable(Blockify(v)).items == Comparable(v).items;
    case Dict(es) =>
      forall i | 0 <= i < |es|
        ensures Comparable(BlockifyItem(es[i].value)) == Comparable(es[i].value) { BlockifyMeans(es[i].value); }
      assert Comparable(Blockify(v)).entries == Comparable(v).entries;
    case _ =>
  }

  lemma MeansSame(v: Value, w: Value)
    requires Tidy(v) && Comparable(w) == Comparable(v)
    ensures SameMeaning(v, w)
  {
    SameRefl(v);
  }

  lemma ListMeaning(xs: seq<Value>, ys: seq<Value>)
    ensures SameMeaning(List(xs), List(ys)) <==> |xs| == |ys| && forall i | 0 <= i < |xs| :: SameMeaning(xs[i], ys[i])
  {
    var c, d := Comparable(List(xs)).items, Comparable(List(ys)).items;
    assert forall i | 0 <= i < |xs| :: c[i] == Comparable(xs[i]);
    assert forall i | 0 <= i < |ys| :: d[i] == Comparable(ys[i]);
    if |xs| == |ys| && forall i | 0 <= i < |xs| :: SameMeaning(xs[i], ys[i]) {
      assert forall i | 0 <= i < |c| :: Equivalent(c[i], d[i]);
    }
    if SameMeaning(List(xs), List(ys)) {
      forall i | 0 <= i < |xs| ensures SameMeaning(xs[i], ys[i]) { assert Equivalent(c[i], d[i]); }
    }
  }

  // A mapping rebuilt from a subset of the original keys means the same iff it keeps every key with its meaning.
  lemma DictMeaning(es: seq<Entry>, out: seq<Entry>)
    requires TidyKeys(es)
    requires forall j | 0 <= j < |out| :: HasKey(es, out[j].key)
    requires DistinctKeys(out)
    ensures SameMeaning(Dict(es), Dict(out)) <==> forall i | 0 <= i < |es| :: KeptIn(es[i], out)
  {
    if forall i | 0 <= i < |es| :: KeptIn(es[i], out) {
      DictKept(es, out);
    }
    if SameMeaning(Dict(es), Dict(out)) {
      forall i | 0 <= i < |es| ensures KeptIn(es[i], out) {
        DictSame(es, out, i);
      }
    }
  }

  lemma DictKept(es: seq<Entry>, out: seq<Entry>)
    requires TidyKeys(es)
    requires forall j | 0 <= j < |out| :: HasKey(es, out[j].key)
    requires DistinctKeys(out)
    requires forall i | 0 <= i < |es| :: KeptIn(es[i], out)
    ensures SameMeaning(Dict(es), Dict(out))
  {
    hide ComparableKey, Equivalent;
    var c, d := Comparable(Dict(es)).entries, Comparable(Dict(out)).entries;
    forall i | 0 <= i < |c| ensures HasKey(d, c[i].key) {
      assert KeptIn(es[i], out);
      var j :| 0 <= j < |out| && out[j].key == es[i].key;
      assert d[j].key == c[i].key;
    }
    forall j | 0 <= j < |d| ensures HasKey(c, d[j].key) {
      assert HasKey(es, out[j].key);
      var i :| 0 <= i < |es| && es[i].key == out[j].key;
      assert c[i].key == d[j].key;
    }
    forall i, j | 0 <= i < |c| && 0 <= j < |d| && c[i].key == d[j].key
      ensures Equivalent(c[i].value, d[j].value)
    {
      SameKey(es, out, i, j);
      assert KeptIn(es[i], out);
      var k :| 0 <= k < |out| && out[k].key == es[i].key && SameMeaning(es[i].value, out[k].value);
      assert k == j;
    }
    DictsEquivalent(c, d);
  }

  lemma DictsEquivalent(c: seq<Entry>, d: seq<Entry>)
    requires (forall i | 0 <= i < |c| :: HasKey(d, c[i].key)) && forall j | 0 <= j < |d| :: HasKey(c, d[j].key)
    requires forall i, j | 0 <= i < |c| && 0 <= j < |d| && c[i].key == d[j].key :: Equivalent(c[i].value, d[j].value)
    ensures Equivalent(Dict(c), Dict(d))
  {
  }

  lemma DictSame(es: seq<Entry>, out: seq<Entry>, i: nat)
    requires TidyKeys(es)
    requires forall j | 0 <= j < |out| :: HasKey(es, out[j].key)
    requires SameMeaning(Dict(es), Dict(out)) && i < |es|
    ensures KeptIn(es[i], out)
  {
    var c, d := Comparable(Dict(es)).entries, Comparable(Dict(out)).entries;
    assert HasKey(d, c[i].key);
    var j :| 0 <= j < |d| && d[j].key == c[i].key;
    SameKey(es, out, i, j);
    assert Equivalent(c[i].value, d[j].value);
  }

  ghost predicate KeptIn(e: Entry, out: seq<Entry>) {
    exists j | 0 <= j < |out| :: out[j].key == e.key && SameMeaning(e.value, out[j].value)
  }

  lemma SameKey(es: seq<Entry>, out: seq<Entry>, i: nat, j: nat)
    requires TidyKeys(es)
    requires i < |es| && j < |out| && HasKey(es, out[j].key)
    requires ComparableKey(es[i].key) == ComparableKey(out[j].key)
    ensures es[i].key == out[j].key
  {
    var k :| 0 <= k < |es| && es[k].key == out[j].key;
  }

  // Meaning keeps emptiness.
  lemma SameNotEmpty(v: Value, w: Value)
    requires SameMeaning(v, w) && !IsEmpty(v)
    ensures !IsEmpty(w)
  {
    match w
    case Str(s) =>
      if Blank(s) {
        BlankComparable(s);
        BlankComparable(v.s);
      }
    case Dict(es) =>
      var c := Comparable(v).entries;
      assert forall i | 0 <= i < |c| :: HasKey(Comparable(w).entries, c[i].key);
      assert |c| > 0 ==> HasKey(Comparable(w).entries, c[0].key);
    case _ =>
  }

  lemma BlankComparable(s: string)
    ensures Blank(ComparableText(s)) <==> Blank(s)
  {
    UnshieldBlank(s);
    if BlockText(s).Some? {
      BetweenSpells(s, BLOCK, "");
      var t := BlockText(s).value;
      assert s[0] == 'P' && s[0] in s;
      assert Brace(t)[0] in Brace(t);
    }
  }
}
