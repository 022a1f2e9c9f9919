// The text a save returns: the seed itself, a splice of an installer seed, or a full dump.

module EditorRender {
  import opened Text
  import opened Values
  import opened EditorForm
  import opened EditorLens
  import opened EditorInstaller
  import opened EditorSplice
  import opened EditorDocument

  // The seed text by its lines, where its keys stand, and the two tests of its layout. placed: list placeholders stand
  // on their own lines; header: the text starts with the cloud-config header.
  datatype Seed = Seed(lines: seq<string>, marks: Marks, placed: bool, header: bool)

  function TextOf(seed: Seed): string {
    Concat(seed.lines)
  }

  // Every section but the installer's.
  function RestOf(parsed: seq<Entry>): seq<Entry> {
    Others(parsed, [Entry(AUTOINSTALL, Null)])
  }

  // The splice, tried only where nothing but the installer section changed.
  ghost function SpliceSeed(w: Writer, seed: Seed, before: seq<Entry>, after: seq<Entry>): Option<string> {
    match (AutoOf(before), AutoOf(after))
    case (Some(was), Some(auto)) =>
      if !seed.header || !SameMeaning(Dict(RestOf(before)), Dict(RestOf(after))) then None
      else Splice(w, seed.lines, seed.marks, was, auto, Dict(after))
    case _ => None
  }

  ghost function RenderSeed(w: Writer, seed: Seed, before: seq<Entry>, after: seq<Entry>, full: string): string {
    if !seed.placed then full
    else if seed.header && SameMeaning(Dict(before), Dict(after)) then TextOf(seed)
    else match SpliceSeed(w, seed, before, after)
      case Some(text) => text
      case None => full
  }

  // Whichever text is returned reads back as the seed the save built, given that a full dump does.
  lemma RenderedReadsBack(w: Writer, seed: Seed, before: seq<Entry>, after: seq<Entry>, full: string)
    requires forall l, r :: w.same(l, r) <==> SameMeaning(l, r)
    requires w.parse(TextOf(seed)) == Some(Dict(before)) && ReadsAs(w, full, Dict(after))
    ensures ReadsAs(w, RenderSeed(w, seed, before, after, full), Dict(after))
  {
    hide SameMeaning, AutoOf, RestOf, SpliceLines, JoinLines;
  }

  // ---- an edited installer section

  lemma {:induction false} GetReplaced(es: seq<Entry>, k: Key, v: Value)
    requires HasKey(es, k)
    ensures Get(Replaced(es, k, v), k) == Some(v)
  {
    if es[0].key == k {
      assert Replaced(es, k, v)[0] == Entry(k, v);
    } else {
      var i :| 0 <= i < |es| && es[i].key == k;
      assert es[1..][i - 1].key == k;
      GetReplaced(es[1..], k, v);
      assert Replaced(es, k, v)[0].key != k;
      assert Replaced(es, k, v)[1..] == Replaced(es[1..], k, v);
    }
  }

  lemma {:induction false} OthersReplaced(es: seq<Entry>, k: Key, v: Value)
    ensures Others(Replaced(es, k, v), [Entry(k, Null)]) == Others(es, [Entry(k, Null)])
  {
    hide HasKey;
    if es != [] {
      var n := |es| - 1;
      OthersReplaced(es[..n], k, v);
      assert Replaced(es, k, v)[..n] == Replaced(es[..n], k, v);
      HasOne(Entry(k, Null), es[n].key);
    }
  }

  // Any edit of an installer section: the seed itself if nothing changed in meaning, else the lines in which only
  // changed keys are rewritten, unless those read back as another seed; then, and only then, the full dump.
  lemma InstallerRendered(w: Writer, seed: Seed, before: seq<Entry>, userData: Value, installer: seq<Entry>,
                          full: string)
    requires seed.placed && seed.header && Tidy(Dict(before)) && AutoOf(before).Some?
    requires Located(seed.lines, seed.marks, AutoOf(before).value)
    requires DistinctKeys(installer) && !HasKey(installer, USER_DATA)
    ensures SpanStart(seed.marks, 0) <= AutoEnd(seed.lines, seed.marks) <= |seed.lines|
    ensures var auto := AutoOf(before).value;
      var after := Put(before, AUTOINSTALL, Dict(Rebuilt(auto, userData, installer)));
      var kept, added := RebuiltOld(auto, userData, installer), RebuiltNew(auto, userData, installer);
      var text := JoinLines(w.newline, FramedLines(w, seed.lines, seed.marks, auto, kept, added));
      RenderSeed(w, seed, before, after, full)
        == if SameMeaning(Dict(before), Dict(after)) then TextOf(seed) else if ReadsAs(w, text, Dict(after)) then text
          else full
  {
    hide SameMeaning, Tidy, Located, Splice, FramedLines, JoinLines, ReadsAs, Get, HasKey, RebuiltOld, RebuiltNew,
      Others, Rebuilt, Replaced;
    var auto := AutoOf(before).value;
    var rebuilt := Rebuilt(auto, userData, installer);
    var after := Put(before, AUTOINSTALL, Dict(rebuilt));
    ConfigTidy(before);
    TidyDistinct(auto);
    TidyDistinct(before);
    assert HasKey(before, AUTOINSTALL) <==> Get(before, AUTOINSTALL).Some?;
    PutReplaces(before, AUTOINSTALL, Dict(rebuilt));
    GetReplaced(before, AUTOINSTALL, Dict(rebuilt));
    OthersReplaced(before, AUTOINSTALL, Dict(rebuilt));
    OthersTidy(before, [Entry(AUTOINSTALL, Null)]);
    SameRefl(Dict(RestOf(before)));
    RebuiltSplice(w, seed.lines, seed.marks, auto, userData, installer, Dict(after));
  }

  // ---- the unedited page

  // Applying the unedited page: the seed text itself, or a rewrite of a seed without its header or with misplaced list
  // placeholders.
  lemma NoOpReturnsSeed(lib: Lib, page: Page, w: Writer, parsed: seq<Entry>, seed: Seed, full: string)
    requires Saveable(lib, page, parsed) && CleanSeed(lib, page.fields, CloudConfig(parsed)) && KeepsUserData(parsed)
    ensures var r := Unedited(lib, page, parsed);
      if RefusedSeed(lib, page.fields, CloudConfig(parsed)) then r.Bad? else
      r.Ok? && RenderSeed(w, seed, parsed, r.out, full) == if seed.placed && seed.header then TextOf(seed) else full
  {
    hide SameMeaning, Saveable, CleanSeed, RefusedSeed, KeepsUserData, Unedited;
    NoOp(lib, page, parsed);
  }
}
