// Values the editor changes or refuses without a notice: concrete seed values for each family the main law excludes.

module EditorFindings {
  import opened Text
  import opened Tokens
  import opened Values
  import opened EditorForm
  import opened EditorScalars
  import opened EditorLens
  import opened EditorRefusals

  lemma SpelledToken(t: string)
    requires IsToken(t)
    ensures !Blank(Shielded(t)) && OneLine(Shielded(t)) && Unshield(Shielded(t)) == Brace(t)
  {
    ShieldedTokenOf(t);
    var s := Shielded(t);
    assert s[0] in s && s[0] == '_';
    assert '\n' !in PXE && '\n' !in t && '\n' !in "__";
  }

  // A text the parser and the form both leave alone.
  predicate Ordinary(s: string) {
    OneLine(s) && Trimmed(s) && Unshield(s) == s && Shield(s) == s
  }

  // A mapping of names to texts.
  const TEXTS := Field("files", false, KRows(AsMappingScalar, [], false, map[], "name", false, false))

  function BlankRow(name: string): Value {
    Dict([Entry(KStr("name"), Str(name)), Entry(KStr("value"), Str(""))])
  }

  lemma BlankRowShown(lib: Lib, name: string)
    requires !Blank(name)
    ensures ViewNamedRows(lib, TEXTS, [Entry(KStr(name), Str(""))]) == Shown(List([BlankRow(name)]), false)
  {
    hide Unshield, Blank;
    var e := Entry(KStr(name), Str(""));
    EmptyText();
    assert ViewNamedRow(lib, TEXTS, e) == Shown(BlankRow(name), false);
    assert [e][..0] == [] && [e][0] == e && [] + [BlankRow(name)] == [BlankRow(name)];
    assert ViewNamedRows(lib, TEXTS, []) == Shown(List([]), false);
  }

  lemma BlankRowSkipped(lib: Lib, name: string)
    ensures EmitMappedRows(lib, TEXTS, [BlankRow(name)]) == Ok([])
  {
    hide Strip;
    var row := BlankRow(name);
    assert [row][..0] == [] && [row][0] == row;
    assert KStr("name") != KStr("value") by { assert |"name"| == 4 && |"value"| == 5; }
    assert row.entries[1..] == [Entry(KStr("value"), Str(""))];
    assert Get(row.entries, KStr("value")) == Get(row.entries[1..], KStr("value")) == Some(Str(""));
    assert EmptyAt(row.entries, "value");
    var o := EmitNamedRow(lib, TEXTS, row);
    assert o.RowNone? || o.RowBlank?;
    assert EmitMappedRows(lib, TEXTS, []) == Ok([]);
  }

  // `name: ""` in a mapping of texts is shown and then dropped, so the saved mapping is gone.
  lemma BlankPayloadIsDropped(lib: Lib, name: string)
    requires !Blank(name)
    ensures var v := Dict([Entry(KStr(name), Str(""))]);
      && View(lib, TEXTS, v, false) == Shown(List([BlankRow(name)]), false)
      && Emit(lib, TEXTS, View(lib, TEXTS, v, false).state) == Omit
  {
    hide ViewNamedRows, EmitMappedRows, Blank;
    BlankRowShown(lib, name);
    BlankRowSkipped(lib, name);
  }

  lemma EmptyText()
    ensures Unshield("") == "" && Blank("")
  {
    UnshieldEnds("");
  }

  // A list of one list placeholder comes back as the bare placeholder.
  lemma LonePlaceholderUnlisted(t: string)
    requires t in BLOCK_MARKERS && IsToken(t)
    ensures var v := List([Str(Shielded(t))]);
      && ViewStringList(v) == Shown(List([Str(Brace(t))]), false)
      && EmitStringList(ViewStringList(v).state) == Val(Str(BLOCK + t))
      && !SameMeaning(v, Str(BLOCK + t))
  {
    hide Unshield, OneLine, BraceToken, ShieldedToken, Strip;
    SpelledToken(t);
    var items := [Str(Shielded(t))];
    assert ShowItems(items) == [Str(Brace(t))];
    assert ScalarItems(items, true);
    BraceTokenOf(t);
    StripTrims(Brace(t));
    NoShieldInBrace(t);
    assert BlockToken(Brace(t)) == Some(t);
    assert BlockTokenOf(List([Str(Brace(t))])) == Some(t);
  }

  lemma NoShieldInBrace(t: string)
    ensures ShieldedToken(Brace(t)).None?
  {
    assert Brace(t)[0] == '{';
  }

  // A repeated choice is saved once.
  lemma RepeatedChoiceMerged(choice: string)
    requires Ordinary(choice)
    ensures var v := List([Str(choice), Str(choice)]);
      && ViewItems(v, false).Shown? && !ViewItems(v, false).tidied
      && EmitEnumList(ViewItems(v, false).state) == Val(List([Str(choice)]))
      && !SameMeaning(v, List([Str(choice)]))
  {
    hide Unshield, Shield;
    var x := Str(choice);
    var items := [x, x];
    StripTrims(choice);
    assert ShowItems(items) == items;
    assert items[..1] == [x] && [x][..0] == [] && [] + [x] == [x];
    assert EmitChoice(x) == Val(x);
    assert EmitChoices([x]) == [x];
    assert EmitChoices(items) == [x];
    ListMeaning(items, [x]);
  }

  lemma CommandBack(command: string)
    requires Ordinary(command)
    ensures ViewCommand(Str(command)) == Shown(Str(command), false) && EmitCommand(Str(command)) == Val(Str(command))
  {
    hide Unshield, Shield, Trimmed, Blank;
  }

  // A null and one command, through the list view and the list emit.
  lemma NullAndCommand(x: Value)
    requires !x.Null? && ViewCommand(x) == Shown(x, false) && EmitCommand(x) == Val(x)
    ensures ViewCommandItems([Null, x]) == Some([x]) && EmitCommandItems([x]) == [x]
  {
    hide ViewCommand, EmitCommand;
    var items := [Null, x];
    assert items[..1] == [Null] && [Value.Null][..0] == [] && [x][..0] == [] && [] + [x] == [x];
    assert ViewCommandItems([]) == Some([]) && ViewCommandItems([Value.Null]) == Some([]) && EmitCommandItems([]) == [];
  }

  // A null among the commands is skipped.
  lemma NullCommandDropped(lib: Lib, command: string)
    requires Ordinary(command)
    ensures var v := List([Null, Str(command)]);
      && ViewCommands(lib, v).Shown? && !ViewCommands(lib, v).tidied
      && EmitCommands(ViewCommands(lib, v).state) == Val(List([Str(command)]))
      && !SameMeaning(v, List([Str(command)]))
  {
    hide SameMeaning, ViewCommand, EmitCommand, ViewCommandItems, EmitCommandItems, Ordinary;
    CommandBack(command);
    NullAndCommand(Str(command));
    SameLength([Null, Str(command)], [Str(command)]);
  }

  // A text that reads as an octal number is saved as the number.
  lemma OctalTextRetyped(lib: Lib, s: string)
    requires Ordinary(s) && OctalText(s).Some?
    ensures ViewString(true, Str(s)) == Shown(Str(s), false)
    ensures EmitString(lib, true, Str(s)) == Val(Octal(OctalText(s).value))
      && !SameMeaning(Str(s), Octal(OctalText(s).value))
  {
    hide Unshield, Shield, OctalText;
  }

  // ---- padded texts

  lemma StripPadded(s: string)
    ensures Strip(" " + s) == Strip(s) && !Trimmed(" " + s)
  {
    assert (" " + s)[1..] == s;
  }

  lemma {:induction false} RunOfToken(s: string, rest: string)
    requires (forall c | c in s :: IsTokenChar(c)) && (rest != "" ==> !IsTokenChar(rest[0]))
    ensures RunLength(s + rest) == |s|
  {
    if s == "" {
      assert s + rest == rest;
    } else {
      assert s[0] in s && (s + rest)[1..] == s[1..] + rest && forall c | c in s[1..] :: c in s;
      RunOfToken(s[1..], rest);
    }
  }

  // How the parser reads a placeholder with a blank before it, quoted together.
  function PaddedPlaceholder(t: string): string {
    " \"" + Shielded(t) + "\""
  }

  lemma QuotedShown(t: string)
    requires IsToken(t)
    ensures Embedded("\"" + Shielded(t) + "\"") == Brace(t)
  {
    var q := "\"" + Shielded(t) + "\"";
    var run := t + "__";
    assert q[..|QUOTED_PXE|] == QUOTED_PXE && q[|QUOTED_PXE|..] == run + "\"";
    RunOfToken(run, "\"");
    assert q[|QUOTED_PXE| + |run| - 2..|QUOTED_PXE| + |run|] == "__";
    assert QuotedLength(q) == |q| && q[|QUOTED_PXE|..|q| - 3] == t && q[|q|..] == "";
    assert Embedded("") == "";
  }

  lemma PaddedIs(t: string)
    requires IsToken(t)
    ensures PaddedToken(PaddedPlaceholder(t)) && OneLine(PaddedPlaceholder(t))
  {
    hide Brace, Shielded, Strip, Trimmed, BraceToken, QuotedLength;
    var s, q := PaddedPlaceholder(t), "\"" + Shielded(t) + "\"";
    assert s == [' '] + q && s[0] == ' ' && s[1] == '"' && s[1] in s;
    NoQuoteHere(' ', q);
    QuotedShown(t);
    assert Unshield(s) == " " + Brace(t);
    StripPadded(Brace(t));
    BraceTokenOf(t);
    StripTrims(Brace(t));
    assert '\n' !in Shielded(t) by { SpelledToken(t); }
  }

  // A lone placeholder with a blank inside its quotes loses the blank.
  lemma PaddedPlaceholderTrimmed(t: string)
    requires IsToken(t)
    ensures var s := PaddedPlaceholder(t);
      && ViewText(Str(s)).Shown? && EmitText(ViewText(Str(s)).state).Val?
      && !SameMeaning(Str(s), EmitText(ViewText(Str(s)).state).v)
  {
    hide SameMeaning, PaddedToken, PaddedPlaceholder, Unshield, Shield;
    var s := PaddedPlaceholder(t);
    PaddedIs(t);
    StrKept(s);
  }

  // Lower-case letters only.
  predicate Word(s: string) {
    s != "" && forall i | 0 <= i < |s| :: 'a' <= s[i] <= 'z'
  }

  lemma WordParts(s: string)
    requires Word(s)
    ensures OneLine(s) && OneLine(" " + s) && Trimmed(s) && '"' !in s && '"' !in " " + s
    ensures ShieldedToken(s).None? && ShieldedToken(" " + s).None? && BraceToken(s).None?
  {
    var p := " " + s;
    assert s[0] in s && p[1] in p;
    assert PXE[0] == '_' && "{{"[0] == '{';
  }

  // A word and a word after a blank mean themselves.
  lemma WordShown(s: string)
    requires Word(s)
    ensures Ordinary(s) && OneLine(" " + s) && Unshield(" " + s) == " " + s && Strip(" " + s) == s && !Trimmed(" " + s)
  {
    hide Word, OneLine, Trimmed, Strip, Embedded, ShieldedToken, BraceToken;
    WordParts(s);
    NoQuote(s);
    NoQuote(" " + s);
    StripTrims(s);
    StripPadded(s);
  }

  // A choice with a blank before it is saved without.
  lemma PaddedChoiceTrimmed(choice: string)
    requires Word(choice)
    ensures var v := List([Str(" " + choice)]);
      && ViewItems(v, false) == Shown(v, false)
      && EmitEnumList(v) == Val(List([Str(choice)]))
      && !SameMeaning(v, List([Str(choice)]))
  {
    hide Unshield, Shield, Strip, SameMeaning, Blank, Word, EmitChoices, Trimmed, Choice, ShowItem, ScalarItem;
    var x, w := Str(" " + choice), Str(choice);
    PaddedChoice(choice);
    OneChoice(x, w);
    assert ShowItems([x]) == [x];
    OneMeaning(x, w);
  }

  lemma OneMeaning(x: Value, w: Value)
    ensures SameMeaning(List([x]), List([w])) <==> SameMeaning(x, w)
  {
    hide SameMeaning;
    ListMeaning([x], [w]);
    assert [x][0] == x && [w][0] == w;
  }

  lemma PaddedChoice(choice: string)
    requires Word(choice)
    ensures EmitChoice(Str(" " + choice)) == Val(Str(choice)) && !SameMeaning(Str(" " + choice), Str(choice))
    ensures ShowItem(Str(" " + choice)) == Str(" " + choice) && ScalarItem(Str(" " + choice), false)
  {
    hide Unshield, Shield, Strip, SameMeaning, Blank, Word;
    WordShown(choice);
    UnshieldBlank(" " + choice);
    ChoiceKept(" " + choice);
    assert Choice(Str(" " + choice)) == Str(choice);
  }

  lemma OneChoice(x: Value, w: Value)
    requires EmitChoice(x) == Val(w)
    ensures EmitChoices([x]) == [w]
  {
    hide EmitChoice;
    assert [x][..0] == [] && EmitChoices([]) == [] && [] + [w] == [w];
  }

  // A name with a blank before it is saved without.
  lemma PaddedNameTrimmed(lib: Lib, name: string, text: string)
    requires Word(name) && Word(text)
    ensures var v := Dict([Entry(KStr(" " + name), Str(text))]);
      && View(lib, TEXTS, v, false) == Shown(List([TextRow(" " + name, text)]), false)
      && Emit(lib, TEXTS, View(lib, TEXTS, v, false).state) == Val(Dict([Entry(KStr(name), Str(text))]))
      && !SameMeaning(v, Dict([Entry(KStr(name), Str(text))]))
  {
    hide Unshield, Shield, Strip, SameMeaning, Blank, Word, ViewNamedRow, EmitNamedRow, ViewNamedRows, EmitMappedRows,
      Trimmed;
    var e, w := Entry(KStr(" " + name), Str(text)), Entry(KStr(name), Str(text));
    WordShown(name);
    NamedRowBack(lib, name, text);
    OneNamedRow(lib, e, TextRow(" " + name, text), name, Str(text));
    assert Trimmed(name) by { StripTrims(name); StripPadded(name); }
    PaddedNameLost([e], [w], 0);
  }

  lemma OneNamedRow(lib: Lib, e: Entry, row: Value, name: string, w: Value)
    requires ViewNamedRow(lib, TEXTS, e) == Shown(row, false) && EmitNamedRow(lib, TEXTS, row) == RowPair(name, w)
    ensures ViewNamedRows(lib, TEXTS, [e]) == Shown(List([row]), false)
      && EmitMappedRows(lib, TEXTS, [row]) == Ok([Entry(KStr(name), w)])
  {
    hide ViewNamedRow, EmitNamedRow;
    var pair := Entry(KStr(name), w);
    assert [e][..0] == [] && [row][..0] == [] && [] + [row] == [row] && [] + [pair] == [pair];
    assert ViewNamedRows(lib, TEXTS, []) == Shown(List([]), false) && EmitMappedRows(lib, TEXTS, []) == Ok([]);
  }

  function TextRow(name: string, text: string): Value {
    Dict([Entry(KStr("name"), Str(name)), Entry(KStr("value"), Str(text))])
  }

  lemma NamedRowBack(lib: Lib, name: string, text: string)
    requires Word(name) && Word(text)
    ensures ViewNamedRow(lib, TEXTS, Entry(KStr(" " + name), Str(text))) == Shown(TextRow(" " + name, text), false)
    ensures EmitNamedRow(lib, TEXTS, TextRow(" " + name, text)) == RowPair(name, Str(text))
  {
    hide Unshield, Shield, Strip, Word, NameOf;
    WordShown(name);
    WordShown(text);
    var es := TextRow(" " + name, text).entries;
    TextRowCells(lib, "name", " " + name, text);
    assert NameOf(lib, es, "name") == name && Get(es, KStr("value")) == Some(Str(text));
    StripBlank(text);
    StripTrims(text);
    assert name != "" && text != "" by { StripBlank(name); StripTrims(name); }
  }

  // ---- refused rows

  // The user rows of chpasswd.
  const PASSWORDS := Field("users", false, KRows(AsList, [Field("name", false, KString(false)),
    Field("type", false, KEnum(["", "hash", "text", "RANDOM"])),
    Field("password", false, KString(false))], true, map[], "name", false, true))

  function UserRow(name: string, kind: string): seq<Entry> {
    [Entry(KStr("name"), Str(name)), Entry(KStr("type"), Str(kind))]
  }

  lemma UserCells(lib: Lib, name: string)
    requires Word(name)
    ensures var fields := PASSWORDS.kind.itemFields;
      && FieldIndex(fields, "name") == Some(0) && FieldIndex(fields, "type") == Some(1)
      && View(lib, fields[0], Str(name), false) == Shown(Str(name), false)
      && View(lib, fields[1], Str("text"), false) == Shown(Str("text"), false)
      && Clean(lib, fields[0], Str(name)) && Clean(lib, fields[1], Str("text"))
  {
    hide Unshield, Shield, Strip, Trimmed, Blank;
    var fields := PASSWORDS.kind.itemFields;
    WordShown(name);
    assert "text" == ['t', 'e', 'x', 't'];
    assert Word("text") by { assert forall i | 0 <= i < 4 :: 'a' <= "text"[i] <= 'z'; }
    WordShown("text");
    CleanWord(name);
    assert fields[..2][..1] == fields[..1];
  }

  lemma UserRowShown(lib: Lib, name: string)
    requires Word(name)
    ensures var es := UserRow(name, "text");
      ViewListRow(lib, PASSWORDS, Dict(es)) == Shown(Dict(es), false) && CleanListRow(lib, PASSWORDS, Dict(es))
  {
    hide View, Clean, FieldIndex, Word;
    var es, fields := UserRow(name, "text"), PASSWORDS.kind.itemFields;
    UserCells(lib, name);
    assert es[..1] == [es[0]] && [es[0]][..0] == [] && es[..1][0] == es[0] && [] + [es[0]] == [es[0]]
      && [es[0]] + [es[1]] == es;
    assert ViewFields(lib, fields, [], None) == FieldsView([], [], false);
    assert ViewFields(lib, fields, es[..1], None) == FieldsView([es[0]], [], false);
    assert ViewFields(lib, fields, es, None) == FieldsView(es, [], false);
    assert RenameAliases(es, map[], 0) == Renamed([], false) && RenameAliases(es, map[], 1) == Renamed([es[0]], false);
    assert RenameAliases(es, map[], 2) == Renamed(es, false);
  }

  lemma CleanWord(s: string)
    requires Word(s)
    ensures CleanText(s)
  {
    hide Unshield, Strip, Word;
    WordShown(s);
  }

  // A user with a typed password that is not there is shown, and every save of the page raises.
  lemma PasswordlessUserRefused(lib: Lib, name: string)
    requires Word(name)
    ensures var v := List([Dict(UserRow(name, "text"))]);
      && View(lib, PASSWORDS, v, false) == Shown(v, false)
      && Clean(lib, PASSWORDS, v) && Refused(lib, PASSWORDS, v)
      && Emit(lib, PASSWORDS, v) == Raise
  {
    hide ViewListRow, CleanListRow, Word, CheckRow, ViewListRows, EmitListRows, RefusedListRow, EmitListRow;
    var row := Dict(UserRow(name, "text"));
    UserRowShown(lib, name);
    assert EmitListRow(lib, PASSWORDS, row) == Raise && RefusedListRow(lib, PASSWORDS, row) by {
      RowRefused(lib, name);
    }
    OneListRow(lib, row);
    assert RefusedListRow(lib, PASSWORDS, [row][0]);
  }

  lemma RowRefused(lib: Lib, name: string)
    requires Word(name)
    ensures var row := Dict(UserRow(name, "text"));
      EmitListRow(lib, PASSWORDS, row) == Raise && RefusedListRow(lib, PASSWORDS, row)
  {
    hide ViewListRow, CheckRow, Word;
    UserRowShown(lib, name);
    PasswordMissing(lib, name);
  }

  lemma OneListRow(lib: Lib, row: Value)
    requires ViewListRow(lib, PASSWORDS, row) == Shown(row, false)
    ensures ViewListRows(lib, PASSWORDS, [row]) == Shown(List([row]), false)
    ensures EmitListRow(lib, PASSWORDS, row) == Raise ==> EmitListRows(lib, PASSWORDS, [row]) == Bad
  {
    hide ViewListRow, EmitListRow;
    assert [row][..0] == [] && [] + [row] == [row];
    assert ViewListRows(lib, PASSWORDS, []) == Shown(List([]), false);
  }

  lemma PasswordMissing(lib: Lib, name: string)
    ensures CheckRow(lib, PASSWORDS, UserRow(name, "text")) == RowError
  {
    var es := UserRow(name, "text");
    assert Get(es, KStr("type")) == Some(Str("text")) && "text" != "RANDOM" && TextOf(lib, es, "type") == "text";
    assert EmptyAt(es, "password");
  }
}
