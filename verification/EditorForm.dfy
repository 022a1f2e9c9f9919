// The cloud-init editor: schema-driven view (YAML tree to form state) and emit (form state to YAML tree).
// Form state is JSON, a subset of the YAML trees, so both sides share one value type.

module EditorForm {
  import opened Text
  import opened Tokens
  import opened Values

  // ---- schema

  datatype YamlType = AnyYaml | DictYaml | ListYaml
  datatype MapType = ScalarMap | StringMap | YamlMap
  datatype RowShape = AsList | AsMapping | AsMappingScalar | AsListOrMap

  datatype Kind =
    | KString(octal: bool)
    | KText
    | KBool
    | KInt
    | KEnum(choices: seq<string>)
    | KFlex
    | KStringList
    | KStringOrList(allowFalse: bool)
    | KEnumList
    | KAllOrList
    | KYaml(yamlType: YamlType)
    | KCommands
    | KMap(valueType: MapType)
    | KPackages(managers: seq<string>)
    | KObject(fields: seq<Field>, keepExtra: bool, requireKey: Option<string>, aliases: map<string, string>)
    | KRows(shape: RowShape, itemFields: seq<Field>, keepExtra: bool, aliases: map<string, string>,
            keyField: string, allowScalars: bool, chpasswd: bool)
    | KLines
    | KLayout
    | KTuple(columns: seq<string>)

  datatype Field = Field(key: string, required: bool, kind: Kind)

  // Index of the field that models a key; the last declaration wins.
  function FieldIndex(fields: seq<Field>, k: string): (r: Option<nat>)
    ensures r.Some? ==> r.value < |fields| && fields[r.value].key == k
    ensures r.None? ==> forall i | 0 <= i < |fields| :: fields[i].key != k
  {
    if fields == [] then None
    else if fields[|fields| - 1].key == k then Some(|fields| - 1)
    else FieldIndex(fields[..|fields| - 1], k)
  }

  predicate Models(fields: seq<Field>, k: string) {
    FieldIndex(fields, k).Some?
  }

  // Library functions the editor calls; their laws are stated by Faithful.
  datatype Lib = Lib(
    dump: Value -> string,              // YAML text of a tree, placeholders unshielded
    load: string -> Option<Value>,      // parsed YAML text, placeholders shielded; None on a syntax error
    scalarText: Value -> string,        // flow text of one scalar
    parseScalar: string -> Option<Value>,
    str: Value -> string,
    json: Value -> string,
    whole: string -> Option<int>,       // float.is_integer and its int
    byKey: seq<Entry> -> seq<Value>)    // mapping values in key order

  ghost predicate Faithful(lib: Lib) {
    && (forall v: Value {:trigger lib.dump(v)} | Tidy(v) :: lib.load(lib.dump(v)) == Some(v) && !Blank(lib.dump(v)))
    && (forall v: Value {:trigger lib.scalarText(v)} :: !Blank(lib.scalarText(v)))
  }

  const EXTRA := "__extra__"
  const PXE_BLOCK_KEY := "__pxe_block__"

  // tidied: the view told the operator that saving will normalise the shape.
  datatype Viewed = Unrepresentable | Shown(state: Value, tidied: bool)

  datatype Emitted = Raise | Omit | Val(v: Value)

  datatype Built<+T> = Bad | Ok(out: T)

  // ---- numbers as text

  function OctalDigits(n: nat): string {
    if n < 8 then [Digit(n)] else OctalDigits(n / 8) + [Digit(n % 8)]
  }

  function Digit(d: nat): char
    requires d < 10
  {
    '0' + d as char
  }

  predicate IsDigits(s: string, base: nat) {
    s != "" && forall i | 0 <= i < |s| :: '0' <= s[i] && s[i] as int - '0' as int < base
  }

  function Number(s: string, base: nat): nat
    requires IsDigits(s, base)
  {
    var d := (s[|s| - 1] as int - '0' as int) as nat;
    if |s| == 1 then d else base * Number(s[..|s| - 1], base) + d
  }

  // Full match of 0o[0-7]+ around blanks.
  function OctalText(s: string): Option<nat> {
    var s := Strip(s);
    if StartsWith(s, "0o") && IsDigits(s[2..], 8) then Some(Number(s[2..], 8)) else None
  }

  // Full match of -?\d+.
  function IntText(s: string): Option<int> {
    var digits := if s != "" && s[0] == '-' then s[1..] else s;
    if !IsDigits(digits, 10) then None
    else if digits == s then Some(Number(digits, 10) as int)
    else Some(0 - Number(digits, 10))
  }

  // ---- scalars

  predicate OneLine(s: string) {
    !Blank(s) && '\n' !in s
  }

  function BoolText(b: bool): string {
    if b then "true" else "false"
  }

  function ViewString(octal: bool, v: Value): Viewed {
    if octal && v.Int? && v.n >= 0 then Shown(Str("0o" + OctalDigits(v.n)), false)
    else if octal && v.Octal? then Shown(Str("0o" + OctalDigits(v.o)), false)
    else if v.Str? && OneLine(v.s) then Shown(Str(Unshield(v.s)), false)
    else Unrepresentable
  }

  function EmitString(lib: Lib, octal: bool, v: Value): Emitted {
    var text := if IsNumber(v) then lib.str(v) else if v.Str? then v.s else "";
    if Blank(text) then Omit
    else if octal && OctalText(text).Some? then Val(Octal(OctalText(text).value))
    else Val(Str(Shield(text)))
  }

  function ViewText(v: Value): Viewed {
    if v.Str? && !Blank(v.s) then Shown(Str(Unshield(v.s)), false) else Unrepresentable
  }

  function EmitText(v: Value): Emitted {
    if v.Str? && !Blank(v.s) then Val(Str(Shield(v.s))) else Omit
  }

  function EmitBool(v: Value): Emitted {
    match v
    case Null => Omit
    case Str(s) =>
      var text := Lower(Strip(s));
      if s == "" then Omit
      else if text == "true" || text == "false" then Val(Bool(text == "true"))
      else Raise
    case Bool(b) => Val(v)
    case Int(n) => Val(Bool(n != 0))
    case List(items) => Val(Bool(items != []))
    case Dict(es) => Val(Bool(es != []))
    case _ => Val(Bool(true))
  }

  function ViewInt(key: string, v: Value): Viewed {
    if v.Int? || v.Octal? then Shown(v, false)
    else if key == "uid" && v.Str? && IntText(Strip(v.s)).Some? then Shown(Int(IntText(Strip(v.s)).value), true)
    else Unrepresentable
  }

  function EmitInt(lib: Lib, v: Value): Emitted {
    if IsEmpty(v) then Omit
    else match v
      case Bool(_) => Raise
      case Int(_) => Val(v)
      case Octal(_) => Val(v)
      case Float(d) =>
        if lib.whole(d).Some? then Val(Int(lib.whole(d).value)) else EmitIntText(lib.str(v))
      case _ => EmitIntText(lib.str(v))
  }

  function EmitIntText(text: string): Emitted {
    match IntText(Strip(text))
    case Some(n) => Val(Int(n))
    case None => Raise
  }

  function ViewEnum(choices: seq<string>, v: Value): Viewed {
    match v
    case Bool(b) => if BoolText(b) in choices then Shown(Str(BoolText(b)), false) else Unrepresentable
    case Str(s) =>
      if Blank(s) || !Trimmed(s) || (s in {"true", "false"} && s in choices) then Unrepresentable
      else Shown(Str(Unshield(s)), false)
    case _ => Unrepresentable
  }

  function EmitEnum(choices: seq<string>, v: Value): Emitted {
    match v
    case Bool(_) => Val(v)
    case Str(s) =>
      var text := Strip(s);
      if Blank(s) then Omit
      else if text in {"true", "false"} && text in choices then Val(Bool(text == "true"))
      else Val(Str(Shield(text)))
    case _ => Omit
  }

  function EmitFlex(v: Value): Emitted {
    match v
    case Str(s) =>
      var text := Strip(s);
      if Blank(s) then Omit
      else if text == "true" then Val(Bool(true))
      else if text == "false" then Val(Bool(false))
      else if IntText(text).Some? then Val(Int(IntText(text).value))
      else Val(Str(Shield(text)))
    case _ => if v.Bool? || IsNumber(v) then Val(v) else Omit
  }

  function ViewFlex(v: Value): Viewed {
    match v
    case Bool(b) => Shown(Str(BoolText(b)), false)
    case Str(s) => if EmitFlex(Str(Unshield(s))) == Val(v) then Shown(Str(Unshield(s)), false) else Unrepresentable
    case _ => if IsNumber(v) then Shown(v, false) else Unrepresentable
  }

  // ---- lists of scalars

  predicate ScalarItem(v: Value, numbers: bool) {
    (v.Str? && OneLine(v.s)) || (numbers && IsNumber(v))
  }

  function ShowItem(v: Value): Value {
    if v.Str? then Str(Unshield(v.s)) else v
  }

  function ShowItems(items: seq<Value>): seq<Value> {
    seq(|items|, i requires 0 <= i < |items| => ShowItem(items[i]))
  }

  predicate ScalarItems(items: seq<Value>, numbers: bool) {
    forall i | 0 <= i < |items| :: ScalarItem(items[i], numbers)
  }

  function ViewItems(v: Value, numbers: bool): Viewed {
    if v.List? && v.items != [] && ScalarItems(v.items, numbers) then Shown(List(ShowItems(v.items)), false)
    else Unrepresentable
  }

  // Blank strings and nested values are dropped.
  function EmitItem(v: Value): Emitted {
    match v
    case Str(s) => if Blank(s) then Omit else Val(Str(Shield(s)))
    case Null => Omit
    case List(_) => Omit
    case Dict(_) => Omit
    case _ => Val(v)
  }

  function EmitItems(items: seq<Value>): seq<Value> {
    if items == [] then [] else
    var prev := EmitItems(items[..|items| - 1]);
    match EmitItem(items[|items| - 1])
    case Val(w) => prev + [w]
    case _ => prev
  }

  function OrOmit(items: seq<Value>): Emitted {
    if items == [] then Omit else Val(List(items))
  }

  function BlockTokenOf(v: Value): Option<string> {
    match v
    case Dict(es) =>
      if |es| == 1 && es[0].key == KStr(PXE_BLOCK_KEY) && es[0].value.Str? && es[0].value.s in BLOCK_MARKERS
      then Some(es[0].value.s) else None
    case Str(s) => BlockToken(s)
    case List(items) => if |items| == 1 then BlockTokenOf(items[0]) else None
    case _ => None
  }

  // A scalar that is one shielded block-list placeholder.
  function BlockScalar(v: Value): Option<string> {
    if v.Str? && BlockToken(v.s).Some? && ShieldedToken(Strip(v.s)).Some? then BlockToken(v.s) else None
  }

  function BlockState(t: string): Value {
    Dict([Entry(KStr(PXE_BLOCK_KEY), Str(t))])
  }

  function ViewStringList(v: Value): Viewed {
    if v.Str? then
      if BlockScalar(v).Some? then Shown(BlockState(BlockScalar(v).value), false)
      else if OneLine(v.s) then Shown(List([Str(Unshield(v.s))]), true)
      else Unrepresentable
    else ViewItems(v, true)
  }

  function EmitStringList(v: Value): Emitted {
    if BlockTokenOf(v).Some? then Val(Str(BLOCK + BlockTokenOf(v).value))
    else match v
      case Str(_) => OrOmit(EmitItems([v]))
      case List(items) => OrOmit(EmitItems(items))
      case _ => Omit
  }

  function ViewStringOrList(allowFalse: bool, v: Value): Viewed {
    match v
    case Bool(b) => if !b && allowFalse then Shown(v, false) else Unrepresentable
    case Str(s) => if OneLine(s) then Shown(Str(Unshield(s)), false) else Unrepresentable
    case _ => ViewItems(v, true)
  }

  function EmitStringOrList(allowFalse: bool, v: Value): Emitted {
    match v
    case Bool(b) => if !b && allowFalse then Val(v) else Omit
    case Str(s) => if Blank(s) then Omit else Val(Str(Shield(s)))
    case List(items) => OrOmit(EmitItems(items))
    case _ => Omit
  }

  function EmitChoice(v: Value): Emitted {
    if v.Str? && !Blank(v.s) then Val(Str(Shield(Strip(v.s)))) else Omit
  }

  // Trimmed strings, each once.
  function EmitChoices(items: seq<Value>): seq<Value> {
    if items == [] then [] else
    var prev := EmitChoices(items[..|items| - 1]);
    match EmitChoice(items[|items| - 1])
    case Val(w) => if w in prev then prev else prev + [w]
    case _ => prev
  }

  function EmitEnumList(v: Value): Emitted {
    match v
    case Str(_) => OrOmit(EmitChoices([v]))
    case List(items) => OrOmit(EmitChoices(items))
    case _ => Omit
  }

  const ALL_STATE: Value := Dict([Entry(KStr("all"), Bool(true))])

  function ViewAllOrList(v: Value): Viewed {
    if v == Str("all") then Shown(ALL_STATE, false) else ViewItems(v, false)
  }

  function EmitAllOrList(v: Value): Emitted {
    if (v.Dict? && Get(v.entries, KStr("all")) == Some(Bool(true))) || v == Str("all") then Val(Str("all"))
    else if v.List? then OrOmit(EmitItems(v.items))
    else Omit
  }

  function EmitLines(v: Value): Emitted {
    match v
    case Str(s) =>
      var lines := SplitLines(s);
      OrOmit(EmitItems(seq(|lines|, i requires 0 <= i < |lines| => Str(lines[i]))))
    case List(items) => OrOmit(EmitItems(items))
    case _ => Omit
  }

  // ---- YAML-valued fields

  predicate FitsYaml(t: YamlType, v: Value) {
    (t.DictYaml? ==> v.Dict?) && (t.ListYaml? ==> v.List?)
  }

  function ViewYaml(lib: Lib, t: YamlType, v: Value): Viewed {
    if FitsYaml(t, v) && !IsEmpty(v) then Shown(Str(lib.dump(v)), false) else Unrepresentable
  }

  function EmitYaml(lib: Lib, t: YamlType, v: Value): Emitted {
    if IsEmpty(v) then Omit else
    match (if v.Str? then lib.load(v.s) else Some(ShieldValue(v)))
    case None => Raise
    case Some(parsed) =>
      if parsed.Null? then Omit
      else if FitsYaml(t, parsed) then Val(Blockify(parsed))
      else Raise
  }

  // ---- command lists

  function ViewCommand(v: Value): Viewed {
    if v.Str? && !Blank(v.s) then Shown(Str(Unshield(v.s)), false) else ViewItems(v, true)
  }

  // None entries are skipped.
  function ViewCommandItems(items: seq<Value>): Option<seq<Value>> {
    if items == [] then Some([]) else
    var prev, last := ViewCommandItems(items[..|items| - 1]), items[|items| - 1];
    if prev.None? || last.Null? then prev
    else match ViewCommand(last)
      case Shown(argv, _) => Some(prev.value + [argv])
      case Unrepresentable => None
  }

  function ViewCommands(lib: Lib, v: Value): Viewed {
    var map_ := v.Dict? && v.entries != [];
    var items := if map_ then lib.byKey(v.entries) else if v.List? then v.items else [];
    match ViewCommandItems(items)
    case None => Unrepresentable
    case Some(out) => if out == [] then Unrepresentable else Shown(List(out), map_)
  }

  function EmitCommand(v: Value): Emitted {
    match v
    case Str(s) => EmitText(v)
    case List(argv) => OrOmit(EmitItems(argv))
    case _ => Omit
  }

  function EmitCommandItems(items: seq<Value>): seq<Value> {
    if items == [] then [] else
    var prev := EmitCommandItems(items[..|items| - 1]);
    match EmitCommand(items[|items| - 1])
    case Val(w) => prev + [w]
    case _ => prev
  }

  function EmitCommands(v: Value): Emitted {
    match v
    case Str(s) =>
      var lines := SplitLines(s);
      OrOmit(EmitCommandItems(seq(|lines|, i requires 0 <= i < |lines| => Str(lines[i]))))
    case List(items) => OrOmit(EmitCommandItems(items))
    case _ => Omit
  }

  // ---- free mappings

  function MapText(lib: Lib, t: MapType, v: Value): Option<string> {
    match t
    case StringMap => if v.Str? && OneLine(v.s) then Some(Unshield(v.s)) else None
    case YamlMap => if v.Null? then None else Some(lib.dump(v))
    case ScalarMap =>
      if v.List? || v.Dict? || v.Other? || (v.Str? && '\n' in v.s) then None
      else if lib.parseScalar(lib.scalarText(v)) == Some(v) then Some(lib.scalarText(v))
      else None
  }

  function MapRow(k: string, text: string): Value {
    Dict([Entry(KStr("key"), Str(k)), Entry(KStr("value"), Str(text))])
  }

  function ViewMapRows(lib: Lib, t: MapType, es: seq<Entry>): Option<seq<Value>> {
    if es == [] then Some([]) else
    var prev, last := ViewMapRows(lib, t, es[..|es| - 1]), es[|es| - 1];
    if prev.None? || !last.key.KStr? || Blank(last.key.s) || !Trimmed(last.key.s) then None
    else match MapText(lib, t, last.value)
      case None => None
      case Some(text) => Some(prev.value + [MapRow(last.key.s, text)])
  }

  function ViewMap(lib: Lib, t: MapType, v: Value): Viewed {
    if !v.Dict? || v.entries == [] then Unrepresentable
    else match ViewMapRows(lib, t, v.entries)
      case None => Unrepresentable
      case Some(rows) => Shown(List(rows), false)
  }

  function MapValue(lib: Lib, t: MapType, text: string): Option<Value> {
    match t
    case StringMap => Some(Str(Shield(text)))
    case YamlMap => (match lib.load(text) case None => None case Some(v) => Some(Blockify(v)))
    case ScalarMap => lib.parseScalar(text)
  }

  predicate Falsy(lib: Lib, v: Value) {
    match v
    case Str(s) => s == ""
    case Float(d) => lib.whole(d) == Some(0)
    case _ => IsEmpty(v) || v == Bool(false) || v == Int(0)
  }

  function AsText(lib: Lib, v: Value): string {
    if v.Str? then v.s else lib.str(v)
  }

  // str(row.get(k) or "")
  function TextOf(lib: Lib, row: seq<Entry>, k: string): string {
    match Get(row, KStr(k))
    case None => ""
    case Some(v) => if Falsy(lib, v) then "" else AsText(lib, v)
  }

  function NameOf(lib: Lib, row: seq<Entry>, k: string): string {
    Strip(TextOf(lib, row, k))
  }

  function MapKeyOf(lib: Lib, row: seq<Entry>): string {
    match Get(row, KStr("key"))
    case None => ""
    case Some(v) => if v.Null? then "" else Strip(AsText(lib, v))
  }

  // Key and value text of one posted row.
  function MapCells(lib: Lib, row: seq<Entry>): (string, string) {
    (MapKeyOf(lib, row),
     match Get(row, KStr("value"))
     case None => ""
     case Some(raw) => if raw.Str? then raw.s else if raw.Null? then "" else lib.json(raw))
  }

  function EmitMapRows(lib: Lib, t: MapType, rows: seq<Value>): Built<seq<Entry>> {
    if rows == [] then Ok([]) else
    var prev, last := EmitMapRows(lib, t, rows[..|rows| - 1]), rows[|rows| - 1];
    if prev.Bad? || !last.Dict? then prev
    else
      var (k, text) := MapCells(lib, last.entries);
      if k == "" || Blank(text) then prev
      else if HasKey(prev.out, KStr(k)) then Bad
      else match MapValue(lib, t, text)
        case None => Bad
        case Some(v) => Ok(prev.out + [Entry(KStr(k), v)])
  }

  function EmitMap(lib: Lib, t: MapType, v: Value): Emitted {
    if v.Dict? || v.List? then
      var rows := if v.List? then v.items else
        seq(|v.entries|, i requires 0 <= i < |v.entries| =>
          Dict([Entry(KStr("key"), Str(KeyText(v.entries[i].key))),
                Entry(KStr("value"), v.entries[i].value)]));
      OrOmitDict(EmitMapRows(lib, t, rows))
    else Omit
  }

  function KeyText(k: Key): string {
    match k
    case KStr(s) => s
    case KOther(text) => text
  }

  function OrOmitDict(b: Built<seq<Entry>>): Emitted {
    match b
    case Bad => Raise
    case Ok(es) => if es == [] then Omit else Val(Dict(es))
  }

  // ---- disk layouts

  // A partition line as text; the parts of a list are joined with commas.
  function LayoutLine(lib: Lib, v: Value): Option<string> {
    match v
    case List(parts) => Some(Join(", ", seq(|parts|, i requires 0 <= i < |parts| => AsText(lib, parts[i]))))
    case _ => if v.Str? || v.Int? || v.Octal? then Some(AsText(lib, v)) else None
  }

  function LayoutLines(lib: Lib, items: seq<Value>): Option<seq<Value>> {
    if items == [] then Some([]) else
    var prev, last := LayoutLines(lib, items[..|items| - 1]), LayoutLine(lib, items[|items| - 1]);
    if prev.None? || last.None? then None else Some(prev.value + [Str(last.value)])
  }

  function LayoutState(mode: string, lines: seq<Value>): Value {
    Dict([Entry(KStr("mode"), Str(mode))] + if lines == [] then [] else [Entry(KStr("lines"), List(lines))])
  }

  // Lines that would be read back differently are not shown.
  function ViewLayout(lib: Lib, v: Value): Viewed {
    match v
    case Bool(b) => Shown(LayoutState(BoolText(b), []), false)
    case Str(s) => if s == "remove" then Shown(LayoutState("remove", []), false) else Unrepresentable
    case List(items) =>
      if items == [] || LayoutLines(lib, items).None? then Unrepresentable
      else
        var state := LayoutState("custom", LayoutLines(lib, items).value);
        if EmitLayout(lib, state) == Val(v) then Shown(state, false) else Unrepresentable
    case _ => Unrepresentable
  }

  function SplitCommas(s: string): seq<string> {
    if s == "" then [""] else
    var rest := SplitCommas(s[1..]);
    if s[0] == ',' then [""] + rest
    else if rest == [] then [[s[0]]]
    else [[s[0]] + rest[0]] + rest[1..]
  }

  function LayoutPart(text: string): Value {
    if IsDigits(text, 10) then Int(Number(text, 10)) else Str(text)
  }

  function LayoutValue(text: string): Value {
    if ',' in text then
      var pieces := SplitCommas(text);
      List(seq(|pieces|, i requires 0 <= i < |pieces| => LayoutPart(Strip(pieces[i]))))
    else LayoutPart(text)
  }

  function LayoutValues(lib: Lib, lines: seq<Value>): seq<Value> {
    if lines == [] then [] else
    var prev, text := LayoutValues(lib, lines[..|lines| - 1]), Strip(AsText(lib, lines[|lines| - 1]));
    if text == "" then prev else prev + [LayoutValue(text)]
  }

  // The posted lines; a scalar that is no text cannot be iterated.
  function PostedLines(lib: Lib, v: Option<Value>): Option<seq<Value>> {
    match v
    case None => Some([])
    case Some(lines) =>
      if Falsy(lib, lines) then Some([])
      else match lines
        case Str(s) => var rows := SplitLines(s); Some(seq(|rows|, i requires 0 <= i < |rows| => Str(rows[i])))
        case List(items) => Some(items)
        case Dict(es) => Some(seq(|es|, i requires 0 <= i < |es| => Str(KeyText(es[i].key))))
        case _ => None
  }

  function EmitLayout(lib: Lib, v: Value): Emitted {
    if !v.Dict? then Omit else
    var mode := TextOf(lib, v.entries, "mode");
    if mode == "true" || mode == "false" then Val(Bool(mode == "true"))
    else if mode == "remove" then Val(Str("remove"))
    else if mode != "custom" then Omit
    else match PostedLines(lib, Get(v.entries, KStr("lines")))
      case None => Raise
      case Some(lines) => OrOmit(LayoutValues(lib, lines))
  }

  // ---- rows of positional cells

  function TupleCell(v: Value): Option<Value> {
    if v.Null? || IsNumber(v) then Some(v)
    else if v.Str? && '\n' !in v.s then Some(Str(Unshield(v.s)))
    else None
  }

  // The first n cells under their column names.
  function TupleCells(columns: seq<string>, cells: seq<Value>, n: nat): Option<seq<Entry>>
    requires n <= |cells| && n <= |columns|
  {
    if n == 0 then Some([]) else
    var prev, cell := TupleCells(columns, cells, n - 1), TupleCell(cells[n - 1]);
    if prev.None? || cell.None? then None else Some(Put(prev.value, KStr(columns[n - 1]), cell.value))
  }

  function TupleRows(columns: seq<string>, items: seq<Value>): Option<seq<Value>> {
    if items == [] then Some([]) else
    var prev, last := TupleRows(columns, items[..|items| - 1]), items[|items| - 1];
    if prev.None? || !last.List? || last.items == [] || |last.items| > |columns| then None
    else match TupleCells(columns, last.items, |last.items|)
      case None => None
      case Some(row) => Some(prev.value + [Dict(row)])
  }

  // Rows that would be read back differently are not shown.
  function ViewTuple(columns: seq<string>, v: Value): Viewed {
    if !v.List? || v.items == [] || TupleRows(columns, v.items).None? then Unrepresentable
    else
      var rows := TupleRows(columns, v.items).value;
      if List(EmitTupleRows(columns, rows)) == ShieldValue(v) then Shown(List(rows), false) else Unrepresentable
  }

  function PostedCell(row: seq<Entry>, column: string): Value {
    match Get(row, KStr(column))
    case None => Str(Shield(""))
    case Some(v) => if v.Str? then Str(Shield(v.s)) else v
  }

  // Trailing blank cells are dropped.
  function DropBlanks(cells: seq<Value>): seq<Value> {
    if cells != [] && cells[|cells| - 1].Str? && Blank(cells[|cells| - 1].s) then DropBlanks(cells[..|cells| - 1])
      else cells
  }

  function ZipRow(columns: seq<string>, cells: seq<Value>): seq<Entry> {
    if columns == [] || cells == [] then []
    else if |cells| > |columns| then ZipRow(columns, cells[..|columns|])
    else Put(ZipRow(columns, cells[..|cells| - 1]), KStr(columns[|cells| - 1]), cells[|cells| - 1])
  }

  function EmitTupleRows(columns: seq<string>, rows: seq<Value>): seq<Value> {
    if rows == [] then [] else
    var prev, last := EmitTupleRows(columns, rows[..|rows| - 1]), rows[|rows| - 1];
    if !last.List? && !last.Dict? then prev
    else
      var row := if last.List? then ZipRow(columns, last.items) else last.entries;
      var cells := DropBlanks(seq(|columns|, i requires 0 <= i < |columns| => PostedCell(row, columns[i])));
      if cells == [] then prev else prev + [List(cells)]
  }

  function EmitTuple(lib: Lib, columns: seq<string>, v: Value): Emitted {
    match CoerceRows(lib, v)
    case Bad => Raise
    case Ok(rows) => OrOmit(EmitTupleRows(columns, rows))
  }

  // ---- package lists

  function PackageRow(name: string, version: string, manager: string): Value {
    Dict([Entry(KStr("name"), Str(name)), Entry(KStr("version"), Str(version)), Entry(KStr("manager"), Str(manager))])
  }

  predicate PackageText(v: Value) {
    v.Str? && !Blank(v.s) && Trimmed(v.s)
  }

  function ViewPackage(v: Value, manager: string): Option<Value> {
    if PackageText(v) && '\n' !in v.s then Some(PackageRow(Unshield(v.s), "", manager))
    else if v.List? && |v.items| == 2 && PackageText(v.items[0]) && PackageText(v.items[1])
    then Some(PackageRow(Unshield(v.items[0].s), Unshield(v.items[1].s), manager))
    else None
  }

  function ViewPackageRun(items: seq<Value>, manager: string): Option<seq<Value>> {
    if items == [] then Some([]) else
    match (ViewPackageRun(items[..|items| - 1], manager), ViewPackage(items[|items| - 1], manager))
    case (Some(rows), Some(row)) => Some(rows + [row])
    case _ => None
  }

  function ViewPackageGroups(managers: seq<string>, es: seq<Entry>): Option<seq<Value>> {
    if es == [] then Some([]) else
    var prev, last := ViewPackageGroups(managers, es[..|es| - 1]), es[|es| - 1];
    if prev.None? || !last.key.KStr? || last.key.s !in managers || !last.value.List? || last.value.items == [] then None
    else match ViewPackageRun(last.value.items, last.key.s)
      case Some(rows) => Some(prev.value + rows)
      case None => None
  }

  function ViewPackageItems(managers: seq<string>, items: seq<Value>): Option<seq<Value>> {
    if items == [] then Some([]) else
    var prev, last := ViewPackageItems(managers, items[..|items| - 1]), items[|items| - 1];
    var rows := if last.Dict?
      then if last.entries == [] then None else ViewPackageGroups(managers, last.entries)
      else ViewPackageRun([last], "");
    match (prev, rows)
    case (Some(a), Some(b)) => Some(a + b)
    case _ => None
  }

  function ViewPackages(lib: Lib, managers: seq<string>, v: Value): Viewed {
    if BlockScalar(v).Some? then Shown(BlockState(BlockScalar(v).value), false)
    else if !v.List? || v.items == [] then Unrepresentable
    else match ViewPackageItems(managers, v.items)
      case None => Unrepresentable
      case Some(rows) => Shown(List(rows), EmitPackages(lib, managers, List(rows)) != Val(ShieldValue(v)))
  }

  // One posted row: name, version and manager, or None when it has no name.
  function PackageOf(lib: Lib, row: Value): Option<(string, string, string)> {
    var es := match row case Str(s) => [Entry(KStr("name"), row)] case Dict(es) => es case _ => [];
    var name := NameOf(lib, es, "name");
    if name == "" then None else Some((name, NameOf(lib, es, "version"), NameOf(lib, es, "manager")))
  }

  function PackageItem(name: string, version: string): Value {
    if version == "" then Str(Shield(name)) else List([Str(Shield(name)), Str(Shield(version))])
  }

  function ManagerGroup(manager: string, items: seq<Value>): Value {
    Dict([Entry(KStr(manager), List(items))])
  }

  // Rows so far, and whether the last entry is the open group of a manager.
  datatype PackagesOut = PackagesOut(out: seq<Value>, group: Option<string>, members: seq<Value>)

  function PackagesSoFar(p: PackagesOut): seq<Value> {
    match p.group
    case None => p.out
    case Some(m) => p.out + [ManagerGroup(m, p.members)]
  }

  function AddPackage(p: PackagesOut, item: Value, manager: string): PackagesOut {
    if manager == "" then PackagesOut(PackagesSoFar(p) + [item], None, [])
    else if p.group == Some(manager) then PackagesOut(p.out, p.group, p.members + [item])
    else PackagesOut(PackagesSoFar(p), Some(manager), [item])
  }

  function EmitPackageRows(lib: Lib, managers: seq<string>, rows: seq<Value>): Built<PackagesOut> {
    if rows == [] then Ok(PackagesOut([], None, [])) else
    var prev := EmitPackageRows(lib, managers, rows[..|rows| - 1]);
    if prev.Bad? then Bad
    else match PackageOf(lib, rows[|rows| - 1])
      case None => prev
      case Some((name, version, manager)) =>
        if manager != "" && manager !in managers then Bad
        else Ok(AddPackage(prev.out, PackageItem(name, version), manager))
  }

  function EmitPackages(lib: Lib, managers: seq<string>, v: Value): Emitted {
    if BlockTokenOf(v).Some? then Val(Str(BLOCK + BlockTokenOf(v).value))
    else if !v.List? then Omit
    else match EmitPackageRows(lib, managers, v.items)
      case Bad => Raise
      case Ok(p) => OrOmit(PackagesSoFar(p))
  }

  // ---- mappings against sub-fields

  datatype Renamed = Renamed(entries: seq<Entry>, tidied: bool)

  // Deprecated keys move to their canonical name unless that is set too.
  function RenameAliases(es: seq<Entry>, aliases: map<string, string>, n: nat): Renamed
    requires n <= |es|
  {
    if n == 0 then Renamed([], false) else
    var prev, last := RenameAliases(es, aliases, n - 1), es[n - 1];
    if last.key.KStr? && last.key.s in aliases && !HasKey(es, KStr(aliases[last.key.s]))
    then Renamed(Put(prev.entries, KStr(aliases[last.key.s]), last.value), true)
    else Renamed(prev.entries + [last], prev.tidied)
  }

  datatype FieldsView = FieldsView(shown: seq<Entry>, extra: seq<Entry>, tidied: bool)

  // The sub-field that shows this entry, if the form models its key.
  function FieldOf(fields: seq<Field>, e: Entry, skip: Option<string>): (r: Option<nat>)
    ensures r.Some? ==> r.value < |fields| && e.key == KStr(fields[r.value].key) && skip != Some(fields[r.value].key)
  {
    if e.key.KStr? && skip != Some(e.key.s) then FieldIndex(fields, e.key.s) else None
  }

  // Entries no sub-field can show are set aside.
  function ViewFields(lib: Lib, fields: seq<Field>, es: seq<Entry>, skip: Option<string>): FieldsView
    decreases fields, 0, |es|
  {
    if es == [] then FieldsView([], [], false) else
    var prev, last := ViewFields(lib, fields, es[..|es| - 1], skip), es[|es| - 1];
    var aside := FieldsView(prev.shown, prev.extra + [last], prev.tidied);
    match FieldOf(fields, last, skip)
    case None => aside
    case Some(i) =>
      match View(lib, fields[i], last.value, false)
      case Unrepresentable => aside
      case Shown(state, t) => FieldsView(prev.shown + [Entry(last.key, state)], prev.extra, prev.tidied || t)
  }

  function ViewMapping(lib: Lib, fields: seq<Field>, keepExtra: bool, aliases: map<string, string>,
                       es: seq<Entry>, skip: Option<string>): Viewed
    decreases fields, 1, 0
  {
    var renamed := RenameAliases(es, aliases, |es|);
    var fv := ViewFields(lib, fields, renamed.entries, skip);
    if fv.extra == [] then Shown(Dict(fv.shown), renamed.tidied || fv.tidied)
    else if keepExtra
    then Shown(Dict(fv.shown + [Entry(KStr(EXTRA), Str(lib.dump(Dict(fv.extra))))]), renamed.tidied || fv.tidied)
    else Unrepresentable
  }

  function ViewObject(lib: Lib, f: Field, v: Value, top: bool): Viewed
    requires f.kind.KObject?
    decreases f, 0, 0
  {
    var plain := top && f.key == "user" && v.Str? && !Blank(v.s);
    var es := if plain then [Entry(KStr("name"), v)] else if v.Dict? then v.entries else [];
    if es == [] then Unrepresentable
    else match ViewMapping(lib, f.kind.fields, f.kind.keepExtra, f.kind.aliases, es, None)
      case Unrepresentable => Unrepresentable
      case Shown(state, t) =>
        if state.Dict? && state.entries != []
           && (f.kind.requireKey.Some? ==> HasKey(state.entries, KStr(f.kind.requireKey.value)))
        then Shown(state, t || plain) else Unrepresentable
  }

  // ---- row lists

  function ViewRow(lib: Lib, f: Field, es: seq<Entry>, skip: Option<string>): Viewed
    requires f.kind.KRows?
    decreases f, 0, 0
  {
    match ViewMapping(lib, f.kind.itemFields, f.kind.keepExtra, f.kind.aliases, es, skip)
    case Unrepresentable => Unrepresentable
    case Shown(state, t) =>
      if state.Dict? && forall i | 0 <= i < |f.kind.itemFields| && f.kind.itemFields[i].required
                                   && skip != Some(f.kind.itemFields[i].key)
           :: HasKey(state.entries, KStr(f.kind.itemFields[i].key))
      then Shown(state, t) else Unrepresentable
  }

  function ViewListRow(lib: Lib, f: Field, v: Value): Viewed
    requires f.kind.KRows?
    decreases f, 0, 1
  {
    if v.Dict? && v.entries != [] then ViewRow(lib, f, v.entries, None)
    else if f.kind.allowScalars && v.Str? && OneLine(v.s) then Shown(Str(Unshield(v.s)), false)
    else Unrepresentable
  }

  function ViewListRows(lib: Lib, f: Field, items: seq<Value>): Viewed
    requires f.kind.KRows?
    decreases f, 1, |items|
  {
    if items == [] then Shown(List([]), false) else
    AddRow(ViewListRows(lib, f, items[..|items| - 1]), ViewListRow(lib, f, items[|items| - 1]))
  }

  function AddRow(rows: Viewed, row: Viewed): Viewed {
    if rows.Shown? && rows.state.List? && row.Shown?
    then Shown(List(rows.state.items + [row.state]), rows.tidied || row.tidied) else Unrepresentable
  }

  // One entry of a mapping shown as a row that carries its name.
  function ViewNamedRow(lib: Lib, f: Field, e: Entry): Viewed
    requires f.kind.KRows?
    decreases f, 0, 1
  {
    if !e.key.KStr? || Blank(e.key.s) then Unrepresentable else
    var name := Entry(KStr(f.kind.keyField), Str(e.key.s));
    match f.kind.shape
    case AsMapping =>
      if !e.value.Dict? || HasKey(e.value.entries, KStr(f.kind.keyField)) then Unrepresentable
      else (match ViewRow(lib, f, e.value.entries, Some(f.kind.keyField))
        case Shown(Dict(es), t) => Shown(Dict([name] + es), t)
        case _ => Unrepresentable)
    case AsMappingScalar =>
      if e.value.Str? then Shown(Dict([name, Entry(KStr("value"), Str(Unshield(e.value.s)))]), false)
        else Unrepresentable
    case _ =>
      if e.value.Str? && e.value.s != "" then Shown(Dict([name, Entry(KStr("value"), Str(Unshield(e.value.s)))]), false)
      else Unrepresentable
  }

  function ViewNamedRows(lib: Lib, f: Field, es: seq<Entry>): Viewed
    requires f.kind.KRows?
    decreases f, 1, |es|
  {
    if es == [] then Shown(List([]), false) else
    AddRow(ViewNamedRows(lib, f, es[..|es| - 1]), ViewNamedRow(lib, f, es[|es| - 1]))
  }

  function ViewValueRow(v: Value): Viewed {
    if v.Str? && !Blank(v.s) then Shown(Dict([Entry(KStr("value"), Str(Unshield(v.s)))]), false) else Unrepresentable
  }

  function ViewValueRows(items: seq<Value>): Viewed {
    if items == [] then Shown(List([]), false) else
    AddRow(ViewValueRows(items[..|items| - 1]), ViewValueRow(items[|items| - 1]))
  }

  // `users` accepts a name or a mapping of users at the top level.
  function UsersAsList(es: seq<Entry>): Option<seq<Value>> {
    if es == [] then Some([]) else
    var prev, last := UsersAsList(es[..|es| - 1]), es[|es| - 1];
    var name := if last.key.KStr? then Str(last.key.s) else Other(last.key.text);
    if prev.None? then None
    else if last.value.Dict? && !HasKey(last.value.entries, KStr("name"))
    then Some(prev.value + [Dict([Entry(KStr("name"), name)] + last.value.entries)])
    else if last.value == Bool(true) then Some(prev.value + [name])
    else None
  }

  function ViewRows(lib: Lib, f: Field, v: Value, top: bool): Viewed
    requires f.kind.KRows?
    decreases f, 2, 0
  {
    match f.kind.shape
    case AsList =>
      var users := top && f.key == "users" && ((v.Str? && !Blank(v.s)) || (v.Dict? && v.entries != []));
      var items := if users
        then if v.Str? then Some([v]) else UsersAsList(v.entries)
        else if v.List? then Some(v.items) else None;
      if items.None? || items.value == [] then Unrepresentable
      else (match ViewListRows(lib, f, items.value)
        case Unrepresentable => Unrepresentable
        case Shown(state, t) => Shown(state, t || users))
    case AsListOrMap =>
      if v.List? && v.items != [] then ViewValueRows(v.items)
      else if v.Dict? && v.entries != [] then ViewNamedRows(lib, f, v.entries)
      else Unrepresentable
    case _ => if v.Dict? && v.entries != [] then ViewNamedRows(lib, f, v.entries) else Unrepresentable
  }

  function View(lib: Lib, f: Field, v: Value, top: bool): Viewed
    decreases f, 3, 0
  {
    if v.Null? then Unrepresentable
    else match f.kind
      case KString(octal) => ViewString(octal, v)
      case KText => ViewText(v)
      case KBool => if v.Bool? then Shown(v, false) else Unrepresentable
      case KInt => ViewInt(f.key, v)
      case KEnum(choices) => ViewEnum(choices, v)
      case KFlex => ViewFlex(v)
      case KStringList => ViewStringList(v)
      case KStringOrList(allowFalse) => ViewStringOrList(allowFalse, v)
      case KEnumList => ViewItems(v, false)
      case KAllOrList => ViewAllOrList(v)
      case KYaml(t) => ViewYaml(lib, t, v)
      case KCommands => ViewCommands(lib, v)
      case KMap(t) => ViewMap(lib, t, v)
      case KPackages(managers) => ViewPackages(lib, managers, v)
      case KObject(_, _, _, _) => ViewObject(lib, f, v, top)
      case KRows(_, _, _, _, _, _, _) => ViewRows(lib, f, v, top)
      case KLines => ViewItems(v, true)
      case KLayout => ViewLayout(lib, v)
      case KTuple(columns) => ViewTuple(columns, v)
  }

  // ---- emit of mappings and rows

  // What the posted cells save as, cell by cell; cells the schema does not know are passed over.
  function EmitFields(lib: Lib, fields: seq<Field>, st: seq<Entry>, skip: Option<string>): Built<seq<Entry>>
    decreases fields, 0, |st|
  {
    if st == [] then Ok([]) else
    var prev, last := EmitFields(lib, fields, st[..|st| - 1], skip), st[|st| - 1];
    if prev.Bad? then Bad
    else match FieldOf(fields, last, skip)
      case None => prev
      case Some(i) =>
        match Emit(lib, fields[i], last.value)
        case Raise => Bad
        case Omit => prev
        case Val(w) => Ok(prev.out + [Entry(last.key, w)])
  }

  // A key set both in the form and in the other keys is an error.
  function MergeEntries(target: seq<Entry>, extra: seq<Entry>): Built<seq<Entry>> {
    if extra == [] then Ok(target) else
    var prev, last := MergeEntries(target, extra[..|extra| - 1]), extra[|extra| - 1];
    if prev.Bad? || HasKey(prev.out, last.key) then Bad
    else Ok(prev.out + [Entry(last.key, Blockify(last.value))])
  }

  function MergeExtra(lib: Lib, target: seq<Entry>, text: Option<Value>): Built<seq<Entry>> {
    if text.None? || !text.value.Str? || Blank(text.value.s) then Ok(target)
    else match lib.load(text.value.s)
      case None => Bad
      case Some(extra) =>
        if extra.Null? then Ok(target) else if extra.Dict? then MergeEntries(target, extra.entries) else Bad
  }

  // Form fields, then the other keys.
  function EmitMapping(lib: Lib, fields: seq<Field>, keepExtra: bool, st: seq<Entry>,
                       skip: Option<string>): Built<seq<Entry>>
    decreases fields, 1, 0
  {
    var inner := EmitFields(lib, fields, st, skip);
    if inner.Ok? && keepExtra then MergeExtra(lib, inner.out, Get(st, KStr(EXTRA))) else inner
  }

  function EmitObject(lib: Lib, f: Field, v: Value): Emitted
    requires f.kind.KObject?
    decreases f, 0, 0
  {
    if !v.Dict? then Omit else
    var merged := EmitMapping(lib, f.kind.fields, f.kind.keepExtra, v.entries, None);
    if merged.Ok? && f.kind.requireKey.Some? && EmptyAt(merged.out, f.kind.requireKey.value) then Omit
    else OrOmitDict(merged)
  }

  predicate EmptyAt(es: seq<Entry>, k: string) {
    Get(es, KStr(k)).None? || IsEmpty(Get(es, KStr(k)).value)
  }

  // Posted keys the row schema does not know.
  function AddUnknown(fields: seq<Field>, row: seq<Entry>, emitted: seq<Entry>): seq<Entry> {
    if row == [] then emitted else
    var prev, last := AddUnknown(fields, row[..|row| - 1], emitted), row[|row| - 1];
    if (last.key.KStr? && (Models(fields, last.key.s) || StartsWith(last.key.s, "__")))
       || HasKey(prev, last.key) || IsEmpty(last.value)
    then prev else prev + [Entry(last.key, ShieldValue(last.value))]
  }

  function EmitRow(lib: Lib, f: Field, row: seq<Entry>, skip: Option<string>): Built<seq<Entry>>
    requires f.kind.KRows?
    decreases f, 0, 0
  {
    var emitted := EmitFields(lib, f.kind.itemFields, row, skip);
    if emitted.Ok? && f.kind.keepExtra
    then MergeExtra(lib, AddUnknown(f.kind.itemFields, row, emitted.out), Get(row, KStr(EXTRA)))
    else emitted
  }

  datatype RowCheck = RowError | RowSkip | RowGo

  predicate RowLacksRequired(f: Field, row: seq<Entry>)
    requires f.kind.KRows?
  {
    exists i | 0 <= i < |f.kind.itemFields| :: f.kind.itemFields[i].required && EmptyAt(row, f.kind.itemFields[i].key)
  }

  function CheckRow(lib: Lib, f: Field, row: seq<Entry>): RowCheck
    requires f.kind.KRows?
  {
    if f.kind.chpasswd then
      var kind := TextOf(lib, row, "type");
      if EmptyAt(row, "name") || (kind != "RANDOM" && EmptyAt(row, "password")) then RowError else RowGo
    else if (f.kind.shape.AsList? || f.kind.shape.AsMapping?) && RowLacksRequired(f, row) then RowSkip
    else RowGo
  }

  function CoerceRows(lib: Lib, v: Value): Built<seq<Value>> {
    match v
    case Null => Ok([])
    case List(items) => Ok(items)
    case Str(s) =>
      if Blank(s) then Ok([])
      else (match lib.load(s)
        case Some(List(items)) => Ok(items)
        case Some(Null) => Ok([])
        case _ => Bad)
    case _ => Bad
  }

  function EmitListRow(lib: Lib, f: Field, row: Value): Emitted
    requires f.kind.KRows?
    decreases f, 0, 1
  {
    if !row.Dict? then
      if f.kind.allowScalars && row.Str? && !Blank(row.s) then Val(Str(Shield(row.s))) else Omit
    else match CheckRow(lib, f, row.entries)
      case RowError => Raise
      case RowSkip => Omit
      case RowGo => OrOmitDict(EmitRow(lib, f, row.entries, None))
  }

  function EmitListRows(lib: Lib, f: Field, rows: seq<Value>): Built<seq<Value>>
    requires f.kind.KRows?
    decreases f, 1, |rows|
  {
    if rows == [] then Ok([]) else
    AddEmitted(EmitListRows(lib, f, rows[..|rows| - 1]), EmitListRow(lib, f, rows[|rows| - 1]))
  }

  function AddEmitted(prev: Built<seq<Value>>, r: Emitted): Built<seq<Value>> {
    if prev.Bad? || r.Raise? then Bad else if r.Val? then Ok(prev.out + [r.v]) else prev
  }

  // A row saved under its name: an error, nothing, a name without a value, or a pair.
  datatype RowOut = RowBad | RowNone | RowBlank(name: string) | RowPair(name: string, value: Value)

  function EmitNamedRow(lib: Lib, f: Field, row: Value): RowOut
    requires f.kind.KRows?
    decreases f, 0, 1
  {
    if !row.Dict? then RowNone
    else match CheckRow(lib, f, row.entries)
      case RowError => RowBad
      case RowSkip => RowNone
      case RowGo =>
        var name := NameOf(lib, row.entries, f.kind.keyField);
        if name == "" then RowNone
        else if f.kind.shape.AsMappingScalar? then
          if EmptyAt(row.entries, "value") then RowBlank(name)
          else RowPair(name, ShieldValue(Get(row.entries, KStr("value")).value))
        else match EmitRow(lib, f, row.entries, Some(f.kind.keyField))
          case Bad => RowBad
          case Ok(es) => RowPair(name, Dict(es))
  }

  function EmitMappedRows(lib: Lib, f: Field, rows: seq<Value>): Built<seq<Entry>>
    requires f.kind.KRows?
    decreases f, 1, |rows|
  {
    if rows == [] then Ok([]) else
    var prev := EmitMappedRows(lib, f, rows[..|rows| - 1]);
    if prev.Bad? then Bad
    else match EmitNamedRow(lib, f, rows[|rows| - 1])
      case RowBad => Bad
      case RowNone => prev
      case RowBlank(name) => if HasKey(prev.out, KStr(name)) then Bad else prev
      case RowPair(name, w) => AddPair(prev.out, name, w)
  }

  // A repeated name is an error.
  function AddPair(es: seq<Entry>, name: string, w: Value): Built<seq<Entry>> {
    if HasKey(es, KStr(name)) then Bad else Ok(es + [Entry(KStr(name), w)])
  }

  // A row that carries text, with or without a name.
  function EmitTextRow(lib: Lib, f: Field, row: Value): (r: RowOut)
    requires f.kind.KRows?
    ensures !r.RowBlank?
  {
    if !row.Dict? then RowNone
    else match CheckRow(lib, f, row.entries)
      case RowError => RowBad
      case RowSkip => RowNone
      case RowGo =>
        match Get(row.entries, KStr("value"))
        case Some(Str(s)) =>
          if Blank(s) then RowNone else RowPair(NameOf(lib, row.entries, f.kind.keyField), Str(Shield(s)))
        case _ => RowNone
  }

  function NamedTexts(lib: Lib, f: Field, rows: seq<Value>): Built<seq<(string, Value)>>
    requires f.kind.KRows?
  {
    if rows == [] then Ok([]) else
    var prev := NamedTexts(lib, f, rows[..|rows| - 1]);
    if prev.Bad? then Bad
    else match EmitTextRow(lib, f, rows[|rows| - 1])
      case RowBad => Bad
      case RowPair(name, w) => Ok(prev.out + [(name, w)])
      case _ => prev
  }

  function PairsAsDict(pairs: seq<(string, Value)>): Built<seq<Entry>> {
    if pairs == [] then Ok([]) else
    var prev, last := PairsAsDict(pairs[..|pairs| - 1]), pairs[|pairs| - 1];
    if prev.Bad? then Bad else AddPair(prev.out, last.0, last.1)
  }

  predicate AllNamed(pairs: seq<(string, Value)>) {
    forall i | 0 <= i < |pairs| :: pairs[i].0 != ""
  }

  predicate NoneNamed(pairs: seq<(string, Value)>) {
    forall i | 0 <= i < |pairs| :: pairs[i].0 == ""
  }

  // A mapping when every entry has a name, a list when none has.
  function EmitNamed(pairs: seq<(string, Value)>): Emitted {
    if pairs == [] then Omit
    else if AllNamed(pairs) then OrOmitDict(PairsAsDict(pairs))
    else if NoneNamed(pairs) then Val(List(seq(|pairs|, i requires 0 <= i < |pairs| => pairs[i].1)))
    else Raise
  }

  function EmitRows(lib: Lib, f: Field, v: Value): Emitted
    requires f.kind.KRows?
    decreases f, 2, 0
  {
    match CoerceRows(lib, v)
    case Bad => Raise
    case Ok(rows) =>
      match f.kind.shape
      case AsList => (match EmitListRows(lib, f, rows) case Bad => Raise case Ok(out) => OrOmit(out))
      case AsListOrMap => (match NamedTexts(lib, f, rows) case Bad => Raise case Ok(pairs) => EmitNamed(pairs))
      case _ => OrOmitDict(EmitMappedRows(lib, f, rows))
  }

  function Emit(lib: Lib, f: Field, v: Value): Emitted
    decreases f, 3, 0
  {
    match f.kind
    case KString(octal) => EmitString(lib, octal, v)
    case KText => EmitText(v)
    case KBool => EmitBool(v)
    case KInt => EmitInt(lib, v)
    case KEnum(choices) => EmitEnum(choices, v)
    case KFlex => EmitFlex(v)
    case KStringList => EmitStringList(v)
    case KStringOrList(allowFalse) => EmitStringOrList(allowFalse, v)
    case KEnumList => EmitEnumList(v)
    case KAllOrList => EmitAllOrList(v)
    case KYaml(t) => EmitYaml(lib, t, v)
    case KCommands => EmitCommands(v)
    case KMap(t) => EmitMap(lib, t, v)
    case KPackages(managers) => EmitPackages(lib, managers, v)
    case KObject(_, _, _, _) => EmitObject(lib, f, v)
    case KRows(_, _, _, _, _, _, _) => EmitRows(lib, f, v)
    case KLines => EmitLines(v)
    case KLayout => EmitLayout(lib, v)
    case KTuple(columns) => EmitTuple(lib, columns, v)
  }
}
