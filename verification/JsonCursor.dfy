/** The recursive-descent parser over a cursor, proved to compute what the reader's spelling means. */
module JsonCursor {
  import opened Wrappers
  import opened Octets
  import opened JsonLexical
  import opened StrictJson

  // ---- what a spelling means ----

  function Meaning(f: Form): Json
    decreases f
  {
    match f
    case FNull => Null
    case FTrue => Bool(true)
    case FFalse => Bool(false)
    case FNumber(n) => Num(n)
    case FString(ps) => Str(PiecesValue(ps))
    case FArray(_, items) => Arr(MeaningItems(items))
    case FObject(_, entries) => Obj(MeaningEntries(entries))
  }

  function MeaningItems(items: seq<Padded>): seq<Json>
    decreases items
  {
    if items == [] then [] else MeaningItems(items[..|items| - 1]) + [Meaning(items[|items| - 1].form)]
  }

  /** The own members; assigning to __proto__ makes none. */
  function MeaningEntries(entries: seq<Entry>): seq<Member>
    decreases entries
  {
    if entries == [] then []
    else
      var last := entries[|entries| - 1];
      MeaningEntries(entries[..|entries| - 1]) + OwnMember(PiecesValue(last.name), Meaning(last.value.form))
  }

  function OwnMember(name: Text, value: Json): seq<Member> { if name == PROTO then [] else [Member(name, value)] }

  function Names(members: seq<Member>): set<Text> { set i | 0 <= i < |members| :: members[i].name }

  lemma NamesGrow(members: seq<Member>, name: Text, value: Json)
    ensures Names(members + OwnMember(name, value)) == Names(members) + Taken(name)
  {
    var grown := members + OwnMember(name, value);
    forall n | n in Names(members) + Taken(name) ensures n in Names(grown) {
      if n in Names(members) {
        var i :| 0 <= i < |members| && members[i].name == n;
        assert grown[i].name == n;
      } else {
        assert grown[|members|].name == n;
      }
    }
  }

  lemma MeaningItemsGrow(done: seq<Padded>, item: Padded)
    ensures MeaningItems(done + [item]) == MeaningItems(done) + [Meaning(item.form)]
  {
    assert (done + [item])[..|done|] == done;
  }

  lemma MeaningEntriesGrow(done: seq<Entry>, entry: Entry)
    ensures MeaningEntries(done + [entry]) == MeaningEntries(done) + OwnMember(PiecesValue(entry.name), Meaning(entry.value.form))
  {
    assert (done + [entry])[..|done|] == done;
  }

  // ---- the whole text ----

  /** The text's value, when one padded value is all there is. */
  function StrictParse(text: Text): Result<Json, Error> {
    var r := ReadPadded(text, true);
    if r.Err? then Err(r.error)
    else if r.value.rest != [] then Err(TrailingContent)
    else Ok(Meaning(r.value.value.form))
  }

  lemma SkipTwice(s: Text)
    ensures AfterRun(IsSpace, AfterRun(IsSpace, s)) == AfterRun(IsSpace, s)
  {
    RunSplits(IsSpace, s);
  }

  lemma SkipOne(s: Text)
    requires s != [] && IsSpace(s[0])
    ensures AfterRun(IsSpace, s[1..]) == AfterRun(IsSpace, s)
  {
  }

  lemma NoSpace(s: Text)
    requires s == [] || !IsSpace(s[0])
    ensures AfterRun(IsSpace, s) == s
  {
  }

  /** The items behind a read item. */
  lemma ItemsGo(s: Text, item: Read<Padded>)
    requires ReadPadded(s, true) == Ok(item)
    ensures StartsWith(item.rest, COMMA) ==> ReadItems(s, true) == Prepend([item.value], ReadItems(item.rest[1..], true))
    ensures !StartsWith(item.rest, COMMA) && StartsWith(item.rest, RBRACKET) ==> ReadItems(s, true) == Ok(Read([item.value], item.rest[1..]))
    ensures !StartsWith(item.rest, COMMA) && !StartsWith(item.rest, RBRACKET) ==> ReadItems(s, true) == Err(Expected(RBRACKET))
  {
  }

  lemma EntriesGo(s: Text, seen: set<Text>, entry: Read<Entry>)
    requires ReadEntry(s, true, seen) == Ok(entry)
    ensures StartsWith(entry.rest, COMMA) ==>
              ReadEntries(s, true, seen) == Prepend([entry.value], ReadEntries(entry.rest[1..], true, seen + Taken(PiecesValue(entry.value.name))))
    ensures !StartsWith(entry.rest, COMMA) && StartsWith(entry.rest, RBRACE) ==> ReadEntries(s, true, seen) == Ok(Read([entry.value], entry.rest[1..]))
    ensures !StartsWith(entry.rest, COMMA) && !StartsWith(entry.rest, RBRACE) ==> ReadEntries(s, true, seen) == Err(Expected(RBRACE))
  {
  }

  /** One more item read in the loop over an array. */
  lemma ItemsTurn(from: Text, s: Text, done: seq<Padded>, item: Read<Padded>)
    requires ReadItems(from, true) == Prepend(done, ReadItems(s, true)) && ReadPadded(s, true) == Ok(item)
    ensures StartsWith(item.rest, COMMA) ==> ReadItems(from, true) == Prepend(done + [item.value], ReadItems(item.rest[1..], true))
    ensures StartsWith(item.rest, RBRACKET) ==> ReadItems(from, true) == Ok(Read(done + [item.value], item.rest[1..]))
    ensures !StartsWith(item.rest, COMMA) && !StartsWith(item.rest, RBRACKET) ==> ReadItems(from, true) == Err(Expected(RBRACKET))
  {
    ItemsGo(s, item);
    if StartsWith(item.rest, COMMA) { PrependTwice(done, item.value, ReadItems(item.rest[1..], true)); }
  }

  /** One more member read in the loop over an object. */
  lemma EntriesTurn(from: Text, s: Text, done: seq<Entry>, seen: set<Text>, entry: Read<Entry>)
    requires ReadEntries(from, true, {}) == Prepend(done, ReadEntries(s, true, seen)) && ReadEntry(s, true, seen) == Ok(entry)
    ensures StartsWith(entry.rest, COMMA) ==>
              var tail := ReadEntries(entry.rest[1..], true, seen + Taken(PiecesValue(entry.value.name)));
              ReadEntries(from, true, {}) == Prepend(done + [entry.value], tail)
    ensures StartsWith(entry.rest, RBRACE) ==> ReadEntries(from, true, {}) == Ok(Read(done + [entry.value], entry.rest[1..]))
    ensures !StartsWith(entry.rest, COMMA) && !StartsWith(entry.rest, RBRACE) ==> ReadEntries(from, true, {}) == Err(Expected(RBRACE))
  {
    EntriesGo(s, seen, entry);
    if StartsWith(entry.rest, COMMA) {
      PrependTwice(done, entry.value, ReadEntries(entry.rest[1..], true, seen + Taken(PiecesValue(entry.value.name))));
    }
  }

  /** One more unit in the loop over a string, or its end. */
  lemma PiecesTurn(from: Text, s: Text, done: seq<Piece>)
    requires ReadPieces(from) == Prepend(done, ReadPieces(s))
    ensures s == [] ==> ReadPieces(from) == Err(UnterminatedString)
    ensures StartsWith(s, QUOTE) ==> ReadPieces(from) == Ok(Read(done, s[1..]))
    ensures s != [] && s[0] != QUOTE && ReadPiece(s).Err? ==> ReadPieces(from) == Err(ReadPiece(s).error)
    ensures s != [] && s[0] != QUOTE && ReadPiece(s).Ok? ==>
              ReadPieces(from) == Prepend(done + [ReadPiece(s).value.value], ReadPieces(ReadPiece(s).value.rest))
  {
    assert done + [] == done;
    if s != [] && s[0] != QUOTE && ReadPiece(s).Ok? {
      PrependTwice(done, ReadPiece(s).value.value, ReadPieces(ReadPiece(s).value.rest));
    }
  }

  /** The invariant of that loop, one unit further. */
  lemma PieceTurn(from: Text, s: Text, done: seq<Piece>)
    requires ReadPieces(from) == Prepend(done, ReadPieces(s)) && s != [] && s[0] != QUOTE && ReadPiece(s).Ok?
    ensures var piece := ReadPiece(s).value;
            && ReadPieces(from) == Prepend(done + [piece.value], ReadPieces(piece.rest))
            && PiecesValue(done + [piece.value]) == PiecesValue(done) + [PieceValue(piece.value)]
  {
    hide ReadPieces, ReadPiece;
    PiecesTurn(from, s, done);
  }

  lemma DropTwice(s: Text, i: nat, j: nat)
    requires i + j <= |s|
    ensures s[i..][j..] == s[i + j..]
  {
  }

  class Cursor {
    const text: Text
    var pos: nat

    constructor (text: Text)
      ensures this.text == text && pos == 0
    {
      this.text := text;
      pos := 0;
    }

    /** What is still to be read; nothing once the cursor has run past the end. */
    function Ahead(): Text
      reads this
    {
      if pos <= |text| then text[pos..] else []
    }

    method SkipWhitespace()
      requires pos <= |text|
      modifies this`pos
      ensures Ahead() == AfterRun(IsSpace, old(Ahead())) && pos <= |text| && pos >= old(pos)
    {
      hide AfterRun, Run;
      while pos < |text| && IsSpace(text[pos])
        invariant old(pos) <= pos <= |text| && AfterRun(IsSpace, text[pos..]) == AfterRun(IsSpace, old(Ahead()))
        decreases |text| - pos
      {
        SkipOne(text[pos..]);
        assert text[pos..][1..] == text[pos + 1..];
        pos := pos + 1;
      }
      NoSpace(text[pos..]);
    }

    method Expect(u: Unit) returns (ok: bool)
      requires pos <= |text|
      modifies this`pos
      ensures ok == StartsWith(old(Ahead()), u)
      ensures if ok then pos == old(pos) + 1 <= |text| && Ahead() == old(Ahead())[1..] else pos == old(pos)
    {
      ok := pos < |text| && text[pos] == u;
      if ok { pos := pos + 1; }
    }

    method ParseLiteral(literal: Text, form: Form) returns (r: Result<Json, Error>)
      requires pos <= |text| && literal != []
      modifies this`pos
      ensures match ReadLiteral(old(Ahead()), literal, form)
              case Ok(read) => r == Ok(Meaning(read.value)) && Ahead() == read.rest && pos <= |text|
              case Err(e) => r == Err(e)
    {
      if pos + |literal| <= |text| && text[pos..pos + |literal|] == literal {
        pos := pos + |literal|;
        r := Ok(Meaning(form));
      } else {
        r := Err(InvalidLiteral);
      }
    }

    /** One unit of a string: an escape or the unit itself. */
    method ParsePiece() returns (r: Result<Unit, Error>)
      requires pos < |text|
      modifies this`pos
      ensures match ReadPiece(old(Ahead()))
              case Ok(read) => r == Ok(PieceValue(read.value)) && Ahead() == read.rest && pos <= |text|
              case Err(e) => r == Err(e)
    {
      ghost var s := text[pos..];
      var ch := text[pos];
      pos := pos + 1;
      if ch != BACKSLASH {
        return if ch < 32 then Err(ControlCharacter) else Ok(ch);
      }
      if pos >= |text| {
        pos := pos + 1;
        return Err(InvalidEscape);
      }
      var esc := text[pos];
      pos := pos + 1;
      if IsEscape(esc) { return Ok(Unescape(esc)); }
      if esc != 117 { return Err(InvalidEscape); }
      var hex := text[pos..if pos + 4 <= |text| then pos + 4 else |text|];
      assert |s| >= 6 ==> hex == s[2..6];
      if !IsHex4(hex) { return Err(InvalidUnicodeEscape); }
      pos := pos + 4;
      r := Ok(HexValue(hex));
    }

    method ParseString() returns (r: Result<Text, Error>)
      requires pos <= |text|
      modifies this`pos
      ensures match ReadString(old(Ahead()))
              case Ok(read) => r == Ok(PiecesValue(read.value)) && Ahead() == read.rest && pos <= |text|
              case Err(e) => r == Err(e)
    {
      hide ReadPieces, ReadPiece, PieceValue, PiecesValue;
      var open := Expect(QUOTE);
      if !open { return Err(Expected(QUOTE)); }
      var result: Text := [];
      ghost var done: seq<Piece> := [];
      ghost var from := Ahead();
      PrependNothing(ReadPieces(from));
      while true
        invariant pos <= |text|
        invariant ReadPieces(from) == Prepend(done, ReadPieces(Ahead())) && result == PiecesValue(done)
        decreases |text| - pos
      {
        ghost var s := Ahead();
        PiecesTurn(from, s, done);
        if pos >= |text| { return Err(UnterminatedString); }
        var close := Expect(QUOTE);
        if close { return Ok(result); }
        var unit := ParsePiece();
        if unit.Err? { return Err(unit.error); }
        PieceTurn(from, s, done);
        result := result + [unit.value];
        done := done + [ReadPiece(s).value.value];
      }
    }

    method ParseNumber() returns (r: Result<Json, Error>)
      requires pos <= |text|
      modifies this`pos
      ensures match ReadNumber(old(Ahead()))
              case Ok(read) => r == Ok(Num(read.value)) && Ahead() == read.rest && pos <= |text|
              case Err(e) => r == Err(e)
    {
      var found := ReadNumber(text[pos..]);
      if found.Err? { return Err(found.error); }
      ghost var s := text[pos..];
      NumberSound(s, found.value.value, found.value.rest);
      Behind(NumberText(found.value.value), found.value.rest);
      DropTwice(text, pos, |NumberText(found.value.value)|);
      pos := pos + |NumberText(found.value.value)|;
      r := Ok(Num(found.value.value));
    }

    method ParseValue() returns (r: Result<Json, Error>)
      requires pos <= |text|
      modifies this`pos
      ensures match ReadForm(AfterRun(IsSpace, old(Ahead())), true)
              case Ok(read) => r == Ok(Meaning(read.value)) && Ahead() == read.rest && pos <= |text| && pos > old(pos)
              case Err(e) => r == Err(e)
      decreases |text| - pos, 2
    {
      SkipWhitespace();
      r := ParseForm();
    }

    /** A value with no blanks in front. */
    method ParseForm() returns (r: Result<Json, Error>)
      requires pos <= |text|
      modifies this`pos
      ensures match ReadForm(old(Ahead()), true)
              case Ok(read) => r == Ok(Meaning(read.value)) && Ahead() == read.rest && pos <= |text| && pos > old(pos)
              case Err(e) => r == Err(e)
      decreases |text| - pos, 1
    {
      if pos >= |text| { return Err(UnexpectedEnd); }
      if text[pos] == LBRACE { r := ParseObject(); }
      else if text[pos] == LBRACKET { r := ParseArray(); }
      else if text[pos] == 116 { r := ParseLiteral(TRUE_TEXT, FTrue); }
      else if text[pos] == 102 { r := ParseLiteral(FALSE_TEXT, FFalse); }
      else if text[pos] == 110 { r := ParseLiteral(NULL_TEXT, FNull); }
      else { r := ParseScalar(); }
    }

    /** A string or a number. */
    method ParseScalar() returns (r: Result<Json, Error>)
      requires pos < |text|
      modifies this`pos
      ensures match ReadScalar(old(Ahead()))
              case Ok(read) => r == Ok(Meaning(read.value)) && Ahead() == read.rest && pos <= |text|
              case Err(e) => r == Err(e)
    {
      hide ReadNumber, ReadPieces;
      if text[pos] == QUOTE {
        var s := ParseString();
        r := if s.Err? then Err(s.error) else Ok(Str(s.value));
      } else if text[pos] == 45 || IsDigit(text[pos]) {
        r := ParseNumber();
      } else {
        r := Err(UnexpectedCharacter);
      }
    }

    /** A value and the blanks behind it; `s` is the text ahead before some of its blanks were skipped. */
    method ParseItem(ghost s: Text) returns (r: Result<Json, Error>)
      requires pos <= |text| && AfterRun(IsSpace, Ahead()) == AfterRun(IsSpace, s)
      modifies this`pos
      ensures match ReadPadded(s, true)
              case Ok(read) => r == Ok(Meaning(read.value.form)) && Ahead() == read.rest && pos <= |text| && pos > old(pos)
              case Err(e) => r == Err(e)
      decreases |text| - pos, 3
    {
      r := ParseValue();
      if r.Ok? { SkipWhitespace(); }
    }

    /** A member whose name is not among `names`, and the blanks behind it. */
    method ParseMember(names: set<Text>, ghost s: Text) returns (r: Result<Member, Error>)
      requires pos <= |text| && AfterRun(IsSpace, Ahead()) == AfterRun(IsSpace, s)
      modifies this`pos
      ensures match ReadEntry(s, true, names)
              case Ok(read) => r == Ok(Member(PiecesValue(read.value.name), Meaning(read.value.value.form))) && Ahead() == read.rest && pos <= |text| && pos > old(pos)
              case Err(e) => r == Err(e)
      decreases |text| - pos, 4
    {
      SkipWhitespace();
      var key := ParseString();
      if key.Err? { return Err(key.error); }
      if key.value in names { return Err(DuplicateMember(key.value)); }
      SkipWhitespace();
      var colon := Expect(COLON);
      if !colon { return Err(Expected(COLON)); }
      var value := ParseItem(Ahead());
      r := if value.Err? then Err(value.error) else Ok(Member(key.value, value.value));
    }

    method ParseArray() returns (r: Result<Json, Error>)
      requires pos <= |text|
      modifies this`pos
      ensures if !StartsWith(old(Ahead()), LBRACKET) then r == Err(Expected(LBRACKET))
              else match ReadArray(old(Ahead())[1..], true)
                   case Ok(read) => r == Ok(Meaning(read.value)) && Ahead() == read.rest && pos <= |text| && pos > old(pos)
                   case Err(e) => r == Err(e)
      decreases |text| - pos, 0
    {
      var open := Expect(LBRACKET);
      if !open { return Err(Expected(LBRACKET)); }
      r := ParseArrayBody();
    }

    method ParseArrayBody() returns (r: Result<Json, Error>)
      requires pos <= |text|
      modifies this`pos
      ensures match ReadArray(old(Ahead()), true)
              case Ok(read) => r == Ok(Meaning(read.value)) && Ahead() == read.rest && pos <= |text| && pos > old(pos)
              case Err(e) => r == Err(e)
      decreases |text| - pos, 6
    {
      ghost var from := Ahead();
      SkipWhitespace();
      var empty := Expect(RBRACKET);
      if empty { return Ok(Arr([])); }
      SkipTwice(from);
      var items := ParseItems(from);
      r := if items.Err? then Err(items.error) else Ok(Arr(items.value));
    }

    /** The items of a non-empty array, up to and over its bracket. */
    method ParseItems(ghost from: Text) returns (r: Result<seq<Json>, Error>)
      requires pos <= |text| && AfterRun(IsSpace, Ahead()) == AfterRun(IsSpace, from)
      modifies this`pos
      ensures match ReadItems(from, true)
              case Ok(read) => r == Ok(MeaningItems(read.value)) && Ahead() == read.rest && pos <= |text| && pos > old(pos)
              case Err(e) => r == Err(e)
      decreases |text| - pos, 4
    {
      var result: seq<Json> := [];
      ghost var s, done: seq<Padded> := from, [];
      PrependNothing(ReadItems(from, true));
      while true
        invariant old(pos) <= pos <= |text| && AfterRun(IsSpace, Ahead()) == AfterRun(IsSpace, s)
        invariant ReadItems(from, true) == Prepend(done, ReadItems(s, true)) && result == MeaningItems(done)
        decreases |text| - pos
      {
        var value := ParseItem(s);
        if value.Err? { return Err(value.error); }
        result := result + [value.value];
        ghost var item := ReadPadded(s, true).value;
        ItemsTurn(from, s, done, item);
        MeaningItemsGrow(done, item.value);
        var more := Expect(COMMA);
        if more {
          s, done := item.rest[1..], done + [item.value];
        } else {
          var closed := Expect(RBRACKET);
          return if closed then Ok(result) else Err(Expected(RBRACKET));
        }
      }
    }

    method ParseObject() returns (r: Result<Json, Error>)
      requires pos <= |text|
      modifies this`pos
      ensures if !StartsWith(old(Ahead()), LBRACE) then r == Err(Expected(LBRACE))
              else match ReadObject(old(Ahead())[1..], true)
                   case Ok(read) => r == Ok(Meaning(read.value)) && Ahead() == read.rest && pos <= |text| && pos > old(pos)
                   case Err(e) => r == Err(e)
      decreases |text| - pos, 0
    {
      var open := Expect(LBRACE);
      if !open { return Err(Expected(LBRACE)); }
      r := ParseObjectBody();
    }

    method ParseObjectBody() returns (r: Result<Json, Error>)
      requires pos <= |text|
      modifies this`pos
      ensures match ReadObject(old(Ahead()), true)
              case Ok(read) => r == Ok(Meaning(read.value)) && Ahead() == read.rest && pos <= |text| && pos > old(pos)
              case Err(e) => r == Err(e)
      decreases |text| - pos, 6
    {
      ghost var from := Ahead();
      SkipWhitespace();
      var empty := Expect(RBRACE);
      if empty { return Ok(Obj([])); }
      SkipTwice(from);
      var members := ParseMembers(from);
      r := if members.Err? then Err(members.error) else Ok(Obj(members.value));
    }

    /** The members of a non-empty object, up to and over its brace. */
    method ParseMembers(ghost from: Text) returns (r: Result<seq<Member>, Error>)
      requires pos <= |text| && AfterRun(IsSpace, Ahead()) == AfterRun(IsSpace, from)
      modifies this`pos
      ensures match ReadEntries(from, true, {})
              case Ok(read) => r == Ok(MeaningEntries(read.value)) && Ahead() == read.rest && pos <= |text| && pos > old(pos)
              case Err(e) => r == Err(e)
      decreases |text| - pos, 5
    {
      var result: seq<Member> := [];
      ghost var s, done: seq<Entry> := from, [];
      PrependNothing(ReadEntries(from, true, {}));
      assert Names(result) == {};
      while true
        invariant old(pos) <= pos <= |text| && AfterRun(IsSpace, Ahead()) == AfterRun(IsSpace, s)
        invariant ReadEntries(from, true, {}) == Prepend(done, ReadEntries(s, true, Names(result))) && result == MeaningEntries(done)
        decreases |text| - pos
      {
        ghost var seen := Names(result);
        var member := ParseMember(Names(result), s);
        if member.Err? { return Err(member.error); }
        NamesGrow(result, member.value.name, member.value.value);
        result := result + OwnMember(member.value.name, member.value.value);
        ghost var entry := ReadEntry(s, true, seen).value;
        EntriesTurn(from, s, done, seen, entry);
        MeaningEntriesGrow(done, entry.value);
        var more := Expect(COMMA);
        if more {
          s, done := entry.rest[1..], done + [entry.value];
        } else {
          var closed := Expect(RBRACE);
          return if closed then Ok(result) else Err(Expected(RBRACE));
        }
      }
    }
  }

  method StrictJsonParse(text: Text) returns (r: Result<Json, Error>)
    ensures r == StrictParse(text)
  {
    var cursor := new Cursor(text);
    var value := cursor.ParseValue();
    if value.Err? { return value; }
    cursor.SkipWhitespace();
    if cursor.pos < |cursor.text| { return Err(TrailingContent); }
    r := value;
  }
}
