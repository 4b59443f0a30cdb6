/** Every spelling whose objects repeat no name is read back as itself, and a lenient reader reads every spelling. */
module JsonComplete {
  import opened Wrappers
  import opened Octets
  import opened JsonLexical
  import opened StrictJson
  import opened JsonSound

  /** The text ends, or something that can follow a padded value comes next. */
  predicate Closes(rest: Text) { rest != [] ==> rest[0] == COMMA || rest[0] == RBRACKET || rest[0] == RBRACE }

  lemma BlankOf(blank: Text, rest: Text)
    requires Blank(blank) && (rest != [] ==> !IsSpace(rest[0]))
    ensures Run(IsSpace, blank + rest) == blank && AfterRun(IsSpace, blank + rest) == rest
  {
    RunOf(IsSpace, blank, rest);
  }

  lemma FormStarts(f: Form, rest: Text)
    requires Good(f)
    ensures FormText(f) != [] && FormText(f) + rest != []
    ensures var u := (FormText(f) + rest)[0]; !IsSpace(u) && u != RBRACKET && u != RBRACE
  {
    if f.FNumber? { assert NumberText(f.number)[0] == if f.number.minus then 45 else f.number.whole[0]; }
  }

  lemma StringComplete(ps: seq<Piece>, rest: Text)
    requires GoodPieces(ps)
    ensures ReadString([QUOTE] + (PiecesText(ps) + [QUOTE] + rest)) == Ok(Read(ps, rest))
  {
    PiecesComplete(ps, rest);
    Behind([QUOTE], PiecesText(ps) + [QUOTE] + rest);
  }

  lemma StringFormComplete(ps: seq<Piece>, strict: bool, rest: Text)
    requires GoodPieces(ps)
    ensures ReadForm(FormText(FString(ps)) + rest, strict) == Ok(Read(FString(ps), rest))
  {
    Regroup([QUOTE], PiecesText(ps) + [QUOTE], rest);
    StringComplete(ps, rest);
  }

  lemma NumberStarts(n: Number, rest: Text)
    requires GoodNumber(n)
    ensures var s := NumberText(n) + rest; s != [] && (s[0] == 45 || IsDigit(s[0]))
  {
    assert NumberText(n)[0] == if n.minus then 45 else n.whole[0];
  }

  lemma NumberFormComplete(n: Number, strict: bool, rest: Text)
    requires GoodNumber(n) && EndsNumber(rest)
    ensures ReadForm(FormText(FNumber(n)) + rest, strict) == Ok(Read(FNumber(n), rest))
  {
    hide ReadNumber, GoodNumber;
    NumberComplete(n, rest);
    NumberStarts(n, rest);
  }

  lemma LiteralComplete(f: Form, strict: bool, rest: Text)
    requires f.FNull? || f.FTrue? || f.FFalse?
    ensures ReadForm(FormText(f) + rest, strict) == Ok(Read(f, rest))
  {
    Behind(FormText(f), rest);
    assert (FormText(f) + rest)[..|FormText(f)|] == FormText(f);
  }

  lemma {:induction false} FormComplete(f: Form, strict: bool, rest: Text)
    requires Good(f) && (strict ==> Strict(f)) && EndsNumber(rest)
    ensures ReadForm(FormText(f) + rest, strict) == Ok(Read(f, rest))
    decreases f
  {
    match f {
      case FNull => LiteralComplete(f, strict, rest);
      case FTrue => LiteralComplete(f, strict, rest);
      case FFalse => LiteralComplete(f, strict, rest);
      case FNumber(n) => NumberFormComplete(n, strict, rest);
      case FString(ps) => StringFormComplete(ps, strict, rest);
      case FArray(blank, items) =>
        if items == [] {
          EmptyArrayComplete(blank, strict, rest);
        } else {
          ItemsComplete(items, strict, rest);
          ArrayComplete(items, strict, rest);
        }
      case FObject(blank, entries) =>
        if entries == [] {
          EmptyObjectComplete(blank, strict, rest);
        } else {
          EntriesComplete(entries, strict, {}, rest);
          ObjectComplete(entries, strict, rest);
        }
    }
  }

  lemma EmptyComplete(open: Unit, blank: Text, close: Unit, rest: Text)
    requires Blank(blank) && !IsSpace(close)
    ensures var s := [open] + (blank + [close]) + rest;
            s[0] == open && Run(IsSpace, s[1..]) == blank && StartsWith(AfterRun(IsSpace, s[1..]), close) && AfterRun(IsSpace, s[1..])[1..] == rest
  {
    Regroup([open], blank + [close], rest);
    Regroup(blank, [close], rest);
    Behind([open], blank + ([close] + rest));
    BlankOf(blank, [close] + rest);
    Behind([close], rest);
  }

  lemma EmptyArrayComplete(blank: Text, strict: bool, rest: Text)
    requires Blank(blank)
    ensures ReadForm(FormText(FArray(blank, [])) + rest, strict) == Ok(Read(FArray(blank, []), rest))
  {
    EmptyComplete(LBRACKET, blank, RBRACKET, rest);
  }

  lemma EmptyObjectComplete(blank: Text, strict: bool, rest: Text)
    requires Blank(blank)
    ensures ReadForm(FormText(FObject(blank, [])) + rest, strict) == Ok(Read(FObject(blank, []), rest))
  {
    EmptyComplete(LBRACE, blank, RBRACE, rest);
  }

  lemma PaddedParts(p: Padded, rest: Text)
    ensures PaddedText(p) + rest == p.before + (FormText(p.form) + (p.after + rest))
  {
    Regroup(FormText(p.form), p.after, rest);
    Regroup(p.before, FormText(p.form) + p.after, rest);
  }

  lemma AfterPadding(p: Padded, rest: Text)
    requires GoodPadded(p)
    ensures AfterRun(IsSpace, PaddedText(p) + rest) == FormText(p.form) + (p.after + rest)
    ensures Run(IsSpace, PaddedText(p) + rest) == p.before
  {
    PaddedParts(p, rest);
    FormStarts(p.form, p.after + rest);
    BlankOf(p.before, FormText(p.form) + (p.after + rest));
  }

  lemma BlankEndsNumber(blank: Text, rest: Text)
    requires Blank(blank) && Closes(rest)
    ensures EndsNumber(blank + rest)
  {
    if blank == [] { assert blank + rest == rest; }
  }

  lemma {:induction false} PaddedComplete(p: Padded, strict: bool, rest: Text)
    requires GoodPadded(p) && (strict ==> StrictPadded(p)) && Closes(rest)
    ensures ReadPadded(PaddedText(p) + rest, strict) == Ok(Read(p, rest))
    decreases p
  {
    AfterPadding(p, rest);
    BlankEndsNumber(p.after, rest);
    FormComplete(p.form, strict, p.after + rest);
    BlankOf(p.after, rest);
  }

  /** A non-empty array does not start with its closing bracket. */
  lemma ArrayComplete(items: seq<Padded>, strict: bool, rest: Text)
    requires items != [] && GoodItems(items)
    requires ReadItems(ItemsText(items) + rest, strict) == Ok(Read(items, rest))
    ensures ReadForm(FormText(FArray([], items)) + rest, strict) == Ok(Read(FArray([], items), rest))
  {
    var s := ItemsText(items) + rest;
    Regroup([LBRACKET], ItemsText(items), rest);
    Behind([LBRACKET], s);
    var t := if |items| == 1 then [RBRACKET] else [COMMA] + ItemsText(items[1..]);
    Regroup(PaddedText(items[0]), t, rest);
    AfterPadding(items[0], t + rest);
    FormStarts(items[0].form, items[0].after + (t + rest));
  }

  lemma ItemsStep(item: Padded, items: seq<Padded>, strict: bool, rest: Text)
    requires items != []
    requires ReadPadded(PaddedText(item) + ([COMMA] + (ItemsText(items) + rest)), strict) == Ok(Read(item, [COMMA] + (ItemsText(items) + rest)))
    requires ReadItems(ItemsText(items) + rest, strict) == Ok(Read(items, rest))
    ensures ReadItems(ItemsText([item] + items) + rest, strict) == Ok(Read([item] + items, rest))
  {
    ItemsCons(item, items, rest);
    Behind([COMMA], ItemsText(items) + rest);
  }

  lemma {:induction false} ItemsComplete(items: seq<Padded>, strict: bool, rest: Text)
    requires items != [] && GoodItems(items) && (strict ==> StrictItems(items))
    ensures ReadItems(ItemsText(items) + rest, strict) == Ok(Read(items, rest))
    decreases items
  {
    if |items| == 1 {
      assert items == [items[0]];
      ItemsLast(items[0], rest);
      PaddedComplete(items[0], strict, [RBRACKET] + rest);
      Behind([RBRACKET], rest);
    } else {
      assert items == [items[0]] + items[1..];
      PaddedComplete(items[0], strict, [COMMA] + (ItemsText(items[1..]) + rest));
      ItemsComplete(items[1..], strict, rest);
      ItemsStep(items[0], items[1..], strict, rest);
    }
  }

  lemma {:induction false} EntryComplete(e: Entry, strict: bool, seen: set<Text>, rest: Text)
    requires GoodEntry(e) && (strict ==> StrictEntry(e) && PiecesValue(e.name) !in seen) && Closes(rest)
    ensures ReadEntry(EntryText(e) + rest, strict, seen) == Ok(Read(e, rest))
    decreases e
  {
    var t3 := [COLON] + (PaddedText(e.value) + rest);
    var t1 := [QUOTE] + (PiecesText(e.name) + [QUOTE] + (e.mid + t3));
    EntryParts(e, rest);
    BlankOf(e.before, t1);
    StringComplete(e.name, e.mid + t3);
    BlankOf(e.mid, t3);
    Behind([COLON], PaddedText(e.value) + rest);
    PaddedComplete(e.value, strict, rest);
  }

  lemma AfterEntryBlank(e: Entry, rest: Text)
    requires GoodEntry(e)
    ensures StartsWith(AfterRun(IsSpace, EntryText(e) + rest), QUOTE)
  {
    EntryParts(e, rest);
    BlankOf(e.before, [QUOTE] + (PiecesText(e.name) + [QUOTE] + (e.mid + ([COLON] + (PaddedText(e.value) + rest)))));
  }

  lemma ObjectComplete(entries: seq<Entry>, strict: bool, rest: Text)
    requires entries != [] && GoodEntries(entries)
    requires ReadEntries(EntriesText(entries) + rest, strict, {}) == Ok(Read(entries, rest))
    ensures ReadForm(FormText(FObject([], entries)) + rest, strict) == Ok(Read(FObject([], entries), rest))
  {
    hide ReadEntries, ReadEntry, EntryText;
    var s := EntriesText(entries) + rest;
    Regroup([LBRACE], EntriesText(entries), rest);
    Behind([LBRACE], s);
    var t := if |entries| == 1 then [RBRACE] else [COMMA] + EntriesText(entries[1..]);
    Regroup(EntryText(entries[0]), t, rest);
    AfterEntryBlank(entries[0], t + rest);
  }

  lemma EntriesStep(entry: Entry, entries: seq<Entry>, strict: bool, seen: set<Text>, rest: Text)
    requires entries != []
    requires ReadEntry(EntryText(entry) + ([COMMA] + (EntriesText(entries) + rest)), strict, seen) == Ok(Read(entry, [COMMA] + (EntriesText(entries) + rest)))
    requires ReadEntries(EntriesText(entries) + rest, strict, seen + Taken(PiecesValue(entry.name))) == Ok(Read(entries, rest))
    ensures ReadEntries(EntriesText([entry] + entries) + rest, strict, seen) == Ok(Read([entry] + entries, rest))
  {
    EntriesCons(entry, entries, seen, rest);
    Behind([COMMA], EntriesText(entries) + rest);
  }

  lemma {:induction false} EntriesComplete(entries: seq<Entry>, strict: bool, seen: set<Text>, rest: Text)
    requires entries != [] && GoodEntries(entries) && (strict ==> StrictEntries(entries, seen))
    ensures ReadEntries(EntriesText(entries) + rest, strict, seen) == Ok(Read(entries, rest))
    decreases entries
  {
    if |entries| == 1 {
      assert entries == [entries[0]];
      EntriesLast(entries[0], seen, rest);
      EntryComplete(entries[0], strict, seen, [RBRACE] + rest);
      Behind([RBRACE], rest);
    } else {
      assert entries == [entries[0]] + entries[1..];
      EntryComplete(entries[0], strict, seen, [COMMA] + (EntriesText(entries[1..]) + rest));
      EntriesComplete(entries[1..], strict, seen + Taken(PiecesValue(entries[0].name)), rest);
      EntriesStep(entries[0], entries[1..], strict, seen, rest);
    }
  }
}
