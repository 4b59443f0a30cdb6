/** Whatever the reader accepts is spelled by what it returns, and a strict reader returns no repeated name. */
module JsonSound {
  import opened Wrappers
  import opened Octets
  import opened JsonLexical
  import opened StrictJson

  lemma Front(u: Unit, s: Text)
    requires StartsWith(s, u)
    ensures s == [u] + s[1..]
  {
  }

  lemma StringSound(s: Text, ps: seq<Piece>, rest: Text)
    requires ReadString(s) == Ok(Read(ps, rest))
    ensures GoodPieces(ps) && s == [QUOTE] + (PiecesText(ps) + [QUOTE] + rest)
  {
    Front(QUOTE, s);
    PiecesSound(s[1..], ps, rest);
  }

  lemma NumberFormSound(s: Text, f: Form, rest: Text)
    requires s != [] && s[0] != QUOTE && ReadScalar(s) == Ok(Read(f, rest))
    ensures Good(f) && Strict(f) && s == FormText(f) + rest
  {
    hide ReadNumber, NumberText, GoodNumber;
    NumberSound(s, f.number, rest);
  }

  lemma LiteralSound(s: Text, literal: Text, f: Form, g: Form, rest: Text)
    requires literal != [] && ReadLiteral(s, literal, g) == Ok(Read(f, rest))
    ensures f == g && s == literal + rest
  {
    assert s == s[..|literal|] + s[|literal|..];
  }

  lemma ScalarSound(s: Text, strict: bool, f: Form, rest: Text)
    requires ReadForm(s, strict) == Ok(Read(f, rest)) && s[0] != LBRACE && s[0] != LBRACKET && s[0] != QUOTE
    ensures Good(f) && Strict(f) && s == FormText(f) + rest
  {
    hide ReadNumber, NumberText, GoodNumber, ReadScalar;
    if s[0] == 116 {
      LiteralSound(s, TRUE_TEXT, f, FTrue, rest);
    } else if s[0] == 102 {
      LiteralSound(s, FALSE_TEXT, f, FFalse, rest);
    } else if s[0] == 110 {
      LiteralSound(s, NULL_TEXT, f, FNull, rest);
    } else {
      NumberFormSound(s, f, rest);
    }
  }

  lemma StringFormSound(s: Text, strict: bool, f: Form, rest: Text)
    requires ReadForm(s, strict) == Ok(Read(f, rest)) && s[0] == QUOTE
    ensures Good(f) && Strict(f) && s == FormText(f) + rest
  {
    StringSound(s, f.pieces, rest);
    Regroup([QUOTE], PiecesText(f.pieces) + [QUOTE], rest);
  }

  lemma {:induction false} FormSound(s: Text, strict: bool, f: Form, rest: Text)
    requires ReadForm(s, strict) == Ok(Read(f, rest))
    ensures Good(f) && (strict ==> Strict(f)) && s == FormText(f) + rest
    decreases |s|, 0
  {
    if s[0] == LBRACE {
      Front(LBRACE, s);
      ObjectSound(s[1..], strict, f, rest);
    } else if s[0] == LBRACKET {
      Front(LBRACKET, s);
      ArraySound(s[1..], strict, f, rest);
    } else if s[0] == QUOTE {
      StringFormSound(s, strict, f, rest);
    } else {
      ScalarSound(s, strict, f, rest);
    }
  }

  lemma PaddedJoined(s: Text, t: Text, p: Padded, tail: Text, rest: Text)
    requires s == p.before + t && t == FormText(p.form) + tail && tail == p.after + rest
    ensures s == PaddedText(p) + rest
  {
    Regroup(FormText(p.form), p.after, rest);
    Regroup(p.before, FormText(p.form) + p.after, rest);
  }

  lemma {:induction false} PaddedSound(s: Text, strict: bool, p: Padded, rest: Text)
    requires ReadPadded(s, strict) == Ok(Read(p, rest))
    ensures GoodPadded(p) && (strict ==> StrictPadded(p)) && s == PaddedText(p) + rest
    ensures rest != [] ==> !IsSpace(rest[0])
    decreases |s|, 1
  {
    RunSplits(IsSpace, s);
    var t := AfterRun(IsSpace, s);
    var tail := ReadForm(t, strict).value.rest;
    RunSplits(IsSpace, tail);
    FormSound(t, strict, p.form, tail);
    PaddedJoined(s, t, p, tail, rest);
  }

  lemma EmptySound(open: Unit, s: Text, close: Unit)
    requires StartsWith(AfterRun(IsSpace, s), close)
    ensures Blank(Run(IsSpace, s)) && [open] + s == [open] + (Run(IsSpace, s) + [close]) + AfterRun(IsSpace, s)[1..]
  {
    RunSplits(IsSpace, s);
    Front(close, AfterRun(IsSpace, s));
    Regroup(Run(IsSpace, s), [close], AfterRun(IsSpace, s)[1..]);
    Regroup([open], Run(IsSpace, s) + [close], AfterRun(IsSpace, s)[1..]);
  }

  lemma {:induction false} ArraySound(s: Text, strict: bool, f: Form, rest: Text)
    requires ReadArray(s, strict) == Ok(Read(f, rest))
    ensures Good(f) && (strict ==> Strict(f)) && [LBRACKET] + s == FormText(f) + rest
    decreases |s|, 3
  {
    if StartsWith(AfterRun(IsSpace, s), RBRACKET) {
      EmptySound(LBRACKET, s, RBRACKET);
    } else {
      ItemsSound(s, strict, f.items, rest);
      Regroup([LBRACKET], ItemsText(f.items), rest);
    }
  }

  lemma ItemsCons(item: Padded, items: seq<Padded>, rest: Text)
    requires items != []
    ensures ItemsText([item] + items) + rest == PaddedText(item) + ([COMMA] + (ItemsText(items) + rest))
    ensures GoodItems([item] + items) == (GoodPadded(item) && GoodItems(items))
    ensures StrictItems([item] + items) == (StrictPadded(item) && StrictItems(items))
  {
    assert ([item] + items)[1..] == items;
    Regroup([COMMA], ItemsText(items), rest);
    Regroup(PaddedText(item), [COMMA] + ItemsText(items), rest);
  }

  lemma ItemsLast(item: Padded, rest: Text)
    ensures ItemsText([item]) + rest == PaddedText(item) + ([RBRACKET] + rest)
    ensures GoodItems([item]) == GoodPadded(item) && StrictItems([item]) == StrictPadded(item)
  {
    assert [item][1..] == [];
    Regroup(PaddedText(item), [RBRACKET], rest);
  }

  lemma {:induction false} ItemsSound(s: Text, strict: bool, items: seq<Padded>, rest: Text)
    requires ReadItems(s, strict) == Ok(Read(items, rest))
    ensures items != [] && GoodItems(items) && (strict ==> StrictItems(items)) && s == ItemsText(items) + rest
    decreases |s|, 2
  {
    var item := ReadPadded(s, strict).value;
    PaddedSound(s, strict, item.value, item.rest);
    if StartsWith(item.rest, COMMA) {
      Front(COMMA, item.rest);
      var tail := ReadItems(item.rest[1..], strict).value;
      ItemsSound(item.rest[1..], strict, tail.value, rest);
      ItemsCons(item.value, tail.value, rest);
    } else {
      Front(RBRACKET, item.rest);
      ItemsLast(item.value, rest);
    }
  }

  lemma EntryJoined(s: Text, e: Entry, t1: Text, t2: Text, t3: Text, rest: Text)
    requires s == e.before + t1 && t1 == [QUOTE] + (PiecesText(e.name) + [QUOTE] + t2) && t2 == e.mid + t3
    requires t3 == [COLON] + (PaddedText(e.value) + rest)
    ensures s == EntryText(e) + rest
  {
    EntryParts(e, rest);
  }

  lemma EntryParts(e: Entry, rest: Text)
    ensures EntryText(e) + rest
         == e.before + ([QUOTE] + (PiecesText(e.name) + [QUOTE] + (e.mid + ([COLON] + (PaddedText(e.value) + rest)))))
  {
    var name := PiecesText(e.name) + [QUOTE];
    Regroup([COLON], PaddedText(e.value), rest);
    Regroup(e.mid, [COLON] + PaddedText(e.value), rest);
    Regroup(name, e.mid + ([COLON] + PaddedText(e.value)), rest);
    Regroup([QUOTE], name + (e.mid + ([COLON] + PaddedText(e.value))), rest);
    Regroup(e.before, [QUOTE] + (name + (e.mid + ([COLON] + PaddedText(e.value)))), rest);
  }

  lemma {:induction false} EntrySound(s: Text, strict: bool, seen: set<Text>, e: Entry, rest: Text)
    requires ReadEntry(s, strict, seen) == Ok(Read(e, rest))
    ensures GoodEntry(e) && (strict ==> StrictEntry(e) && PiecesValue(e.name) !in seen) && s == EntryText(e) + rest
    decreases |s|, 2
  {
    RunSplits(IsSpace, s);
    var t1 := AfterRun(IsSpace, s);
    var t2 := ReadString(t1).value.rest;
    StringSound(t1, e.name, t2);
    RunSplits(IsSpace, t2);
    var t3 := AfterRun(IsSpace, t2);
    Front(COLON, t3);
    PaddedSound(t3[1..], strict, e.value, rest);
    EntryJoined(s, e, t1, t2, t3, rest);
  }

  lemma {:induction false} ObjectSound(s: Text, strict: bool, f: Form, rest: Text)
    requires ReadObject(s, strict) == Ok(Read(f, rest))
    ensures Good(f) && (strict ==> Strict(f)) && [LBRACE] + s == FormText(f) + rest
    decreases |s|, 4
  {
    if StartsWith(AfterRun(IsSpace, s), RBRACE) {
      EmptySound(LBRACE, s, RBRACE);
    } else {
      EntriesSound(s, strict, {}, f.entries, rest);
      Regroup([LBRACE], EntriesText(f.entries), rest);
    }
  }

  lemma EntriesCons(entry: Entry, entries: seq<Entry>, seen: set<Text>, rest: Text)
    requires entries != []
    ensures EntriesText([entry] + entries) + rest == EntryText(entry) + ([COMMA] + (EntriesText(entries) + rest))
    ensures GoodEntries([entry] + entries) == (GoodEntry(entry) && GoodEntries(entries))
    ensures StrictEntries([entry] + entries, seen)
         == (PiecesValue(entry.name) !in seen && StrictEntry(entry) && StrictEntries(entries, seen + Taken(PiecesValue(entry.name))))
  {
    assert ([entry] + entries)[1..] == entries;
    Regroup([COMMA], EntriesText(entries), rest);
    Regroup(EntryText(entry), [COMMA] + EntriesText(entries), rest);
  }

  lemma EntriesLast(entry: Entry, seen: set<Text>, rest: Text)
    ensures EntriesText([entry]) + rest == EntryText(entry) + ([RBRACE] + rest)
    ensures GoodEntries([entry]) == GoodEntry(entry)
    ensures StrictEntries([entry], seen) == (PiecesValue(entry.name) !in seen && StrictEntry(entry))
  {
    assert [entry][1..] == [];
    Regroup(EntryText(entry), [RBRACE], rest);
  }

  lemma {:induction false} EntriesSound(s: Text, strict: bool, seen: set<Text>, entries: seq<Entry>, rest: Text)
    requires ReadEntries(s, strict, seen) == Ok(Read(entries, rest))
    ensures entries != [] && GoodEntries(entries) && (strict ==> StrictEntries(entries, seen)) && s == EntriesText(entries) + rest
    decreases |s|, 3
  {
    var entry := ReadEntry(s, strict, seen).value;
    EntrySound(s, strict, seen, entry.value, entry.rest);
    if StartsWith(entry.rest, COMMA) {
      Front(COMMA, entry.rest);
      var seen' := seen + Taken(PiecesValue(entry.value.name));
      var tail := ReadEntries(entry.rest[1..], strict, seen').value;
      EntriesSound(entry.rest[1..], strict, seen', tail.value, rest);
      EntriesCons(entry.value, tail.value, seen, rest);
    } else {
      Front(RBRACE, entry.rest);
      EntriesLast(entry.value, seen, rest);
    }
  }
}
