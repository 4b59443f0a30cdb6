/** What the strict parser accepts, what it returns, and when it overlooks a repeated name. */
module JsonLaws {
  import opened Wrappers
  import opened Octets
  import opened JsonLexical
  import opened StrictJson
  import opened JsonSound
  import opened JsonComplete
  import opened JsonCursor

  lemma WholeText(p: Padded, strict: bool)
    requires GoodPadded(p) && (strict ==> StrictPadded(p))
    ensures ReadPadded(PaddedText(p), strict) == Ok(Read(p, []))
  {
    PaddedComplete(p, strict, []);
    assert PaddedText(p) + [] == PaddedText(p);
  }

  /** No text has two spellings. */
  lemma Unambiguous(p: Padded, q: Padded)
    requires GoodPadded(p) && GoodPadded(q) && PaddedText(p) == PaddedText(q)
    ensures p == q
  {
    WholeText(p, false);
    WholeText(q, false);
  }

  /** An accepted text is a spelling of the value returned, from its first unit to its last, and repeats no name. */
  lemma AcceptedIsSpelled(text: Text) returns (p: Padded)
    requires StrictParse(text).Ok?
    ensures GoodPadded(p) && PaddedText(p) == text && StrictPadded(p) && StrictParse(text) == Ok(Meaning(p.form))
  {
    p := ReadPadded(text, true).value.value;
    PaddedSound(text, true, p, []);
    assert PaddedText(p) + [] == PaddedText(p);
  }

  // ---- strict and lenient ----

  /** The strict outcome is the lenient one, or a repeated name. */
  ghost predicate Agrees<T(!new)>(strict: Outcome<T>, lenient: Outcome<T>) {
    strict == lenient || (strict.Err? && strict.error.DuplicateMember?)
  }

  lemma {:induction false} FormAgrees(s: Text)
    ensures Agrees(ReadForm(s, true), ReadForm(s, false))
    decreases |s|, 0
  {
    if StartsWith(s, LBRACE) { ObjectAgrees(s[1..]); }
    if StartsWith(s, LBRACKET) { ArrayAgrees(s[1..]); }
  }

  lemma {:induction false} PaddedAgrees(s: Text)
    ensures Agrees(ReadPadded(s, true), ReadPadded(s, false))
    decreases |s|, 1
  {
    FormAgrees(AfterRun(IsSpace, s));
  }

  lemma {:induction false} ItemsAgree(s: Text)
    ensures Agrees(ReadItems(s, true), ReadItems(s, false))
    decreases |s|, 2
  {
    PaddedAgrees(s);
    var item := ReadPadded(s, false);
    if item.Ok? && StartsWith(item.value.rest, COMMA) { ItemsAgree(item.value.rest[1..]); }
  }

  lemma {:induction false} ArrayAgrees(s: Text)
    ensures Agrees(ReadArray(s, true), ReadArray(s, false))
    decreases |s|, 3
  {
    ItemsAgree(s);
  }

  lemma {:induction false} EntryAgrees(s: Text, seen: set<Text>)
    ensures Agrees(ReadEntry(s, true, seen), ReadEntry(s, false, seen))
    decreases |s|, 2
  {
    var name := ReadString(AfterRun(IsSpace, s));
    if name.Ok? && StartsWith(AfterRun(IsSpace, name.value.rest), COLON) { PaddedAgrees(AfterRun(IsSpace, name.value.rest)[1..]); }
  }

  lemma {:induction false} EntriesAgree(s: Text, seen: set<Text>)
    ensures Agrees(ReadEntries(s, true, seen), ReadEntries(s, false, seen))
    decreases |s|, 3
  {
    EntryAgrees(s, seen);
    var entry := ReadEntry(s, false, seen);
    if entry.Ok? && StartsWith(entry.value.rest, COMMA) {
      EntriesAgree(entry.value.rest[1..], seen + Taken(PiecesValue(entry.value.value.name)));
    }
  }

  lemma {:induction false} ObjectAgrees(s: Text)
    ensures Agrees(ReadObject(s, true), ReadObject(s, false))
    decreases |s|, 4
  {
    EntriesAgree(s, {});
  }

  /**
   * A spelled text is accepted exactly when no object in it repeats a name, and then with the value it
   * spells; otherwise it is refused for a repeated name and for nothing else.
   */
  lemma SpelledIsAccepted(p: Padded)
    requires GoodPadded(p)
    ensures StrictPadded(p) ==> StrictParse(PaddedText(p)) == Ok(Meaning(p.form))
    ensures !StrictPadded(p) ==> StrictParse(PaddedText(p)).Err? && StrictParse(PaddedText(p)).error.DuplicateMember?
  {
    if StrictPadded(p) {
      WholeText(p, true);
    } else {
      WholeText(p, false);
      PaddedAgrees(PaddedText(p));
      NotAccepted(p);
    }
  }

  lemma NotAccepted(p: Padded)
    requires GoodPadded(p) && !StrictPadded(p)
    ensures StrictParse(PaddedText(p)).Err?
  {
    if StrictParse(PaddedText(p)).Ok? {
      var q := AcceptedIsSpelled(PaddedText(p));
      Unambiguous(p, q);
      assert false;
    }
  }

  // ---- repeated names ----

  function NameOf(e: Entry): Text { PiecesValue(e.name) }

  /** No two members have the same name, unless it is __proto__. */
  ghost predicate NoneRepeats(entries: seq<Entry>) {
    forall i, j | 0 <= i < j < |entries| :: NameOf(entries[i]) == NameOf(entries[j]) ==> NameOf(entries[i]) == PROTO
  }

  ghost predicate NoneSeen(entries: seq<Entry>, seen: set<Text>) { forall i | 0 <= i < |entries| :: NameOf(entries[i]) !in seen }

  ghost predicate EachStrict(entries: seq<Entry>) { forall i | 0 <= i < |entries| :: StrictEntry(entries[i]) }

  lemma SeenSplits(entries: seq<Entry>, seen: set<Text>)
    requires entries != []
    ensures NoneSeen(entries, seen) && NoneRepeats(entries)
       <==> NameOf(entries[0]) !in seen && NoneSeen(entries[1..], seen + Taken(NameOf(entries[0]))) && NoneRepeats(entries[1..])
  {
    var t := entries[1..];
    if NoneSeen(entries, seen) && NoneRepeats(entries) {
      forall i | 0 <= i < |t| ensures NameOf(t[i]) !in seen + Taken(NameOf(entries[0])) {
        assert t[i] == entries[i + 1];
      }
      assert NoneRepeats(t);
    }
    if NameOf(entries[0]) !in seen && NoneSeen(t, seen + Taken(NameOf(entries[0]))) && NoneRepeats(t) {
      forall i | 0 <= i < |entries| ensures NameOf(entries[i]) !in seen {
        if i > 0 { assert entries[i] == t[i - 1]; }
      }
      forall i, j | 0 <= i < j < |entries| && NameOf(entries[i]) == NameOf(entries[j]) ensures NameOf(entries[i]) == PROTO {
        assert entries[j] == t[j - 1];
        if i > 0 { assert entries[i] == t[i - 1]; }
      }
    }
  }

  lemma EachSplits(entries: seq<Entry>)
    requires entries != []
    ensures EachStrict(entries) <==> StrictEntry(entries[0]) && EachStrict(entries[1..])
  {
    forall i | 0 < i < |entries| ensures entries[i] == entries[1..][i - 1] {
    }
    if StrictEntry(entries[0]) && EachStrict(entries[1..]) {
      forall i | 0 <= i < |entries| ensures StrictEntry(entries[i]) {
        if i > 0 { assert entries[i] == entries[1..][i - 1]; }
      }
    }
  }

  lemma {:induction false} StrictEntriesMean(entries: seq<Entry>, seen: set<Text>)
    ensures StrictEntries(entries, seen) <==> NoneSeen(entries, seen) && NoneRepeats(entries) && EachStrict(entries)
    decreases entries
  {
    if entries != [] {
      StrictEntriesMean(entries[1..], seen + Taken(NameOf(entries[0])));
      SeenSplits(entries, seen);
      EachSplits(entries);
    }
  }

  /** What the parser's duplicate check amounts to: within one object, only __proto__ may come twice. */
  lemma StrictMeans(blank: Text, entries: seq<Entry>)
    ensures Strict(FObject(blank, entries)) <==> NoneRepeats(entries) && EachStrict(entries)
  {
    StrictEntriesMean(entries, {});
  }

  function Plainly(s: Text): seq<Piece> { seq(|s|, i requires 0 <= i < |s| => Plain(s[i])) }

  function ProtoEntry(digit: Unit): Entry
  {
    Entry([], Plainly(PROTO), [], Padded([], FNumber(Number(false, [digit], [], None)), []))
  }

  lemma ProtoSpelled(entries: seq<Entry>)
    requires entries == [ProtoEntry(49), ProtoEntry(50)]
    ensures GoodEntries(entries) && Strict(FObject([], entries))
  {
    assert entries[1..] == [ProtoEntry(50)] && entries[1..][1..] == [];
    assert PiecesValue(Plainly(PROTO)) == PROTO;
    assert GoodEntry(ProtoEntry(49)) && GoodEntry(ProtoEntry(50));
    StrictMeans([], entries);
  }

  lemma ProtoVanishes(entries: seq<Entry>)
    requires entries == [ProtoEntry(49), ProtoEntry(50)]
    ensures MeaningEntries(entries) == []
  {
    assert PiecesValue(Plainly(PROTO)) == PROTO;
    assert entries[..1] == [ProtoEntry(49)] && entries[..1][..0] == [];
    assert MeaningEntries(entries[..1]) == [];
  }

  /** {"__proto__":1,"__proto__":2} repeats a name and is accepted all the same, as the empty object. */
  lemma ProtoRepeats()
    ensures var p := Padded([], FObject([], [ProtoEntry(49), ProtoEntry(50)]), []);
            && GoodPadded(p) && NameOf(p.form.entries[0]) == NameOf(p.form.entries[1])
            && StrictParse(PaddedText(p)) == Ok(Obj([]))
  {
    ProtoSpelled([ProtoEntry(49), ProtoEntry(50)]);
    ProtoVanishes([ProtoEntry(49), ProtoEntry(50)]);
    SpelledIsAccepted(Padded([], FObject([], [ProtoEntry(49), ProtoEntry(50)]), []));
  }
}
