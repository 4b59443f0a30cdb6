/**
 * Printing values the way JSON.stringify does, sorted by member name: what is printed is read back as the
 * value, and two values print alike exactly when they differ in the order of their members only.
 */
module CanonicalJson {
  import opened Wrappers
  import opened Octets
  import opened Sorting
  import opened JsonLexical
  import opened StrictJson
  import opened JsonCursor
  import opened JsonLaws

  // ---- strings ----

  predicate IsLead(u: Unit) { 0xD800 <= u <= 0xDBFF }
  predicate IsTrail(u: Unit) { 0xDC00 <= u <= 0xDFFF }

  /** A surrogate with no partner beside it. */
  predicate IsLone(s: Text, i: nat)
    requires i < |s|
  {
    || (IsLead(s[i]) && !(i + 1 < |s| && IsTrail(s[i + 1])))
    || (IsTrail(s[i]) && !(i > 0 && IsLead(s[i - 1])))
  }

  function HexDigit(d: nat): Unit
    requires d < 16
  {
    if d < 10 then 48 + d else 87 + d
  }

  lemma HexDigitBack(d: nat)
    requires d < 16
    ensures IsHexDigit(HexDigit(d)) && HexDigitValue(HexDigit(d)) == d
  {
  }

  function HexDigits(u: Unit): Text {
    [HexDigit(u / 16 / 16 / 16), HexDigit(u / 16 / 16 % 16), HexDigit(u / 16 % 16), HexDigit(u % 16)]
  }

  lemma HexDigitsValue(u: Unit)
    ensures IsHex4(HexDigits(u)) && HexValue(HexDigits(u)) == u
  {
    var a := u / 16;
    var b := a / 16;
    HexDigitBack(b / 16);
    HexDigitBack(b % 16);
    HexDigitBack(a % 16);
    HexDigitBack(u % 16);
    HexSum(u, HexDigits(u), b / 16, b % 16, a % 16, u % 16);
  }

  lemma HexSum(u: Unit, s: Text, d3: nat, d2: nat, d1: nat, d0: nat)
    requires IsHex4(s) && u == (((d3 * 16) + d2) * 16 + d1) * 16 + d0
    requires HexDigitValue(s[0]) == d3 && HexDigitValue(s[1]) == d2 && HexDigitValue(s[2]) == d1 && HexDigitValue(s[3]) == d0
    ensures HexValue(s) == u
  {
  }

  function QuoteUnit(s: Text, i: nat): Piece
    requires i < |s|
  {
    if s[i] == 34 || s[i] == 92 then Escaped(s[i])
    else if s[i] == 8 then Escaped(98)
    else if s[i] == 12 then Escaped(102)
    else if s[i] == 10 then Escaped(110)
    else if s[i] == 13 then Escaped(114)
    else if s[i] == 9 then Escaped(116)
    else if s[i] < 32 || IsLone(s, i) then Hex(HexDigits(s[i]))
    else Plain(s[i])
  }

  function Quote(s: Text): seq<Piece> { seq(|s|, i requires 0 <= i < |s| => QuoteUnit(s, i)) }

  lemma QuoteValue(s: Text)
    ensures GoodPieces(Quote(s)) && PiecesValue(Quote(s)) == s
  {
    forall i | 0 <= i < |s| ensures GoodPiece(Quote(s)[i]) && PieceValue(Quote(s)[i]) == s[i] {
      QuoteUnitValue(s, i);
    }
  }

  lemma QuoteUnitValue(s: Text, i: nat)
    requires i < |s|
    ensures GoodPiece(QuoteUnit(s, i)) && PieceValue(QuoteUnit(s, i)) == s[i]
  {
    HexDigitsValue(s[i]);
  }

  // ---- values ----

  function Spell(v: Json): Form
    decreases v
  {
    match v
    case Null => FNull
    case Bool(b) => if b then FTrue else FFalse
    case Num(n) => FNumber(n)
    case Str(s) => FString(Quote(s))
    case Arr(items) => FArray([], seq(|items|, i requires 0 <= i < |items| => Padded([], Spell(items[i]), [])))
    case Obj(members) =>
      FObject([], seq(|members|, i requires 0 <= i < |members| => Entry([], Quote(members[i].name), [], Padded([], Spell(members[i].value), []))))
  }

  /** JSON.stringify with no indentation. */
  function Serialize(v: Json): Text { PaddedText(Padded([], Spell(v), [])) }

  /** A value the parser can return: numbers are number lexemes, and no object repeats a name or has one called __proto__. */
  ghost predicate Proper(v: Json)
    decreases v
  {
    match v
    case Num(n) => GoodNumber(n)
    case Arr(items) => forall i | 0 <= i < |items| :: Proper(items[i])
    case Obj(members) => DistinctNames(members) && forall i | 0 <= i < |members| :: members[i].name != PROTO && Proper(members[i].value)
    case _ => true
  }

  ghost predicate DistinctNames(members: seq<Member>) {
    forall i, j | 0 <= i < j < |members| :: members[i].name != members[j].name
  }

  lemma {:induction false} ItemsMeanEach(items: seq<Padded>)
    ensures |MeaningItems(items)| == |items|
    ensures forall i | 0 <= i < |items| :: MeaningItems(items)[i] == Meaning(items[i].form)
  {
    if items != [] { ItemsMeanEach(items[..|items| - 1]); }
  }

  lemma {:induction false} ItemsGoodEach(items: seq<Padded>)
    requires forall i | 0 <= i < |items| :: GoodPadded(items[i]) && StrictPadded(items[i])
    ensures GoodItems(items) && StrictItems(items)
  {
    if items != [] {
      forall i | 0 <= i < |items[1..]| ensures GoodPadded(items[1..][i]) && StrictPadded(items[1..][i]) {
        assert items[1..][i] == items[i + 1];
      }
      ItemsGoodEach(items[1..]);
    }
  }

  lemma {:induction false} EntriesMeanEach(entries: seq<Entry>)
    requires forall i | 0 <= i < |entries| :: NameOf(entries[i]) != PROTO
    ensures |MeaningEntries(entries)| == |entries|
    ensures forall i | 0 <= i < |entries| :: MeaningEntries(entries)[i] == Member(NameOf(entries[i]), Meaning(entries[i].value.form))
  {
    if entries != [] { EntriesMeanEach(entries[..|entries| - 1]); }
  }

  lemma {:induction false} EntriesGoodEach(entries: seq<Entry>)
    requires forall i | 0 <= i < |entries| :: GoodEntry(entries[i])
    ensures GoodEntries(entries)
  {
    if entries != [] {
      forall i | 0 <= i < |entries[1..]| ensures GoodEntry(entries[1..][i]) {
        assert entries[1..][i] == entries[i + 1];
      }
      EntriesGoodEach(entries[1..]);
    }
  }

  /** What is spelled for a value is well spelled, repeats no name and means that value. */
  lemma {:induction false} SpellMeans(v: Json)
    requires Proper(v)
    ensures Good(Spell(v)) && Strict(Spell(v)) && Meaning(Spell(v)) == v
    decreases v
  {
    match v {
      case Str(s) => QuoteValue(s);
      case Arr(items) => SpellItemsMean(v);
      case Obj(members) => SpellMembersMean(v);
      case _ =>
    }
  }

  lemma {:induction false} SpellItemsMean(v: Json)
    requires Proper(v) && v.Arr?
    ensures Good(Spell(v)) && Strict(Spell(v)) && Meaning(Spell(v)) == v
    decreases v, 0
  {
    var items := Spell(v).items;
    forall i | 0 <= i < |items| ensures GoodPadded(items[i]) && StrictPadded(items[i]) && Meaning(items[i].form) == v.items[i] {
      SpellMeans(v.items[i]);
    }
    ItemsMeanEach(items);
    ItemsGoodEach(items);
    assert MeaningItems(items) == v.items;
  }

  lemma {:induction false} SpellMembersMean(v: Json)
    requires Proper(v) && v.Obj?
    ensures Good(Spell(v)) && Strict(Spell(v)) && Meaning(Spell(v)) == v
    decreases v, 0
  {
    var entries := Spell(v).entries;
    forall i | 0 <= i < |entries|
      ensures GoodEntry(entries[i]) && StrictEntry(entries[i])
      ensures NameOf(entries[i]) == v.members[i].name && Meaning(entries[i].value.form) == v.members[i].value
    {
      SpellMeans(v.members[i].value);
      QuoteValue(v.members[i].name);
    }
    EntriesMeanEach(entries);
    EntriesGoodEach(entries);
    StrictMeans([], entries);
    assert MeaningEntries(entries) == v.members;
  }

  /** Parsing what is printed gives the value back. */
  lemma RoundTrip(v: Json)
    requires Proper(v)
    ensures StrictParse(Serialize(v)) == Ok(v)
  {
    SpellMeans(v);
    SpelledIsAccepted(Padded([], Spell(v), []));
  }

  /** Different values print differently. */
  lemma SerializeInjective(v: Json, w: Json)
    requires Proper(v) && Proper(w) && Serialize(v) == Serialize(w)
    ensures v == w
  {
    RoundTrip(v);
    RoundTrip(w);
  }

  lemma {:induction false} EachItemGood(items: seq<Padded>, i: nat)
    requires GoodItems(items) && StrictItems(items) && i < |items|
    ensures Good(items[i].form) && Strict(items[i].form)
  {
    if i > 0 { EachItemGood(items[1..], i - 1); }
  }

  lemma {:induction false} EachEntryGood(entries: seq<Entry>, i: nat)
    requires GoodEntries(entries) && i < |entries|
    ensures GoodEntry(entries[i])
  {
    if i > 0 { EachEntryGood(entries[1..], i - 1); }
  }

  /** Every own member comes from an entry. */
  lemma {:induction false} MemberOf(entries: seq<Entry>, k: nat) returns (i: nat)
    requires k < |MeaningEntries(entries)|
    ensures i < |entries| && NameOf(entries[i]) != PROTO
    ensures MeaningEntries(entries)[k] == Member(NameOf(entries[i]), Meaning(entries[i].value.form))
  {
    var init, last := entries[..|entries| - 1], entries[|entries| - 1];
    assert MeaningEntries(entries) == MeaningEntries(init) + OwnMember(NameOf(last), Meaning(last.value.form));
    if k < |MeaningEntries(init)| {
      i := MemberOf(init, k);
    } else {
      i := |entries| - 1;
    }
  }

  lemma {:induction false} OwnNamesDistinct(entries: seq<Entry>)
    requires NoneRepeats(entries)
    ensures DistinctNames(MeaningEntries(entries))
  {
    if entries != [] {
      var n := |entries| - 1;
      var init, all := MeaningEntries(entries[..n]), MeaningEntries(entries);
      OwnNamesDistinct(entries[..n]);
      forall i, j | 0 <= i < j < |all| ensures all[i].name != all[j].name {
        if j == |init| { var k := MemberOf(entries[..n], i); }
      }
    }
  }

  /** What a well-spelled form without repeated names means is a value the parser can return. */
  lemma {:induction false} MeaningProper(f: Form)
    requires Good(f) && Strict(f)
    ensures Proper(Meaning(f))
    decreases f, 1
  {
    if f.FArray? {
      ItemsMeanEach(f.items);
      forall i | 0 <= i < |f.items| ensures Proper(Meaning(f.items[i].form)) {
        EachItemGood(f.items, i);
        MeaningProper(f.items[i].form);
      }
    }
    if f.FObject? { ObjectProper(f); }
  }

  lemma ObjectProper(f: Form)
    requires Good(f) && Strict(f) && f.FObject?
    ensures Proper(Meaning(f))
    decreases f, 0
  {
    StrictMeans(f.blank, f.entries);
    OwnNamesDistinct(f.entries);
    var members := MeaningEntries(f.entries);
    forall k | 0 <= k < |members| ensures members[k].name != PROTO && Proper(members[k].value) {
      var i := MemberOf(f.entries, k);
      EachEntryGood(f.entries, i);
      assert StrictEntry(f.entries[i]);
      PaddedProper(f.entries[i].value);
    }
  }

  lemma PaddedProper(p: Padded)
    requires GoodPadded(p) && StrictPadded(p)
    ensures Proper(Meaning(p.form))
    decreases p, 1
  {
    MeaningProper(p.form);
  }

  lemma AcceptedProper(text: Text, v: Json)
    requires StrictParse(text) == Ok(v)
    ensures Proper(v)
  {
    var p := AcceptedIsSpelled(text);
    PaddedProper(p);
  }

  /** The values the parser returns are exactly the proper ones. */
  lemma ReturnedIsProper(v: Json)
    ensures Proper(v) <==> exists text :: StrictParse(text) == Ok(v)
  {
    if Proper(v) { RoundTrip(v); }
    forall text | StrictParse(text) == Ok(v) ensures Proper(v) {
      AcceptedProper(text, v);
    }
  }

  // ---- the sorted form ----

  /** Which of two names is enumerated first. */
  type NameOrder = (Text, Text) -> bool

  ghost predicate TotalOrder(less: NameOrder) {
    && (forall a :: !less(a, a))
    && (forall a, b, c :: less(a, b) && less(b, c) ==> less(a, c))
    && (forall a, b :: a != b ==> less(a, b) || less(b, a))
  }

  /** The order of code units, in which names are sorted. */
  predicate UnitsLess(a: Text, b: Text) {
    if b == [] then false
    else if a == [] then true
    else a[0] < b[0] || (a[0] == b[0] && UnitsLess(a[1..], b[1..]))
  }

  lemma {:induction false} UnitsIrreflexive(a: Text)
    ensures !UnitsLess(a, a)
  {
    if a != [] { UnitsIrreflexive(a[1..]); }
  }

  lemma {:induction false} UnitsTransitive(a: Text, b: Text, c: Text)
    requires UnitsLess(a, b) && UnitsLess(b, c)
    ensures UnitsLess(a, c)
  {
    if a != [] && a[0] == b[0] && b[0] == c[0] { UnitsTransitive(a[1..], b[1..], c[1..]); }
  }

  lemma {:induction false} UnitsTotal(a: Text, b: Text)
    requires a != b
    ensures UnitsLess(a, b) || UnitsLess(b, a)
  {
    if a != [] && b != [] && a[0] == b[0] {
      assert a == [a[0]] + a[1..] && b == [b[0]] + b[1..];
      UnitsTotal(a[1..], b[1..]);
    }
  }

  /** Code unit order is one of the orders the canonical laws hold for. */
  lemma UnitsOrder()
    ensures TotalOrder(UnitsLess)
  {
    forall a ensures !UnitsLess(a, a) {
      UnitsIrreflexive(a);
    }
    forall a, b, c | UnitsLess(a, b) && UnitsLess(b, c) ensures UnitsLess(a, c) {
      UnitsTransitive(a, b, c);
    }
    forall a, b | a != b ensures UnitsLess(a, b) || UnitsLess(b, a) {
      UnitsTotal(a, b);
    }
  }

  function ByName(less: NameOrder): (Member, Member) -> bool { (m: Member, n: Member) => less(m.name, n.name) }

  /** The value with the members of every object in the order of their names. */
  function Canonical(less: NameOrder, v: Json): Json
    decreases v
  {
    match v
    case Arr(items) => Arr(seq(|items|, i requires 0 <= i < |items| => Canonical(less, items[i])))
    case Obj(members) =>
      Obj(Sort(ByName(less), seq(|members|, i requires 0 <= i < |members| => Member(members[i].name, Canonical(less, members[i].value)))))
    case _ => v
  }

  /** The first member with this name; past the end if there is none. */
  function IndexOf(members: seq<Member>, name: Text): (r: nat)
    ensures r <= |members| && (r < |members| ==> members[r].name == name)
  {
    if members == [] || members[0].name == name then 0 else 1 + IndexOf(members[1..], name)
  }

  /** Equal up to the order of members, at every depth. */
  ghost predicate Same(v: Json, w: Json)
    decreases v
  {
    match v
    case Arr(items) => w.Arr? && |w.items| == |items| && forall i | 0 <= i < |items| :: Same(items[i], w.items[i])
    case Obj(members) =>
      && w.Obj? && Names(members) == Names(w.members)
      && forall i | 0 <= i < |members| ::
           IndexOf(w.members, members[i].name) < |w.members| && Same(members[i].value, w.members[IndexOf(w.members, members[i].name)].value)
    case _ => w == v
  }

  lemma {:induction false} IndexOfDistinct(members: seq<Member>, j: nat)
    requires DistinctNames(members) && j < |members|
    ensures IndexOf(members, members[j].name) == j
  {
    if j > 0 {
      assert members[0].name != members[j].name;
      assert DistinctNames(members[1..]);
      IndexOfDistinct(members[1..], j - 1);
    }
  }

  function Unsorted(less: NameOrder, members: seq<Member>): (r: seq<Member>)
    ensures |r| == |members|
  {
    seq(|members|, i requires 0 <= i < |members| => Member(members[i].name, Canonical(less, members[i].value)))
  }

  lemma ByNameStrict(less: NameOrder)
    requires TotalOrder(less)
    ensures StrictOrder(ByName(less))
  {
    var before := ByName(less);
    forall x ensures !before(x, x) {
      assert !less(x.name, x.name);
    }
    forall x, y, z | before(x, y) && before(y, z) ensures before(x, z) {
      assert less(x.name, y.name) && less(y.name, z.name);
    }
  }

  lemma UnsortedSeparated(less: NameOrder, members: seq<Member>)
    requires TotalOrder(less) && DistinctNames(members)
    ensures Separated(ByName(less), Unsorted(less, members))
  {
    var before, a := ByName(less), Unsorted(less, members);
    forall i, j | 0 <= i < j < |a| ensures before(a[i], a[j]) || before(a[j], a[i]) {
      assert members[i].name != members[j].name;
    }
  }

  lemma CanonicalOf(less: NameOrder, v: Json)
    requires v.Obj?
    ensures Canonical(less, v) == Obj(Sort(ByName(less), Unsorted(less, v.members)))
  {
    assert Unsorted(less, v.members)
        == seq(|v.members|, i requires 0 <= i < |v.members| => Member(v.members[i].name, Canonical(less, v.members[i].value)));
  }

  /** Values that differ in member order only have one sorted form. */
  lemma {:induction false} SameGivesCanonical(less: NameOrder, v: Json, w: Json)
    requires TotalOrder(less) && Proper(v) && Proper(w) && Same(v, w)
    ensures Canonical(less, v) == Canonical(less, w)
    decreases v, 2
  {
    if v.Arr? { SameItems(less, v, w); }
    if v.Obj? { SameMembers(less, v, w); }
  }

  lemma {:induction false} SameItems(less: NameOrder, v: Json, w: Json)
    requires TotalOrder(less) && Proper(v) && Proper(w) && Same(v, w) && v.Arr?
    ensures Canonical(less, v) == Canonical(less, w)
    decreases v, 0
  {
    forall i | 0 <= i < |v.items| ensures Canonical(less, v.items[i]) == Canonical(less, w.items[i]) {
      SameGivesCanonical(less, v.items[i], w.items[i]);
    }
  }

  lemma {:induction false} SameMembers(less: NameOrder, v: Json, w: Json)
    requires TotalOrder(less) && Proper(v) && Proper(w) && Same(v, w) && v.Obj?
    ensures Canonical(less, v) == Canonical(less, w)
    decreases v, 1
  {
    forall i | 0 <= i < |v.members| ensures Unsorted(less, v.members)[i] in Unsorted(less, w.members) {
      MemberThere(less, v, w, i);
    }
    forall j | 0 <= j < |w.members| ensures Unsorted(less, w.members)[j] in Unsorted(less, v.members) {
      MemberBack(less, v, w, j);
    }
    SortedAlike(less, v.members, w.members);
    CanonicalOf(less, v);
    CanonicalOf(less, w);
  }

  lemma MemberThere(less: NameOrder, v: Json, w: Json, i: nat)
    requires TotalOrder(less) && Proper(v) && Proper(w) && Same(v, w) && v.Obj? && i < |v.members|
    ensures Unsorted(less, v.members)[i] in Unsorted(less, w.members)
    decreases v, 0
  {
    var j := IndexOf(w.members, v.members[i].name);
    SameGivesCanonical(less, v.members[i].value, w.members[j].value);
    assert Unsorted(less, w.members)[j] == Unsorted(less, v.members)[i];
  }

  lemma MemberBack(less: NameOrder, v: Json, w: Json, j: nat)
    requires TotalOrder(less) && Proper(v) && Proper(w) && Same(v, w) && v.Obj? && j < |w.members|
    ensures Unsorted(less, w.members)[j] in Unsorted(less, v.members)
    decreases v, 0
  {
    var i := Named(v.members, w.members, j);
    IndexOfDistinct(w.members, j);
    SameGivesCanonical(less, v.members[i].value, w.members[j].value);
    assert Unsorted(less, v.members)[i] == Unsorted(less, w.members)[j];
  }

  lemma Named(members: seq<Member>, others: seq<Member>, j: nat) returns (i: nat)
    requires Names(members) == Names(others) && j < |others|
    ensures i < |members| && members[i].name == others[j].name
  {
    assert others[j].name in Names(members);
    i :| 0 <= i < |members| && members[i].name == others[j].name;
  }

  lemma SortedAlike(less: NameOrder, members: seq<Member>, others: seq<Member>)
    requires TotalOrder(less) && DistinctNames(members) && DistinctNames(others)
    requires forall i | 0 <= i < |members| :: Unsorted(less, members)[i] in Unsorted(less, others)
    requires forall j | 0 <= j < |others| :: Unsorted(less, others)[j] in Unsorted(less, members)
    ensures Sort(ByName(less), Unsorted(less, members)) == Sort(ByName(less), Unsorted(less, others))
  {
    ByNameStrict(less);
    UnsortedSeparated(less, members);
    UnsortedSeparated(less, others);
    var a, b := Unsorted(less, members), Unsorted(less, others);
    forall x ensures x in a <==> x in b {
      if x in a { var i :| 0 <= i < |a| && a[i] == x; }
      if x in b { var j :| 0 <= j < |b| && b[j] == x; }
    }
    SortUnique(ByName(less), a, b);
  }

  lemma SortedHas(less: NameOrder, v: Json, w: Json, i: nat) returns (j: nat)
    requires v.Obj? && w.Obj? && Canonical(less, v) == Canonical(less, w) && i < |v.members|
    ensures j < |w.members| && w.members[j].name == v.members[i].name
    ensures Canonical(less, w.members[j].value) == Canonical(less, v.members[i].value)
  {
    var a, b := Unsorted(less, v.members), Unsorted(less, w.members);
    CanonicalOf(less, v);
    CanonicalOf(less, w);
    SortMembers(ByName(less), a);
    SortMembers(ByName(less), b);
    assert a[i] in a;
    assert a[i] in b;
    j :| 0 <= j < |b| && b[j] == a[i];
  }

  /** Values with one sorted form differ in member order only. */
  lemma {:induction false} CanonicalGivesSame(less: NameOrder, v: Json, w: Json)
    requires Proper(v) && Proper(w) && Canonical(less, v) == Canonical(less, w)
    ensures Same(v, w)
    decreases v, 1
  {
    if v.Arr? { CanonicalItems(less, v, w); }
    if v.Obj? { CanonicalMembers(less, v, w); }
  }

  lemma {:induction false} CanonicalItems(less: NameOrder, v: Json, w: Json)
    requires Proper(v) && Proper(w) && Canonical(less, v) == Canonical(less, w) && v.Arr?
    ensures Same(v, w)
    decreases v, 0
  {
    assert |Canonical(less, v).items| == |v.items| && w.Arr? && |Canonical(less, w).items| == |w.items|;
    forall i | 0 <= i < |v.items| ensures Same(v.items[i], w.items[i]) {
      assert Canonical(less, v).items[i] == Canonical(less, w).items[i];
      CanonicalGivesSame(less, v.items[i], w.items[i]);
    }
  }

  lemma {:induction false} CanonicalMembers(less: NameOrder, v: Json, w: Json)
    requires Proper(v) && Proper(w) && Canonical(less, v) == Canonical(less, w) && v.Obj?
    ensures Same(v, w)
    decreases v, 0
  {
    assert w.Obj?;
    forall i | 0 <= i < |v.members|
      ensures v.members[i].name in Names(w.members) && IndexOf(w.members, v.members[i].name) < |w.members|
      ensures Same(v.members[i].value, w.members[IndexOf(w.members, v.members[i].name)].value)
    {
      var j := SortedHas(less, v, w, i);
      IndexOfDistinct(w.members, j);
      CanonicalGivesSame(less, v.members[i].value, w.members[j].value);
    }
    forall j | 0 <= j < |w.members| ensures w.members[j].name in Names(v.members) {
      var i := SortedHas(less, w, v, j);
      assert v.members[i].name == w.members[j].name;
    }
    assert Names(v.members) == Names(w.members);
  }

  lemma {:induction false} CanonicalProper(less: NameOrder, v: Json)
    requires TotalOrder(less) && Proper(v)
    ensures Proper(Canonical(less, v))
    decreases v
  {
    match v {
      case Arr(items) =>
        forall i | 0 <= i < |items| ensures Proper(Canonical(less, v).items[i]) {
          CanonicalProper(less, items[i]);
        }
      case Obj(members) =>
        forall i | 0 <= i < |members| ensures Proper(Canonical(less, members[i].value)) {
          CanonicalProper(less, members[i].value);
        }
        SortedProper(less, v);
      case _ =>
    }
  }

  lemma SortedProper(less: NameOrder, v: Json)
    requires TotalOrder(less) && v.Obj? && Proper(v)
    requires forall i | 0 <= i < |v.members| :: Proper(Canonical(less, v.members[i].value))
    ensures Proper(Canonical(less, v))
  {
    var a := Unsorted(less, v.members);
    var s := Sort(ByName(less), a);
    CanonicalOf(less, v);
    ByNameStrict(less);
    UnsortedSeparated(less, v.members);
    SortAscending(ByName(less), a);
    SortMembers(ByName(less), a);
    forall i | 0 <= i < |s| ensures s[i].name != PROTO && Proper(s[i].value) {
      assert s[i] in a;
      var j :| 0 <= j < |a| && a[j] == s[i];
    }
    forall i, j | 0 <= i < j < |s| ensures s[i].name != s[j].name {
      assert ByName(less)(s[i], s[j]);
    }
  }

  /** The canonical text ignores the order of members and nothing else. */
  lemma CanonicalTextMeans(less: NameOrder, v: Json, w: Json)
    requires TotalOrder(less) && Proper(v) && Proper(w)
    ensures Serialize(Canonical(less, v)) == Serialize(Canonical(less, w)) <==> Same(v, w)
  {
    CanonicalProper(less, v);
    CanonicalProper(less, w);
    if Serialize(Canonical(less, v)) == Serialize(Canonical(less, w)) {
      SerializeInjective(Canonical(less, v), Canonical(less, w));
      CanonicalGivesSame(less, v, w);
    }
    if Same(v, w) { SameGivesCanonical(less, v, w); }
  }
}
