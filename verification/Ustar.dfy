/**
 * Reading and writing plain USTAR archives: the octal fields, a header block read and written, and the
 * trailer that is spliced after an accepted archive's data. Member names are kept as the bytes of their
 * header fields.
 */
module Ustar {
  import opened Wrappers
  import opened Octets
  import opened TarCatalog

  const MAX_ARCHIVE_MEMBERS: nat := 10_000
  const MAX_SAFE_INTEGER: nat := 0x1F_FFFF_FFFF_FFFF

  // ---- numeric fields ----

  function Base256(digits: Bytes): nat {
    if digits == [] then 0 else Base256(digits[..|digits| - 1]) * 256 + digits[|digits| - 1]
  }

  predicate HasLineEnd(s: Bytes) { 10 in s || 13 in s }

  /** Cuts at the first NUL that no line end follows, as the pattern `\0.*$` does. */
  function CutNul(s: Bytes): Bytes {
    if s == [] then []
    else if s[0] == 0 && !HasLineEnd(s) then []
    else [s[0]] + CutNul(s[1..])
  }

  predicate IsSpace(b: Byte) { b == 32 || 9 <= b <= 13 }

  function TrimLeft(s: Bytes): Bytes { if s != [] && IsSpace(s[0]) then TrimLeft(s[1..]) else s }

  function TrimRight(s: Bytes): Bytes { if s != [] && IsSpace(s[|s| - 1]) then TrimRight(s[..|s| - 1]) else s }

  predicate IsOctal(s: Bytes) { forall i | 0 <= i < |s| :: 48 <= s[i] <= 55 }

  function OctalValue(s: Bytes): nat
    requires IsOctal(s)
  {
    if s == [] then 0 else OctalValue(s[..|s| - 1]) * 8 + (s[|s| - 1] - 48)
  }

  function LowBits(s: Bytes): (r: Bytes)
    ensures |r| == |s|
    ensures forall i | 0 <= i < |s| :: r[i] == s[i] % 128
  {
    seq(|s|, i requires 0 <= i < |s| => s[i] % 128)
  }

  /** Classic octal text or, with the high bit set, base 256. */
  function ParseOctalField(field: Bytes): Result<nat, Error>
    requires |field| > 0
  {
    if field[0] >= 128 then
      var value := Base256([field[0] - 128] + field[1..]);
      if value > MAX_SAFE_INTEGER then Err(OversizedField) else Ok(value)
    else
      var text := TrimRight(TrimLeft(CutNul(LowBits(field))));
      if IsOctal(text) then Ok(OctalValue(text)) else Err(InvalidField)
  }

  /** The octal digits of `n`, at least one. */
  function ToOctal(n: nat): (r: Bytes)
    ensures |r| > 0 && IsOctal(r)
    decreases n
  {
    if n < 8 then [48 + n] else ToOctal(n / 8) + [48 + n % 8]
  }

  function PadStart(s: Bytes, width: nat): (r: Bytes)
    ensures IsOctal(s) ==> IsOctal(r)
    decreases width - |s|
  {
    if |s| >= width then s else PadStart([48] + s, width)
  }

  function Power8(k: nat): nat { if k == 0 then 1 else 8 * Power8(k - 1) }

  lemma {:induction false} ToOctalValue(n: nat)
    ensures OctalValue(ToOctal(n)) == n
    decreases n
  {
    if n >= 8 {
      ToOctalValue(n / 8);
      assert ToOctal(n)[..|ToOctal(n)| - 1] == ToOctal(n / 8);
    }
  }

  lemma {:induction false} ToOctalLength(n: nat, k: nat)
    requires k > 0 && n < Power8(k)
    ensures |ToOctal(n)| <= k
    decreases k
  {
    if n >= 8 {
      assert Power8(1) == 8 * Power8(0);
      ToOctalLength(n / 8, k - 1);
    }
  }

  lemma {:induction false} LeadingZero(s: Bytes)
    requires IsOctal(s)
    ensures IsOctal([48] + s) && OctalValue([48] + s) == OctalValue(s)
  {
    var t := [48] + s;
    if s != [] {
      LeadingZero(s[..|s| - 1]);
      assert t[..|t| - 1] == [48] + s[..|s| - 1];
    }
  }

  lemma {:induction false} PadStartValue(s: Bytes, width: nat)
    requires IsOctal(s) && |s| <= width
    ensures |PadStart(s, width)| == width && OctalValue(PadStart(s, width)) == OctalValue(s)
    decreases width - |s|
  {
    if |s| < width {
      LeadingZero(s);
      PadStartValue([48] + s, width);
    }
  }

  /** An 11-digit size field: the digits and a NUL. */
  function SizeField(size: nat): Bytes { PadStart(ToOctal(size), 11) + [0] }

  lemma {:induction false} CutTerminated(s: Bytes)
    requires IsOctal(s)
    ensures CutNul(s + [0]) == s
  {
    var t := s + [0];
    if s == [] {
      assert t == [0] && CutNul(t) == [];
    } else {
      CutTerminated(s[1..]);
      assert t[0] == s[0] && t[1..] == s[1..] + [0];
      assert CutNul(t) == [t[0]] + CutNul(t[1..]);
    }
  }

  lemma DigitsUnchanged(digits: Bytes)
    requires IsOctal(digits)
    ensures LowBits(digits + [0]) == digits + [0]
  {
  }

  /** Printing and parsing a size undo each other for every size below 8^11. */
  lemma OctalRoundTrip(size: nat)
    requires size < Power8(11)
    ensures |SizeField(size)| == 12 && ParseOctalField(SizeField(size)) == Ok(size)
  {
    var digits := PadStart(ToOctal(size), 11);
    ToOctalLength(size, 11);
    PadStartValue(ToOctal(size), 11);
    ToOctalValue(size);
    DigitsUnchanged(digits);
    CutTerminated(digits);
  }

  // ---- one header ----

  function IndexOfNul(s: Bytes): (n: nat)
    ensures n <= |s| && (forall i | 0 <= i < n :: s[i] != 0) && (n < |s| ==> s[n] == 0)
  {
    if s == [] || s[0] == 0 then 0 else 1 + IndexOfNul(s[1..])
  }

  function FieldString(s: Bytes): Bytes { s[..IndexOfNul(s)] }

  predicate HasDotDot(s: Bytes) { exists i :: 0 <= i < |s| - 1 && s[i] == 46 && s[i + 1] == 46 }

  function StripSlashes(s: Bytes): Bytes { if s != [] && s[|s| - 1] == 47 then StripSlashes(s[..|s| - 1]) else s }

  function NameOf(header: Bytes): Bytes
    requires |header| == BLOCK
  {
    var prefix, raw := FieldString(header[345..500]), FieldString(header[0..100]);
    if prefix != [] then prefix + [47] + raw else raw
  }

  /** A header block at `dataOffset - BLOCK` as a member, with the source's checks in the source's order. */
  function ParseHeader(header: Bytes, dataOffset: nat, count: nat, maxBytes: nat): (r: Result<Member, Error>)
    requires |header| == BLOCK
    ensures r.Ok? ==> r.value.dataOffset == dataOffset && (r.value.isFile || r.value.isDir) && (r.value.isFile ==> r.value.size <= maxBytes)
  {
    if LowBits(header[257..262]) != [117, 115, 116, 97, 114] then Err(NotUstar)
    else
      var typeflag := header[156];
      if typeflag == 120 || typeflag == 103 || typeflag == 76 || typeflag == 75 then Err(UnsupportedExtension)
      else
        var name, size := NameOf(header), ParseOctalField(header[124..136]);
        if size.Err? then Err(size.error)
        else if name == [] || 0 in name || name[0] == 47 || HasDotDot(name) || |name| > 1024 then Err(InvalidNameOrSize)
        else if count >= MAX_ARCHIVE_MEMBERS then Err(TooManyMembers)
        else
          var isDir := typeflag == 53 || name[|name| - 1] == 47;
          var isFile := typeflag == 48 || typeflag == 0;
          if !isDir && !isFile then Err(NotFileOrDirectory)
          else if isFile && size.value > maxBytes then Err(MemberTooLarge)
          else
            var stripped := StripSlashes(name);
            Ok(Member(if stripped != [] then stripped else name, size.value, isFile, isDir, dataOffset))
  }

  // ---- the catalog ----

  function HeaderReader(maxBytes: nat): Reader {
    (header: Bytes, dataOffset: nat, count: nat) =>
      if |header| != BLOCK then Err(TruncatedHeader) else ParseHeader(header, dataOffset, count, maxBytes)
  }

  lemma HeaderReaderHonest(maxBytes: nat)
    ensures Honest(HeaderReader(maxBytes))
  {
    forall header, dataOffset, count | HeaderReader(maxBytes)(header, dataOffset, count).Ok?
      ensures HeaderReader(maxBytes)(header, dataOffset, count).value.dataOffset == dataOffset && |header| == BLOCK
    {
      HonestHeader(header, dataOffset, count, maxBytes);
    }
  }

  lemma HonestHeader(header: Bytes, dataOffset: nat, count: nat, maxBytes: nat)
    ensures var r := HeaderReader(maxBytes)(header, dataOffset, count);
            r.Ok? ==> r.value.dataOffset == dataOffset && |header| == BLOCK
  {
    if |header| == BLOCK {
      var r := ParseHeader(header, dataOffset, count, maxBytes);
      assert HeaderReader(maxBytes)(header, dataOffset, count) == r;
    }
  }

  method CatalogTarMembers(file: Bytes, maxBytes: nat) returns (r: Result<Catalog, Error>)
    ensures r == CatalogFrom(HeaderReader(maxBytes), file, 0, [])
  {
    r := CatalogWith(file, HeaderReader(maxBytes));
  }

  method CatalogWith(file: Bytes, read: Reader) returns (r: Result<Catalog, Error>)
    ensures r == CatalogFrom(read, file, 0, [])
  {
    var members: seq<Member> := [];
    var offset := 0;
    while offset < |file|
      invariant CatalogFrom(read, file, offset, members) == CatalogFrom(read, file, 0, [])
      decreases |file| - offset
    {
      var header := BlockAt(file, offset);
      offset := offset + BLOCK;
      if IsZeroBlock(header) {
        return Ok(Catalog(members, offset - BLOCK));
      }
      var member := read(header, offset, |members|);
      if member.Err? { return Err(member.error); }
      members := members + [member.value];
      offset := offset + Padded(member.value.size);
    }
    r := Err(MissingEnd);
  }

  /** What the catalog accepts: members that tile `[0, dataEnd)` inside the file, no two overlapping, then a zero block. */
  lemma AcceptedArchive(file: Bytes, maxBytes: nat, c: Catalog)
    requires CatalogFrom(HeaderReader(maxBytes), file, 0, []) == Ok(c)
    ensures Tiles(c.members, 0, c.dataEnd) && c.dataEnd + BLOCK <= |file| && IsZeroBlock(file[c.dataEnd..c.dataEnd + BLOCK])
    ensures forall i | 0 <= i < |c.members| :: c.members[i].dataOffset + c.members[i].size <= c.dataEnd
    ensures forall i, j | 0 <= i < j < |c.members| :: c.members[i].dataOffset + c.members[i].size <= c.members[j].dataOffset - BLOCK
  {
    HeaderReaderHonest(maxBytes);
    CatalogTiles(HeaderReader(maxBytes), file, 0, [], c);
    Apart(c);
  }

  lemma Apart(c: Catalog)
    requires Tiles(c.members, 0, c.dataEnd)
    ensures forall i | 0 <= i < |c.members| :: c.members[i].dataOffset + c.members[i].size <= c.dataEnd
    ensures forall i, j | 0 <= i < j < |c.members| :: c.members[i].dataOffset + c.members[i].size <= c.members[j].dataOffset - BLOCK
  {
    forall i | 0 <= i < |c.members| ensures c.members[i].dataOffset + c.members[i].size <= c.dataEnd {
      TiledWithin(c.members, 0, c.dataEnd, i);
    }
    forall i, j | 0 <= i < j < |c.members| ensures c.members[i].dataOffset + c.members[i].size <= c.members[j].dataOffset - BLOCK {
      TiledApart(c.members, 0, c.dataEnd, i, j);
    }
  }

  // ---- the trailer ----

  /** `header.write(s, at)`. */
  function Overwrite(header: Bytes, at: nat, s: Bytes): (r: Bytes)
    requires at + |s| <= |header|
    ensures |r| == |header|
    ensures forall i | 0 <= i < |header| :: r[i] == if at <= i < at + |s| then s[i - at] else header[i]
  {
    header[..at] + s + header[at + |s|..]
  }

  function Sum(s: Bytes): nat { if s == [] then 0 else Sum(s[..|s| - 1]) + s[|s| - 1] }

  lemma {:induction false} SumBound(s: Bytes)
    ensures Sum(s) <= 255 * |s|
  {
    if s != [] { SumBound(s[..|s| - 1]); }
  }

  /** The header before its checksum: eight blanks stand in for it. */
  function Unsummed(name: Bytes, size: nat): (r: Bytes)
    requires |name| <= 100 && |SizeField(size)| == 12
    ensures |r| == BLOCK
  {
    var h := Overwrite(Zeros(BLOCK), 0, name);
    var h := Overwrite(h, 100, [48, 48, 48, 48, 54, 52, 52, 0]);
    var h := Overwrite(h, 108, [48, 48, 48, 48, 48, 48, 48, 0]);
    var h := Overwrite(h, 116, [48, 48, 48, 48, 48, 48, 48, 0]);
    var h := Overwrite(h, 124, SizeField(size));
    var h := Overwrite(h, 136, [48, 48, 48, 48, 48, 48, 48, 48, 48, 48, 48, 0]);
    var h := Overwrite(h, 148, [32, 32, 32, 32, 32, 32, 32, 32]);
    var h := Overwrite(h, 156, [48]);
    var h := Overwrite(h, 257, [117, 115, 116, 97, 114, 0]);
    Overwrite(h, 263, [48, 48])
  }

  function Checksum(header: Bytes): Bytes { PadStart(ToOctal(Sum(header)), 6) + [0, 32] }

  predicate Printable(name: Bytes, size: nat) { |name| < 100 && size < Power8(11) }

  lemma FieldWidths(name: Bytes, size: nat)
    requires Printable(name, size)
    ensures |SizeField(size)| == 12 && |Checksum(Unsummed(name, size))| == 8
  {
    OctalRoundTrip(size);
    var sum := Sum(Unsummed(name, size));
    SumBound(Unsummed(name, size));
    assert Power8(6) == 262144 by { assert Power8(2) == 64 && Power8(4) == 4096; }
    ToOctalLength(sum, 6);
    PadStartValue(ToOctal(sum), 6);
  }

  function UstarFileHeader(name: Bytes, size: nat): (r: Bytes)
    requires Printable(name, size)
    ensures |r| == BLOCK
  {
    FieldWidths(name, size);
    Overwrite(Unsummed(name, size), 148, Checksum(Unsummed(name, size)))
  }

  /** The header written in place, field by field, then summed. */
  method WriteUstarHeader(name: Bytes, size: nat) returns (header: array<Byte>)
    requires Printable(name, size)
    ensures fresh(header) && header[..] == UstarFileHeader(name, size)
  {
    FieldWidths(name, size);
    header := new Byte[BLOCK](_ => 0);
    assert header[..] == Zeros(BLOCK);
    WriteAt(header, 0, name);
    WriteAt(header, 100, [48, 48, 48, 48, 54, 52, 52, 0]);
    WriteAt(header, 108, [48, 48, 48, 48, 48, 48, 48, 0]);
    WriteAt(header, 116, [48, 48, 48, 48, 48, 48, 48, 0]);
    WriteAt(header, 124, SizeField(size));
    WriteAt(header, 136, [48, 48, 48, 48, 48, 48, 48, 48, 48, 48, 48, 0]);
    WriteAt(header, 148, [32, 32, 32, 32, 32, 32, 32, 32]);
    WriteAt(header, 156, [48]);
    WriteAt(header, 257, [117, 115, 116, 97, 114, 0]);
    WriteAt(header, 263, [48, 48]);
    var sum := SumOf(header);
    WriteAt(header, 148, PadStart(ToOctal(sum), 6) + [0, 32]);
  }

  method WriteAt(a: array<Byte>, at: nat, s: Bytes)
    requires at + |s| <= a.Length
    modifies a
    ensures a[..] == Overwrite(old(a[..]), at, s)
  {
    for i := 0 to |s|
      invariant forall k | 0 <= k < a.Length :: a[k] == if at <= k < at + i then s[k - at] else old(a[k])
    {
      a[at + i] := s[i];
    }
  }

  method SumOf(a: array<Byte>) returns (sum: nat)
    ensures sum == Sum(a[..])
  {
    sum := 0;
    for i := 0 to a.Length
      invariant sum == Sum(a[..i])
    {
      assert a[..i + 1][..i] == a[..i];
      sum := sum + a[i];
    }
    assert a[..a.Length] == a[..];
  }

  // ---- reading the header back ----

  lemma NameField(name: Bytes, size: nat)
    requires Printable(name, size)
    ensures var h := UstarFileHeader(name, size);
            (forall i | 0 <= i < |name| :: h[i] == name[i]) && (forall i | |name| <= i < 100 :: h[i] == 0)
  {
    FieldWidths(name, size);
  }

  lemma OtherFields(name: Bytes, size: nat)
    requires Printable(name, size)
    ensures var h := UstarFileHeader(name, size);
            && |SizeField(size)| == 12 && (forall i | 124 <= i < 136 :: h[i] == SizeField(size)[i - 124]) && h[156] == 48
            && h[257] == 117 && h[258] == 115 && h[259] == 116 && h[260] == 97 && h[261] == 114
            && (forall i | 345 <= i < 500 :: h[i] == 0)
  {
    FieldWidths(name, size);
  }

  lemma {:induction false} FieldStringOf(s: Bytes, name: Bytes)
    requires |name| < |s| && s[..|name|] == name && s[|name|] == 0 && 0 !in name
    ensures FieldString(s) == name
  {
    var n := IndexOfNul(s);
    forall i | 0 <= i < |name| ensures s[i] != 0 {
      assert s[..|name|][i] == name[i] && name[i] in name;
    }
    assert n == |name|;
  }

  /** A name the catalog accepts unchanged for a file. */
  ghost predicate PlainName(name: Bytes) {
    0 < |name| < 100 && 0 !in name && name[0] != 47 && name[|name| - 1] != 47 && !HasDotDot(name)
  }

  /** The catalog reads a written header back as the file it was written for. */
  lemma HeaderRoundTrip(name: Bytes, size: nat, dataOffset: nat, count: nat, maxBytes: nat)
    requires PlainName(name) && size < Power8(11) && size <= maxBytes && count < MAX_ARCHIVE_MEMBERS
    ensures ParseHeader(UstarFileHeader(name, size), dataOffset, count, maxBytes) == Ok(Member(name, size, true, false, dataOffset))
  {
    var h := UstarFileHeader(name, size);
    NameField(name, size);
    OtherFields(name, size);
    OctalRoundTrip(size);
    assert h[257..262] == [117, 115, 116, 97, 114];
    assert LowBits(h[257..262]) == h[257..262];
    assert h[124..136] == SizeField(size);
    NameReads(h, name);
  }

  lemma NameReads(h: Bytes, name: Bytes)
    requires |h| == BLOCK && PlainName(name)
    requires (forall i | 0 <= i < |name| :: h[i] == name[i]) && (forall i | |name| <= i < 100 :: h[i] == 0)
    requires forall i | 345 <= i < 500 :: h[i] == 0
    ensures NameOf(h) == name
  {
    assert h[0..100][..|name|] == name;
    FieldStringOf(h[0..100], name);
    FieldStringOf(h[345..500], []);
  }

  // ---- the splice ----

  /** blobs/sha256/ */
  const BLOB_PREFIX: Bytes := [98, 108, 111, 98, 115, 47, 115, 104, 97, 50, 53, 54, 47]

  /** The member that holds the blob with this hexadecimal digest. */
  function BlobMemberName(hex: Bytes): Bytes { BLOB_PREFIX + hex }

  function Quoted(name: Bytes): Bytes { [34] + name + [34] }

  function LayerList(layers: seq<Bytes>): Bytes {
    if layers == [] then []
    else if |layers| == 1 then Quoted(BlobMemberName(layers[0]))
    else Quoted(BlobMemberName(layers[0])) + [44] + LayerList(layers[1..])
  }

  /** [{"Config": */
  const CONFIG_KEY: Bytes := [91, 123, 34, 67, 111, 110, 102, 105, 103, 34, 58]
  /** ,"RepoTags":[],"Layers":[ */
  const LAYERS_KEY: Bytes := [44, 34, 82, 101, 112, 111, 84, 97, 103, 115, 34, 58, 91, 93, 44, 34, 76, 97, 121, 101, 114, 115, 34, 58, 91]

  /** The docker-archive manifest that names the archive's own config and layer blobs. */
  function DockerManifest(config: Bytes, layers: seq<Bytes>): Bytes {
    CONFIG_KEY + Quoted(BlobMemberName(config)) + LAYERS_KEY + LayerList(layers) + [93, 125, 93]
  }

  /** manifest.json */
  const MANIFEST_NAME: Bytes := [109, 97, 110, 105, 102, 101, 115, 116, 46, 106, 115, 111, 110]

  /** One member and the end-of-archive marker. */
  function Trailer(header: Bytes, data: Bytes): Bytes {
    var padding := Zeros((BLOCK - |data| % BLOCK) % BLOCK);
    header + data + padding + Zeros(2 * BLOCK)
  }

  function DockerArchiveTrailer(config: Bytes, layers: seq<Bytes>): Bytes
    requires |DockerManifest(config, layers)| < Power8(11)
  {
    var manifest := DockerManifest(config, layers);
    Trailer(UstarFileHeader(MANIFEST_NAME, |manifest|), manifest)
  }

  lemma PaddingFills(n: nat)
    ensures n + (BLOCK - n % BLOCK) % BLOCK == Padded(n)
  {
  }

  lemma TrailerIsTail(header: Bytes, data: Bytes)
    requires |header| == BLOCK
    ensures OneMemberTail(Trailer(header, data), header, data)
  {
    PaddingFills(|data|);
    var rest := Trailer(header, data);
    var end := BLOCK + Padded(|data|);
    assert rest[BLOCK..BLOCK + |data|] == data;
    assert rest[end..end + BLOCK] == Zeros(BLOCK);
  }

  lemma HeaderReads(name: Bytes, size: nat, dataOffset: nat, count: nat, maxBytes: nat)
    requires PlainName(name) && size < Power8(11) && size <= maxBytes && count < MAX_ARCHIVE_MEMBERS
    ensures HeaderReader(maxBytes)(UstarFileHeader(name, size), dataOffset, count) == Ok(Member(name, size, true, false, dataOffset))
    ensures !IsZeroBlock(UstarFileHeader(name, size))
  {
    HeaderRoundTrip(name, size, dataOffset, count, maxBytes);
    OtherFields(name, size);
  }

  lemma ManifestNamePlain()
    ensures PlainName(MANIFEST_NAME)
  {
  }

  /** `spliced` catalogs as the members of `c`, whose bytes are those in `file`, then a file `added` that holds `data`. */
  ghost predicate AddsOneFile(file: Bytes, c: Catalog, spliced: Bytes, added: Member, data: Bytes, maxBytes: nat) {
    && CatalogFrom(HeaderReader(maxBytes), spliced, 0, []) == Ok(Catalog(c.members + [added], Next(c.dataEnd, added)))
    && KeepsData(file, spliced, c.members)
    && added.dataOffset + added.size <= |spliced| && DataOf(spliced, added) == data
  }

  lemma SpliceFile(file: Bytes, maxBytes: nat, data: Bytes, header: Bytes, trailer: Bytes, added: Member, c: Catalog)
    requires CatalogFrom(HeaderReader(maxBytes), file, 0, []) == Ok(c) && OneMemberTail(trailer, header, data) && !IsZeroBlock(header)
    requires added.dataOffset == c.dataEnd + BLOCK && added.size == |data|
    requires HeaderReader(maxBytes)(header, c.dataEnd + BLOCK, |c.members|) == Ok(added)
    ensures c.dataEnd <= |file| && AddsOneFile(file, c, file[..c.dataEnd] + trailer, added, data, maxBytes)
  {
    HeaderReaderHonest(maxBytes);
    SpliceCatalogs(HeaderReader(maxBytes), file, trailer, header, data, added, c);
    SpliceKeeps(HeaderReader(maxBytes), file, trailer, header, data, added, c);
  }

  /** The same for any file header the catalog reads back. */
  lemma SplicedTrailer(file: Bytes, maxBytes: nat, header: Bytes, data: Bytes, added: Member, c: Catalog)
    requires CatalogFrom(HeaderReader(maxBytes), file, 0, []) == Ok(c) && |header| == BLOCK && !IsZeroBlock(header)
    requires added.dataOffset == c.dataEnd + BLOCK && added.size == |data|
    requires HeaderReader(maxBytes)(header, c.dataEnd + BLOCK, |c.members|) == Ok(added)
    ensures c.dataEnd <= |file| && AddsOneFile(file, c, file[..c.dataEnd] + Trailer(header, data), added, data, maxBytes)
  {
    TrailerIsTail(header, data);
    SpliceFile(file, maxBytes, data, header, Trailer(header, data), added, c);
  }

  function ManifestMember(size: nat, dataEnd: nat): Member { Member(MANIFEST_NAME, size, true, false, dataEnd + BLOCK) }

  /**
   * Splicing the trailer after the data of an accepted archive gives an archive with exactly the
   * old members, their data byte for byte, and one more file: manifest.json with the printed bytes.
   */
  lemma SplicedArchive(file: Bytes, maxBytes: nat, config: Bytes, layers: seq<Bytes>, c: Catalog)
    requires CatalogFrom(HeaderReader(maxBytes), file, 0, []) == Ok(c) && |c.members| < MAX_ARCHIVE_MEMBERS
    requires |DockerManifest(config, layers)| < Power8(11) && |DockerManifest(config, layers)| <= maxBytes
    ensures c.dataEnd <= |file|
    ensures var manifest := DockerManifest(config, layers);
            AddsOneFile(file, c, file[..c.dataEnd] + DockerArchiveTrailer(config, layers),
                        ManifestMember(|manifest|, c.dataEnd), manifest, maxBytes)
  {
    var manifest := DockerManifest(config, layers);
    ManifestNamePlain();
    HeaderReads(MANIFEST_NAME, |manifest|, c.dataEnd + BLOCK, |c.members|, maxBytes);
    SplicedTrailer(file, maxBytes, UstarFileHeader(MANIFEST_NAME, |manifest|), manifest, ManifestMember(|manifest|, c.dataEnd), c);
  }
}
