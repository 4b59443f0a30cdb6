/**
 * Verifying an OCI image archive (OCI image layout, manifest and descriptor documents). The digest and
 * the JSON reader are arbitrary functions; text is kept as bytes.
 */
module OciArchive {
  import opened Wrappers
  import opened Octets
  import opened TarCatalog
  import opened Ustar

  const MAX_METADATA_BYTES: nat := 4 * 1024 * 1024
  const MAX_LAYER_DESCRIPTORS: nat := 128

  datatype Problem =
    | SizeMismatch
    | DigestMismatch
    | BadTar(error: Error)
    | DuplicateName
    | MissingLayoutOrIndex
    | MetadataTooLarge
    | MalformedJson
    | InvalidLayout
    | InvalidIndexShape
    | InvalidIndexManifests
    | InvalidIndexMediaType
    | InvalidDescriptor
    | InvalidMediaType
    | InvalidDigest
    | InvalidSize
    | MissingBlob
    | BlobSizeMismatch
    | BlobDigestMismatch
    | InvalidManifestShape
    | InvalidManifestVersion
    | InvalidLayers
    | DuplicateLayer
    | UnexpectedFiles

  /** What a JSON reader gives; a number by its integer value, if it has one. */
  datatype Doc =
    | Nothing
    | Truth(value: bool)
    | Number(integer: Option<int>)
    | Words(text: string)
    | List(items: seq<Doc>)
    | Record(fields: map<string, Doc>)

  datatype Descriptor = Descriptor(mediaType: string, digest: string, size: nat)

  datatype Parts = Parts(config: Descriptor, layers: seq<Descriptor>)

  datatype Verified = Verified(
    artifactDigest: string, sizeBytes: nat, manifestDigest: string, manifestSizeBytes: nat,
    configDigest: string, layerDigests: seq<string>, archiveDataEnd: nat)

  /** A digest function giving hexadecimal text, and a JSON reader. */
  datatype Tools = Tools(hash: Bytes -> string, parse: Bytes -> Option<Doc>)

  // ---- digests ----

  const DIGEST_PREFIX: string := "sha256:"

  predicate IsLowerHex(c: char) { '0' <= c <= '9' || 'a' <= c <= 'f' }

  predicate IsDigest(s: string) {
    |s| == 71 && s[..7] == DIGEST_PREFIX && forall i | 7 <= i < |s| :: IsLowerHex(s[i])
  }

  function DigestOf(tools: Tools, data: Bytes): string { DIGEST_PREFIX + tools.hash(data) }

  /** Characters of a member name as bytes. */
  function NameBytes(s: string): Bytes { seq(|s|, i requires 0 <= i < |s| => s[i] as int % 256) }

  /** A digest without its algorithm. */
  function HexOf(digest: string): Bytes { NameBytes(if |digest| >= 7 then digest[7..] else "") }

  function BlobName(digest: string): Bytes { BlobMemberName(HexOf(digest)) }

  // ---- documents ----

  /** oci-layout */
  const OCI_LAYOUT: Bytes := [111, 99, 105, 45, 108, 97, 121, 111, 117, 116]
  /** index.json */
  const INDEX_JSON: Bytes := [105, 110, 100, 101, 120, 46, 106, 115, 111, 110]
  const INDEX_TYPE: string := "application/vnd.oci.image.index.v1+json"
  const MANIFEST_TYPE: string := "application/vnd.oci.image.manifest.v1+json"
  const CONFIG_TYPE: string := "application/vnd.oci.image.config.v1+json"
  const LAYER_TYPES: set<string> := {
    "application/vnd.oci.image.layer.v1.tar",
    "application/vnd.oci.image.layer.nondistributable.v1.tar",
    "application/vnd.oci.image.layer.v1.tar+gzip",
    "application/vnd.oci.image.layer.nondistributable.v1.tar+gzip"
  }
  const DESCRIPTOR_KEYS: set<string> := {
    "mediaType", "digest", "size", "platform",
    "annotations", "urls", "data", "artifactType"
  }

  /** The value of an own field; nothing but a record has any that matters here. */
  function Field(doc: Doc, name: string): Option<Doc> {
    if doc.Record? && name in doc.fields then Some(doc.fields[name]) else None
  }

  predicate IsText(doc: Option<Doc>, text: string) { doc == Some(Words(text)) }

  function DescriptorOf(doc: Doc, allowed: set<string>): (r: Result<Descriptor, Problem>)
    ensures r.Ok? ==> IsDigest(r.value.digest) && r.value.mediaType in allowed
  {
    if !doc.Record? && !(doc.List? && doc.items == []) then Err(InvalidDescriptor)
    else if doc.Record? && !(doc.fields.Keys <= DESCRIPTOR_KEYS) then Err(InvalidDescriptor)
    else
      var mediaType, digest, size := Field(doc, "mediaType"), Field(doc, "digest"), Field(doc, "size");
      if !(mediaType.Some? && mediaType.value.Words? && mediaType.value.text in allowed) then Err(InvalidMediaType)
      else if !(digest.Some? && digest.value.Words? && IsDigest(digest.value.text)) then Err(InvalidDigest)
      else if !(size.Some? && size.value.Number? && size.value.integer.Some? && size.value.integer.value >= 0) then Err(InvalidSize)
      else Ok(Descriptor(mediaType.value.text, digest.value.text, size.value.integer.value))
  }

  /** The layout document is exactly {imageLayoutVersion: "1.0.0"}. */
  predicate IsLayout(doc: Doc) { doc == Record(map["imageLayoutVersion" := Words("1.0.0")]) }

  /** The one manifest an index names. */
  function IndexManifest(doc: Doc): (r: Result<Descriptor, Problem>)
    ensures r.Ok? ==> IsDigest(r.value.digest)
  {
    var version, manifests, mediaType := Field(doc, "schemaVersion"), Field(doc, "manifests"), Field(doc, "mediaType");
    if version.None? || manifests.None? || !(doc.fields.Keys <= {"schemaVersion", "mediaType", "manifests"}) then
      Err(InvalidIndexShape)
    else if version != Some(Number(Some(2))) || !manifests.value.List? || |manifests.value.items| != 1 then Err(InvalidIndexManifests)
    else if mediaType.Some? && !IsText(mediaType, INDEX_TYPE) then Err(InvalidIndexMediaType)
    else DescriptorOf(manifests.value.items[0], {MANIFEST_TYPE})
  }

  function LayerDescriptors(docs: seq<Doc>): Result<seq<Descriptor>, Problem> {
    if docs == [] then Ok([])
    else
      var first := DescriptorOf(docs[0], LAYER_TYPES);
      if first.Err? then Err(first.error)
      else
        var others := LayerDescriptors(docs[1..]);
        if others.Err? then others else Ok([first.value] + others.value)
  }

  predicate GoodDigests(layers: seq<Descriptor>) { forall i | 0 <= i < |layers| :: IsDigest(layers[i].digest) }

  lemma {:induction false} LayerDigestsGood(docs: seq<Doc>, layers: seq<Descriptor>)
    requires LayerDescriptors(docs) == Ok(layers)
    ensures |layers| == |docs| && GoodDigests(layers)
  {
    if docs != [] {
      LayerDigestsGood(docs[1..], layers[1..]);
      assert layers == [layers[0]] + layers[1..];
    }
  }

  function Digests(layers: seq<Descriptor>): (r: seq<string>)
    ensures |r| == |layers|
  {
    seq(|layers|, i requires 0 <= i < |layers| => layers[i].digest)
  }

  predicate AllDistinct<T(==)>(s: seq<T>) { forall i, j | 0 <= i < j < |s| :: s[i] != s[j] }

  predicate GoodParts(parts: Parts) {
    IsDigest(parts.config.digest) && GoodDigests(parts.layers) && |parts.layers| <= MAX_LAYER_DESCRIPTORS && AllDistinct(Digests(parts.layers))
  }

  /** The config and the layers a manifest names. */
  function ManifestParts(doc: Doc): (r: Result<Parts, Problem>)
    ensures r.Ok? ==> GoodParts(r.value)
  {
    var version, config, layers, mediaType :=
      Field(doc, "schemaVersion"), Field(doc, "config"), Field(doc, "layers"), Field(doc, "mediaType");
    if version.None? || config.None? || layers.None? || !(doc.fields.Keys <= {"schemaVersion", "mediaType", "config", "layers"}) then
      Err(InvalidManifestShape)
    else if version != Some(Number(Some(2))) || (mediaType.Some? && !IsText(mediaType, MANIFEST_TYPE)) then Err(InvalidManifestVersion)
    else if !layers.value.List? || |layers.value.items| > MAX_LAYER_DESCRIPTORS then Err(InvalidLayers)
    else PartsOf(config.value, layers.value.items)
  }

  function PartsOf(config: Doc, layers: seq<Doc>): (r: Result<Parts, Problem>)
    requires |layers| <= MAX_LAYER_DESCRIPTORS
    ensures r.Ok? ==> GoodParts(r.value)
  {
    var c := DescriptorOf(config, {CONFIG_TYPE});
    if c.Err? then Err(c.error)
    else
      var ls := LayerDescriptors(layers);
      if ls.Err? then Err(ls.error)
      else
        LayerDigestsGood(layers, ls.value);
        if !AllDistinct(Digests(ls.value)) then Err(DuplicateLayer) else Ok(Parts(c.value, ls.value))
  }

  // ---- members ----

  predicate NamesDistinct(members: seq<Member>) { forall i, j | 0 <= i < j < |members| :: members[i].name != members[j].name }

  /** The plain file of this name. */
  function FileNamed(members: seq<Member>, name: Bytes): (r: Option<Member>)
    ensures r.Some? ==> r.value in members && r.value.name == name && r.value.isFile
  {
    if members == [] then None
    else if members[0].name == name then if members[0].isFile then Some(members[0]) else None
    else FileNamed(members[1..], name)
  }

  function Data(file: Bytes, m: Member): Bytes {
    if m.dataOffset + m.size <= |file| then DataOf(file, m) else []
  }

  /** A small member's document. */
  function Document(tools: Tools, file: Bytes, m: Member): Result<Doc, Problem> {
    if m.size > MAX_METADATA_BYTES then Err(MetadataTooLarge)
    else
      var doc := tools.parse(Data(file, m));
      if doc.None? then Err(MalformedJson) else Ok(doc.value)
  }

  /** The member a descriptor points to, if its size and digest are the descriptor's. */
  function Blob(tools: Tools, file: Bytes, members: seq<Member>, d: Descriptor): Result<Member, Problem>
    requires IsDigest(d.digest)
  {
    var m := FileNamed(members, BlobName(d.digest));
    if m.None? then Err(MissingBlob)
    else if m.value.size != d.size then Err(BlobSizeMismatch)
    else if DigestOf(tools, Data(file, m.value)) != d.digest then Err(BlobDigestMismatch)
    else Ok(m.value)
  }

  function FileNames(members: seq<Member>): set<Bytes> { set i | 0 <= i < |members| && members[i].isFile :: members[i].name }

  function ExpectedNames(manifest: Descriptor, parts: Parts): set<Bytes>
    requires IsDigest(manifest.digest) && GoodParts(parts)
  {
    {OCI_LAYOUT, INDEX_JSON, BlobName(manifest.digest), BlobName(parts.config.digest)}
    + set i | 0 <= i < |parts.layers| :: BlobName(parts.layers[i].digest)
  }

  // ---- the verdict ----

  /** The manifest the archive's index names. */
  function IndexIn(tools: Tools, file: Bytes, members: seq<Member>): (r: Result<Descriptor, Problem>)
    ensures r.Ok? ==> IsDigest(r.value.digest)
  {
    var layout, index := FileNamed(members, OCI_LAYOUT), FileNamed(members, INDEX_JSON);
    if layout.None? || index.None? then Err(MissingLayoutOrIndex)
    else
      var layoutDoc := Document(tools, file, layout.value);
      if layoutDoc.Err? then Err(layoutDoc.error)
      else if !IsLayout(layoutDoc.value) then Err(InvalidLayout)
      else
        var indexDoc := Document(tools, file, index.value);
        if indexDoc.Err? then Err(indexDoc.error) else IndexManifest(indexDoc.value)
  }

  /** A blob's document. */
  function BlobDocument(tools: Tools, file: Bytes, members: seq<Member>, d: Descriptor): Result<Doc, Problem>
    requires IsDigest(d.digest)
  {
    var blob := Blob(tools, file, members, d);
    if blob.Err? then Err(blob.error) else Document(tools, file, blob.value)
  }

  function PartsIn(tools: Tools, file: Bytes, members: seq<Member>, manifest: Descriptor): (r: Result<Parts, Problem>)
    requires IsDigest(manifest.digest)
    ensures r.Ok? ==> GoodParts(r.value)
  {
    var doc := BlobDocument(tools, file, members, manifest);
    if doc.Err? then Err(doc.error) else ManifestParts(doc.value)
  }

  /** The first layer that is missing or is not what its descriptor says. */
  function LayerProblem(tools: Tools, file: Bytes, members: seq<Member>, layers: seq<Descriptor>): Option<Problem>
    requires GoodDigests(layers)
  {
    if layers == [] then None
    else
      var blob := Blob(tools, file, members, layers[0]);
      if blob.Err? then Some(blob.error) else LayerProblem(tools, file, members, layers[1..])
  }

  /** The verdict on the catalogued members. */
  function VerifyMembers(tools: Tools, file: Bytes, c: Catalog): Result<Verified, Problem> {
    if !NamesDistinct(c.members) then Err(DuplicateName)
    else
      var manifest := IndexIn(tools, file, c.members);
      if manifest.Err? then Err(manifest.error)
      else
        var parts := PartsIn(tools, file, c.members, manifest.value);
        if parts.Err? then Err(parts.error)
        else VerifyParts(tools, file, c, manifest.value, parts.value)
  }

  function VerifyParts(tools: Tools, file: Bytes, c: Catalog, manifest: Descriptor, parts: Parts): Result<Verified, Problem>
    requires IsDigest(manifest.digest) && GoodParts(parts)
  {
    var config := BlobDocument(tools, file, c.members, parts.config);
    if config.Err? then Err(config.error)
    else
      var bad := LayerProblem(tools, file, c.members, parts.layers);
      if bad.Some? then Err(bad.value)
      else if FileNames(c.members) != ExpectedNames(manifest, parts) then Err(UnexpectedFiles)
      else Ok(Verified(DigestOf(tools, file), |file|, manifest.digest, manifest.size, parts.config.digest, Digests(parts.layers), c.dataEnd))
  }

  function Verify(tools: Tools, file: Bytes, digest: string, size: nat, maxBytes: nat): Result<Verified, Problem> {
    if |file| != size || |file| > maxBytes then Err(SizeMismatch)
    else if DigestOf(tools, file) != digest then Err(DigestMismatch)
    else
      var c := CatalogFrom(HeaderReader(maxBytes), file, 0, []);
      if c.Err? then Err(BadTar(c.error)) else VerifyMembers(tools, file, c.value)
  }

  // ---- the procedure ----

  /** Each name's one member, as the loop over the members collects it. */
  ghost predicate Collected(members: seq<Member>, byName: map<Bytes, Member>) {
    && (forall i | 0 <= i < |members| :: members[i].name in byName && byName[members[i].name] == members[i])
    && (forall name | name in byName :: exists i :: 0 <= i < |members| && members[i].name == name)
  }

  function FileIn(byName: map<Bytes, Member>, name: Bytes): Option<Member> {
    if name in byName && byName[name].isFile then Some(byName[name]) else None
  }

  lemma {:induction false} FileNamedAt(members: seq<Member>, i: nat)
    requires NamesDistinct(members) && i < |members|
    ensures FileNamed(members, members[i].name) == if members[i].isFile then Some(members[i]) else None
  {
    if i > 0 {
      assert members[0].name != members[i].name;
      FileNamedAt(members[1..], i - 1);
    }
  }

  lemma {:induction false} FileNamedNowhere(members: seq<Member>, name: Bytes)
    requires forall i | 0 <= i < |members| :: members[i].name != name
    ensures FileNamed(members, name) == None
  {
    if members != [] { FileNamedNowhere(members[1..], name); }
  }

  lemma CollectedFinds(members: seq<Member>, byName: map<Bytes, Member>, name: Bytes)
    requires Collected(members, byName) && NamesDistinct(members)
    ensures FileIn(byName, name) == FileNamed(members, name)
  {
    if name in byName {
      var i :| 0 <= i < |members| && members[i].name == name;
      FileNamedAt(members, i);
    } else {
      FileNamedNowhere(members, name);
    }
  }

  method ByName(members: seq<Member>) returns (byName: Option<map<Bytes, Member>>)
    ensures byName.Some? <==> NamesDistinct(members)
    ensures byName.Some? ==> Collected(members, byName.value)
  {
    var found: map<Bytes, Member> := map[];
    for i := 0 to |members|
      invariant NamesDistinct(members[..i]) && Collected(members[..i], found)
    {
      if members[i].name in found {
        var k :| 0 <= k < i && members[..i][k].name == members[i].name;
        assert members[k].name == members[i].name;
        return None;
      }
      found := found[members[i].name := members[i]];
      assert members[..i + 1] == members[..i] + [members[i]];
    }
    assert members[..|members|] == members;
    byName := Some(found);
  }

  method VerifyBlob(tools: Tools, file: Bytes, ghost members: seq<Member>, byName: map<Bytes, Member>, d: Descriptor)
      returns (r: Result<Member, Problem>)
    requires IsDigest(d.digest) && Collected(members, byName) && NamesDistinct(members)
    ensures r == Blob(tools, file, members, d)
  {
    CollectedFinds(members, byName, BlobName(d.digest));
    var m := FileIn(byName, BlobName(d.digest));
    if m.None? { return Err(MissingBlob); }
    if m.value.size != d.size { return Err(BlobSizeMismatch); }
    if DigestOf(tools, Data(file, m.value)) != d.digest { return Err(BlobDigestMismatch); }
    r := Ok(m.value);
  }

  method VerifyLayers(tools: Tools, file: Bytes, ghost members: seq<Member>, byName: map<Bytes, Member>, layers: seq<Descriptor>)
      returns (bad: Option<Problem>)
    requires GoodDigests(layers) && Collected(members, byName) && NamesDistinct(members)
    ensures bad == LayerProblem(tools, file, members, layers)
  {
    for i := 0 to |layers|
      invariant LayerProblem(tools, file, members, layers[i..]) == LayerProblem(tools, file, members, layers)
    {
      assert layers[i..][1..] == layers[i + 1..];
      var blob := VerifyBlob(tools, file, members, byName, layers[i]);
      if blob.Err? { return Some(blob.error); }
    }
    bad := None;
  }

  lemma SameSize<T>(actual: set<T>, expected: set<T>)
    requires |actual| == |expected| && expected <= actual
    ensures actual == expected
  {
    if x :| x in actual && x !in expected {
      SubsetSize(expected, actual - {x});
    }
  }

  lemma {:induction false} SubsetSize<T>(a: set<T>, b: set<T>)
    requires a <= b
    ensures |a| <= |b|
  {
    if a != {} {
      var x :| x in a;
      SubsetSize(a - {x}, b - {x});
    }
  }

  method VerifyOciArchive(tools: Tools, file: Bytes, digest: string, size: nat, maxBytes: nat) returns (r: Result<Verified, Problem>)
    ensures r == Verify(tools, file, digest, size, maxBytes)
  {
    if |file| != size || |file| > maxBytes { return Err(SizeMismatch); }
    if DigestOf(tools, file) != digest { return Err(DigestMismatch); }
    var c := CatalogTarMembers(file, maxBytes);
    if c.Err? { return Err(BadTar(c.error)); }
    r := VerifyCatalog(tools, file, c.value);
  }

  method VerifyCatalog(tools: Tools, file: Bytes, c: Catalog) returns (r: Result<Verified, Problem>)
    ensures r == VerifyMembers(tools, file, c)
  {
    var byName := ByName(c.members);
    if byName.None? { return Err(DuplicateName); }
    var manifest := VerifyIndex(tools, file, c.members, byName.value);
    if manifest.Err? { return Err(manifest.error); }
    var blob := VerifyBlob(tools, file, c.members, byName.value, manifest.value);
    if blob.Err? { return Err(blob.error); }
    var doc := Document(tools, file, blob.value);
    if doc.Err? { return Err(doc.error); }
    var parts := ManifestParts(doc.value);
    if parts.Err? { return Err(parts.error); }
    r := VerifyRest(tools, file, c, byName.value, manifest.value, parts.value);
  }

  method VerifyIndex(tools: Tools, file: Bytes, ghost members: seq<Member>, byName: map<Bytes, Member>) returns (r: Result<Descriptor, Problem>)
    requires Collected(members, byName) && NamesDistinct(members)
    ensures r == IndexIn(tools, file, members)
  {
    CollectedFinds(members, byName, OCI_LAYOUT);
    CollectedFinds(members, byName, INDEX_JSON);
    var layout, index := FileIn(byName, OCI_LAYOUT), FileIn(byName, INDEX_JSON);
    if layout.None? || index.None? { return Err(MissingLayoutOrIndex); }
    var layoutDoc := Document(tools, file, layout.value);
    if layoutDoc.Err? { return Err(layoutDoc.error); }
    if !IsLayout(layoutDoc.value) { return Err(InvalidLayout); }
    var indexDoc := Document(tools, file, index.value);
    if indexDoc.Err? { return Err(indexDoc.error); }
    r := IndexManifest(indexDoc.value);
  }

  method VerifyRest(tools: Tools, file: Bytes, c: Catalog, byName: map<Bytes, Member>, manifest: Descriptor, parts: Parts)
      returns (r: Result<Verified, Problem>)
    requires IsDigest(manifest.digest) && GoodParts(parts) && Collected(c.members, byName) && NamesDistinct(c.members)
    ensures r == VerifyParts(tools, file, c, manifest, parts)
  {
    var blob := VerifyBlob(tools, file, c.members, byName, parts.config);
    if blob.Err? { return Err(blob.error); }
    var config := Document(tools, file, blob.value);
    if config.Err? { return Err(config.error); }
    var bad := VerifyLayers(tools, file, c.members, byName, parts.layers);
    if bad.Some? { return Err(bad.value); }
    var expected, actual := ExpectedNames(manifest, parts), FileNames(c.members);
    if |actual| != |expected| || exists name | name in expected :: name !in actual { return Err(UnexpectedFiles); }
    SameSize(actual, expected);
    r := Ok(Verified(DigestOf(tools, file), |file|, manifest.digest, manifest.size, parts.config.digest, Digests(parts.layers), c.dataEnd));
  }

  // ---- what acceptance means ----

  lemma {:induction false} LayersFound(tools: Tools, file: Bytes, members: seq<Member>, layers: seq<Descriptor>, i: nat)
    requires GoodDigests(layers) && LayerProblem(tools, file, members, layers) == None && i < |layers|
    ensures Blob(tools, file, members, layers[i]).Ok?
  {
    if i > 0 { LayersFound(tools, file, members, layers[1..], i - 1); }
  }

  /** The file that stands under a checked descriptor's name carries the digest of its own bytes. */
  lemma NamedAfterContent(tools: Tools, file: Bytes, members: seq<Member>, d: Descriptor, i: nat)
    requires NamesDistinct(members) && IsDigest(d.digest) && Blob(tools, file, members, d).Ok?
    requires i < |members| && members[i].isFile && members[i].name == BlobName(d.digest)
    ensures members[i].size == d.size && DigestOf(tools, Data(file, members[i])) == d.digest
  {
    FileNamedAt(members, i);
  }

  /** Every file but the layout and the index is named after the digest of its own bytes. */
  ghost predicate NamedByDigest(tools: Tools, file: Bytes, members: seq<Member>) {
    forall i | 0 <= i < |members| && members[i].isFile && members[i].name != OCI_LAYOUT && members[i].name != INDEX_JSON ::
      members[i].dataOffset + members[i].size <= |file|
      && members[i].name == BlobMemberName(NameBytes(tools.hash(DataOf(file, members[i]))))
  }

  lemma BlobNamed(tools: Tools, file: Bytes, members: seq<Member>, d: Descriptor, i: nat)
    requires NamesDistinct(members) && IsDigest(d.digest) && Blob(tools, file, members, d).Ok?
    requires i < |members| && members[i].isFile && members[i].name == BlobName(d.digest)
    ensures members[i].name == BlobMemberName(NameBytes(tools.hash(Data(file, members[i]))))
  {
    NamedAfterContent(tools, file, members, d, i);
    assert d.digest[7..] == tools.hash(Data(file, members[i]));
  }

  lemma PartsVerified(tools: Tools, file: Bytes, c: Catalog, manifest: Descriptor, parts: Parts)
    requires IsDigest(manifest.digest) && GoodParts(parts) && VerifyParts(tools, file, c, manifest, parts).Ok?
    ensures Blob(tools, file, c.members, parts.config).Ok? && LayerProblem(tools, file, c.members, parts.layers) == None
    ensures FileNames(c.members) == ExpectedNames(manifest, parts)
  {
  }

  lemma FileIsBlob(tools: Tools, file: Bytes, c: Catalog, manifest: Descriptor, parts: Parts, i: nat)
    requires IsDigest(manifest.digest) && GoodParts(parts) && NamesDistinct(c.members)
    requires Blob(tools, file, c.members, manifest).Ok? && VerifyParts(tools, file, c, manifest, parts).Ok?
    requires i < |c.members| && c.members[i].isFile && c.members[i].name != OCI_LAYOUT && c.members[i].name != INDEX_JSON
    ensures c.members[i].name == BlobMemberName(NameBytes(tools.hash(Data(file, c.members[i]))))
  {
    hide VerifyParts, Blob, IsDigest, Data, BlobName, BlobMemberName, NameBytes;
    PartsVerified(tools, file, c, manifest, parts);
    var name := c.members[i].name;
    assert name in FileNames(c.members);
    if name == BlobName(manifest.digest) {
      BlobNamed(tools, file, c.members, manifest, i);
    } else if name == BlobName(parts.config.digest) {
      BlobNamed(tools, file, c.members, parts.config, i);
    } else {
      var k :| 0 <= k < |parts.layers| && name == BlobName(parts.layers[k].digest);
      LayersFound(tools, file, c.members, parts.layers, k);
      BlobNamed(tools, file, c.members, parts.layers[k], i);
    }
  }

  /** The names an archive with these digests consists of. */
  function NamesOf(v: Verified): set<Bytes> {
    {OCI_LAYOUT, INDEX_JSON, BlobName(v.manifestDigest), BlobName(v.configDigest)}
    + set i | 0 <= i < |v.layerDigests| :: BlobName(v.layerDigests[i])
  }

  /** What the verdict says of its digests. */
  ghost predicate GoodReport(v: Verified) {
    && IsDigest(v.manifestDigest) && IsDigest(v.configDigest) && (forall i | 0 <= i < |v.layerDigests| :: IsDigest(v.layerDigests[i]))
    && |v.layerDigests| <= MAX_LAYER_DESCRIPTORS && AllDistinct(v.layerDigests)
  }

  lemma PartsReport(tools: Tools, file: Bytes, c: Catalog, manifest: Descriptor, parts: Parts, v: Verified)
    requires IsDigest(manifest.digest) && GoodParts(parts) && VerifyParts(tools, file, c, manifest, parts) == Ok(v)
    ensures GoodReport(v) && FileNames(c.members) == NamesOf(v)
    ensures v.archiveDataEnd == c.dataEnd && v.sizeBytes == |file| && v.artifactDigest == DigestOf(tools, file)
  {
    assert forall i | 0 <= i < |v.layerDigests| :: v.layerDigests[i] == parts.layers[i].digest;
    assert NamesOf(v) == ExpectedNames(manifest, parts);
  }

  /**
   * An accepted archive is the declared file: its members have different names, its files are the layout,
   * the index, the manifest, the config and the layers and no others, and each blob is named after the
   * digest of the bytes it holds.
   */
  lemma VerifiedArchive(tools: Tools, file: Bytes, digest: string, size: nat, maxBytes: nat, v: Verified) returns (c: Catalog)
    requires Verify(tools, file, digest, size, maxBytes) == Ok(v)
    ensures |file| == size == v.sizeBytes && size <= maxBytes && DIGEST_PREFIX + tools.hash(file) == digest == v.artifactDigest
    ensures CatalogFrom(HeaderReader(maxBytes), file, 0, []) == Ok(c) && v.archiveDataEnd == c.dataEnd
    ensures NamesDistinct(c.members) && GoodReport(v) && FileNames(c.members) == NamesOf(v)
    ensures NamedByDigest(tools, file, c.members)
  {
    c := CatalogFrom(HeaderReader(maxBytes), file, 0, []).value;
    AcceptedArchive(file, maxBytes, c);
    MembersVerified(tools, file, c, v);
  }

  lemma MembersVerified(tools: Tools, file: Bytes, c: Catalog, v: Verified)
    requires VerifyMembers(tools, file, c) == Ok(v)
    requires forall i | 0 <= i < |c.members| :: c.members[i].dataOffset + c.members[i].size <= |file|
    ensures NamesDistinct(c.members) && GoodReport(v) && FileNames(c.members) == NamesOf(v) && NamedByDigest(tools, file, c.members)
    ensures v.archiveDataEnd == c.dataEnd && v.sizeBytes == |file| && v.artifactDigest == DigestOf(tools, file)
  {
    hide VerifyParts, IndexIn, ManifestParts, GoodReport, NamesOf, FileNames;
    var manifest := IndexIn(tools, file, c.members).value;
    var parts := PartsIn(tools, file, c.members, manifest).value;
    PartsReport(tools, file, c, manifest, parts, v);
    FilesAreBlobs(tools, file, c, manifest, parts);
  }

  lemma FilesAreBlobs(tools: Tools, file: Bytes, c: Catalog, manifest: Descriptor, parts: Parts)
    requires IsDigest(manifest.digest) && GoodParts(parts) && NamesDistinct(c.members)
    requires Blob(tools, file, c.members, manifest).Ok? && VerifyParts(tools, file, c, manifest, parts).Ok?
    requires forall i | 0 <= i < |c.members| :: c.members[i].dataOffset + c.members[i].size <= |file|
    ensures NamedByDigest(tools, file, c.members)
  {
    hide VerifyParts, Blob, GoodParts;
    forall i | 0 <= i < |c.members| && c.members[i].isFile && c.members[i].name != OCI_LAYOUT && c.members[i].name != INDEX_JSON
      ensures c.members[i].name == BlobMemberName(NameBytes(tools.hash(DataOf(file, c.members[i]))))
    {
      FileIsBlob(tools, file, c, manifest, parts, i);
    }
  }

  // ---- the splice ----

  function LayerHexes(digests: seq<string>): (r: seq<Bytes>)
    ensures |r| == |digests|
  {
    seq(|digests|, i requires 0 <= i < |digests| => HexOf(digests[i]))
  }

  lemma {:induction false} LayerListLength(layers: seq<Bytes>)
    requires forall i | 0 <= i < |layers| :: |layers[i]| == 64
    ensures |LayerList(layers)| <= 80 * |layers|
  {
    if |layers| > 1 { LayerListLength(layers[1..]); }
  }

  lemma ManifestFits(config: Bytes, layers: seq<Bytes>)
    requires |config| == 64 && |layers| <= MAX_LAYER_DESCRIPTORS && forall i | 0 <= i < |layers| :: |layers[i]| == 64
    ensures |DockerManifest(config, layers)| <= 80 * |layers| + 118 < Power8(11)
  {
    LayerListLength(layers);
    assert Power8(2) == 64 && Power8(4) == 4096 && Power8(6) == 262144;
    PowersGrow(6, 11);
  }

  lemma {:induction false} PowersGrow(k: nat, n: nat)
    requires k <= n
    ensures Power8(k) <= Power8(n)
  {
    if k < n { PowersGrow(k, n - 1); }
  }

  lemma TrailerAdds(file: Bytes, maxBytes: nat, v: Verified, c: Catalog)
    requires CatalogFrom(HeaderReader(maxBytes), file, 0, []) == Ok(c) && v.archiveDataEnd == c.dataEnd && GoodReport(v)
    ensures c.dataEnd <= |file|
    ensures var config, layers := HexOf(v.configDigest), LayerHexes(v.layerDigests);
            var manifest := DockerManifest(config, layers);
            && |manifest| < Power8(11)
            && (|c.members| < MAX_ARCHIVE_MEMBERS && |manifest| <= maxBytes ==>
                  AddsOneFile(file, c, file[..v.archiveDataEnd] + DockerArchiveTrailer(config, layers),
                              ManifestMember(|manifest|, c.dataEnd), manifest, maxBytes))
  {
    hide CatalogFrom, HeaderReader, DockerManifest, DockerArchiveTrailer, Power8, AddsOneFile;
    AcceptedArchive(file, maxBytes, c);
    var config, layers := HexOf(v.configDigest), LayerHexes(v.layerDigests);
    ManifestFits(config, layers);
    if |c.members| < MAX_ARCHIVE_MEMBERS && |DockerManifest(config, layers)| <= maxBytes {
      SplicedArchive(file, maxBytes, config, layers, c);
    }
  }

  /**
   * Appending the docker trailer for a verified archive at its data end adds exactly one file, whatever
   * the archive, as long as the archive has room for one more member and the artifact ceiling admits it.
   */
  lemma LoadableArchive(tools: Tools, file: Bytes, digest: string, size: nat, maxBytes: nat, v: Verified) returns (c: Catalog)
    requires Verify(tools, file, digest, size, maxBytes) == Ok(v)
    ensures CatalogFrom(HeaderReader(maxBytes), file, 0, []) == Ok(c) && v.archiveDataEnd == c.dataEnd <= |file| && GoodReport(v)
    ensures var config, layers := HexOf(v.configDigest), LayerHexes(v.layerDigests);
            var manifest := DockerManifest(config, layers);
            && |manifest| < Power8(11)
            && (|c.members| < MAX_ARCHIVE_MEMBERS && |manifest| <= maxBytes ==>
                  AddsOneFile(file, c, file[..v.archiveDataEnd] + DockerArchiveTrailer(config, layers),
                              ManifestMember(|manifest|, c.dataEnd), manifest, maxBytes))
  {
    hide Verify, CatalogFrom, HeaderReader, GoodReport, DockerManifest, DockerArchiveTrailer, Power8, AddsOneFile, NamedByDigest, NamesDistinct;
    c := VerifiedArchive(tools, file, digest, size, maxBytes, v);
    TrailerAdds(file, maxBytes, v, c);
  }
}
