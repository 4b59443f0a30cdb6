/**
 * The member catalog of a tar archive, for any reader of header blocks: how an accepted archive tiles
 * its file, and what the catalog of another file is that shares the same data.
 */
module TarCatalog {
  import opened Wrappers
  import opened Octets

  const BLOCK: nat := 512

  datatype Error =
    | OversizedField
    | InvalidField
    | TruncatedHeader
    | NotUstar
    | UnsupportedExtension
    | InvalidNameOrSize
    | TooManyMembers
    | NotFileOrDirectory
    | MemberTooLarge
    | MissingEnd

  datatype Member = Member(name: Bytes, size: nat, isFile: bool, isDir: bool, dataOffset: nat)

  datatype Catalog = Catalog(members: seq<Member>, dataEnd: nat)

  /** A header block whose data starts at an offset, when some members came before it, as a member. */
  type Reader = (Bytes, nat, nat) -> Result<Member, Error>

  /** A reader that takes whole blocks only and records the offset it is given. */
  ghost predicate Honest(read: Reader) {
    forall header, dataOffset, count ::
      read(header, dataOffset, count).Ok? ==> read(header, dataOffset, count).value.dataOffset == dataOffset && |header| == BLOCK
  }

  function Padded(size: nat): (r: nat)
    ensures size <= r < size + BLOCK
  {
    (size + BLOCK - 1) / BLOCK * BLOCK
  }

  predicate IsZeroBlock(block: Bytes) { |block| == BLOCK && forall i | 0 <= i < |block| :: block[i] == 0 }

  /** One positioned read of a header block; it is short at the end of the file. */
  function BlockAt(file: Bytes, offset: nat): (r: Bytes)
    requires offset <= |file|
    ensures |r| <= BLOCK
  {
    if offset + BLOCK <= |file| then file[offset..offset + BLOCK] else file[offset..]
  }

  /** Where the catalog continues after a member whose header is at `offset`. */
  function Next(offset: nat, member: Member): (r: nat)
    ensures offset + BLOCK + member.size <= r
  {
    offset + BLOCK + Padded(member.size)
  }

  datatype Step = Refused(error: Error) | Marker | Found(member: Member)

  /** What the header block at `offset` is, after `count` members. */
  function StepAt(read: Reader, file: Bytes, offset: nat, count: nat): Step {
    if offset >= |file| then Refused(MissingEnd)
    else
      var header := BlockAt(file, offset);
      if IsZeroBlock(header) then Marker
      else
        var member := read(header, offset + BLOCK, count);
        if member.Err? then Refused(member.error) else Found(member.value)
  }

  /** Reads members from `offset` on, after `found`. */
  function CatalogFrom(read: Reader, file: Bytes, offset: nat, found: seq<Member>): Result<Catalog, Error>
    decreases |file| - offset
  {
    var step := StepAt(read, file, offset, |found|);
    if step.Refused? then Err(step.error)
    else if step.Marker? then Ok(Catalog(found, offset))
    else CatalogFrom(read, file, Next(offset, step.member), found + [step.member])
  }

  // ---- tiling ----

  /** Headers and padded data follow each other from `from` to `dataEnd` without gap or overlap. */
  ghost predicate Tiles(members: seq<Member>, from: nat, dataEnd: nat) {
    if members == [] then from == dataEnd
    else members[0].dataOffset == from + BLOCK && Tiles(members[1..], Next(from, members[0]), dataEnd)
  }

  lemma {:induction false} TilesAppend(members: seq<Member>, from: nat, end: nat, member: Member)
    requires Tiles(members, from, end) && member.dataOffset == end + BLOCK
    ensures Tiles(members + [member], from, Next(end, member))
  {
    if members == [] {
      assert (members + [member])[1..] == [];
    } else {
      TilesAppend(members[1..], Next(from, members[0]), end, member);
      assert (members + [member])[1..] == members[1..] + [member];
    }
  }

  lemma {:induction false} TilesGrow(members: seq<Member>, from: nat, end: nat)
    requires Tiles(members, from, end)
    ensures from <= end
  {
    if members != [] { TilesGrow(members[1..], Next(from, members[0]), end); }
  }

  lemma {:induction false} TiledWithin(members: seq<Member>, from: nat, end: nat, i: nat)
    requires Tiles(members, from, end) && i < |members|
    ensures from + BLOCK <= members[i].dataOffset && members[i].dataOffset + members[i].size <= end
    ensures i > 0 ==> members[i].dataOffset >= Next(from, members[0]) + BLOCK
  {
    if i > 0 { TiledWithin(members[1..], Next(from, members[0]), end, i - 1); }
    TilesGrow(members[1..], Next(from, members[0]), end);
  }

  /** The data of a later member starts after the data of an earlier one. */
  lemma {:induction false} TiledApart(members: seq<Member>, from: nat, end: nat, i: nat, j: nat)
    requires Tiles(members, from, end) && i < j < |members|
    ensures members[i].dataOffset + members[i].size + BLOCK <= members[j].dataOffset
  {
    if i == 0 {
      TiledWithin(members, from, end, j);
    } else {
      TiledApart(members[1..], Next(from, members[0]), end, i - 1, j - 1);
    }
  }

  /** An accepted catalog tiles the file up to its end marker. */
  lemma {:induction false} CatalogTiles(read: Reader, file: Bytes, offset: nat, found: seq<Member>, c: Catalog)
    requires Honest(read) && CatalogFrom(read, file, offset, found) == Ok(c) && Tiles(found, 0, offset)
    ensures Tiles(c.members, 0, c.dataEnd) && offset <= c.dataEnd && c.dataEnd + BLOCK <= |file|
    ensures IsZeroBlock(file[c.dataEnd..c.dataEnd + BLOCK])
    decreases |file| - offset
  {
    var step := StepAt(read, file, offset, |found|);
    if step.Found? {
      TilesAppend(found, 0, offset, step.member);
      CatalogTiles(read, file, Next(offset, step.member), found + [step.member], c);
    }
  }

  // ---- files that share data ----

  lemma SharedStep(read: Reader, file: Bytes, other: Bytes, offset: nat, end: nat, count: nat)
    requires offset + BLOCK <= end <= |file| && end <= |other| && other[..end] == file[..end]
    ensures StepAt(read, other, offset, count) == StepAt(read, file, offset, count)
  {
    assert other[offset..offset + BLOCK] == other[..end][offset..offset + BLOCK];
    assert file[offset..offset + BLOCK] == file[..end][offset..offset + BLOCK];
  }

  /** Cataloguing another file that shares the data reaches the same members at the old end. */
  lemma {:induction false} SharedData(read: Reader, file: Bytes, other: Bytes, offset: nat, found: seq<Member>, c: Catalog)
    requires Honest(read) && CatalogFrom(read, file, offset, found) == Ok(c) && Tiles(found, 0, offset)
    requires c.dataEnd <= |file| && c.dataEnd <= |other| && other[..c.dataEnd] == file[..c.dataEnd]
    ensures CatalogFrom(read, other, offset, found) == CatalogFrom(read, other, c.dataEnd, c.members)
    decreases |file| - offset
  {
    var step := StepAt(read, file, offset, |found|);
    if step.Found? {
      TilesAppend(found, 0, offset, step.member);
      CatalogTiles(read, file, Next(offset, step.member), found + [step.member], c);
      SharedStep(read, file, other, offset, c.dataEnd, |found|);
      SharedData(read, file, other, Next(offset, step.member), found + [step.member], c);
    }
  }

  /** A member's data in a file. */
  function DataOf(file: Bytes, m: Member): Bytes
    requires m.dataOffset + m.size <= |file|
  {
    file[m.dataOffset..m.dataOffset + m.size]
  }

  lemma SameData(file: Bytes, other: Bytes, end: nat, m: Member)
    requires end <= |file| && end <= |other| && other[..end] == file[..end] && m.dataOffset + m.size <= end
    ensures DataOf(other, m) == DataOf(file, m)
  {
    assert DataOf(other, m) == other[..end][m.dataOffset..m.dataOffset + m.size];
    assert DataOf(file, m) == file[..end][m.dataOffset..m.dataOffset + m.size];
  }

  /** Every listed member has the same data, inside both files. */
  ghost predicate KeepsData(file: Bytes, other: Bytes, members: seq<Member>) {
    forall i | 0 <= i < |members| ::
      && members[i].dataOffset + members[i].size <= |file| && members[i].dataOffset + members[i].size <= |other|
      && DataOf(other, members[i]) == DataOf(file, members[i])
  }

  lemma TiledDataKept(file: Bytes, other: Bytes, members: seq<Member>, end: nat)
    requires Tiles(members, 0, end) && end <= |file| && end <= |other| && other[..end] == file[..end]
    ensures KeepsData(file, other, members)
  {
    forall i | 0 <= i < |members|
      ensures members[i].dataOffset + members[i].size <= end && DataOf(other, members[i]) == DataOf(file, members[i])
    {
      TiledWithin(members, 0, end, i);
      SameData(file, other, end, members[i]);
    }
  }

  // ---- one more member ----

  /** `rest` starts with a header block, its data with padding, and a zero block. */
  ghost predicate OneMemberTail(rest: Bytes, header: Bytes, data: Bytes) {
    && |header| == BLOCK && BLOCK + Padded(|data|) + BLOCK <= |rest|
    && rest[..BLOCK] == header && rest[BLOCK..BLOCK + |data|] == data
    && IsZeroBlock(rest[BLOCK + Padded(|data|)..BLOCK + Padded(|data|) + BLOCK])
  }

  lemma SliceOfSum(front: Bytes, rest: Bytes, lo: nat, hi: nat)
    requires lo <= hi <= |rest|
    ensures (front + rest)[|front| + lo..|front| + hi] == rest[lo..hi]
  {
  }

  lemma StepAtTail(read: Reader, front: Bytes, rest: Bytes, header: Bytes, data: Bytes, count: nat, member: Member)
    requires OneMemberTail(rest, header, data) && !IsZeroBlock(header)
    requires read(header, |front| + BLOCK, count) == Ok(member)
    ensures StepAt(read, front + rest, |front|, count) == Found(member)
  {
    SliceOfSum(front, rest, 0, BLOCK);
    assert rest[0..BLOCK] == header;
  }

  lemma StepAfterTail(read: Reader, front: Bytes, rest: Bytes, header: Bytes, data: Bytes, count: nat, member: Member)
    requires OneMemberTail(rest, header, data) && member.size == |data|
    ensures StepAt(read, front + rest, Next(|front|, member), count) == Marker
  {
    SliceOfSum(front, rest, BLOCK + Padded(|data|), BLOCK + Padded(|data|) + BLOCK);
  }

  lemma StopsAt(read: Reader, file: Bytes, offset: nat, found: seq<Member>)
    requires StepAt(read, file, offset, |found|) == Marker
    ensures CatalogFrom(read, file, offset, found) == Ok(Catalog(found, offset))
  {
  }

  lemma GoesOn(read: Reader, file: Bytes, offset: nat, found: seq<Member>, member: Member)
    requires StepAt(read, file, offset, |found|) == Found(member)
    ensures CatalogFrom(read, file, offset, found) == CatalogFrom(read, file, Next(offset, member), found + [member])
  {
  }

  /** From the end of `front` on, the file holds one more member and then ends. */
  lemma TailCatalogs(read: Reader, front: Bytes, rest: Bytes, header: Bytes, data: Bytes, found: seq<Member>, member: Member)
    requires OneMemberTail(rest, header, data) && !IsZeroBlock(header)
    requires read(header, |front| + BLOCK, |found|) == Ok(member) && member.size == |data|
    ensures CatalogFrom(read, front + rest, |front|, found) == Ok(Catalog(found + [member], Next(|front|, member)))
  {
    StepAtTail(read, front, rest, header, data, |found|, member);
    GoesOn(read, front + rest, |front|, found, member);
    StepAfterTail(read, front, rest, header, data, |found + [member]|, member);
    StopsAt(read, front + rest, Next(|front|, member), found + [member]);
  }

  lemma TailData(front: Bytes, rest: Bytes, header: Bytes, data: Bytes, member: Member)
    requires OneMemberTail(rest, header, data) && member.dataOffset == |front| + BLOCK && member.size == |data|
    ensures member.dataOffset + member.size <= |front + rest| && DataOf(front + rest, member) == data
  {
    SliceOfSum(front, rest, BLOCK, BLOCK + |data|);
  }

  lemma FrontKept(file: Bytes, rest: Bytes, end: nat)
    requires end <= |file|
    ensures end <= |file[..end] + rest| && (file[..end] + rest)[..end] == file[..end]
  {
  }

  /** One more member after an accepted archive's data: the catalog is the old members, then that one. */
  lemma SpliceCatalogs(read: Reader, file: Bytes, rest: Bytes, header: Bytes, data: Bytes, member: Member, c: Catalog)
    requires Honest(read) && CatalogFrom(read, file, 0, []) == Ok(c) && OneMemberTail(rest, header, data) && !IsZeroBlock(header)
    requires read(header, c.dataEnd + BLOCK, |c.members|) == Ok(member) && member.size == |data|
    ensures c.dataEnd <= |file|
    ensures CatalogFrom(read, file[..c.dataEnd] + rest, 0, []) == Ok(Catalog(c.members + [member], Next(c.dataEnd, member)))
  {
    hide CatalogFrom, StepAt, OneMemberTail, IsZeroBlock, Honest;
    CatalogTiles(read, file, 0, [], c);
    FrontKept(file, rest, c.dataEnd);
    SharedData(read, file, file[..c.dataEnd] + rest, 0, [], c);
    TailCatalogs(read, file[..c.dataEnd], rest, header, data, c.members, member);
  }

  /** One more member after an accepted archive's data: every old member keeps its bytes, the new one has its own. */
  lemma SpliceKeeps(read: Reader, file: Bytes, rest: Bytes, header: Bytes, data: Bytes, member: Member, c: Catalog)
    requires Honest(read) && CatalogFrom(read, file, 0, []) == Ok(c) && OneMemberTail(rest, header, data)
    requires member.dataOffset == c.dataEnd + BLOCK && member.size == |data|
    ensures c.dataEnd <= |file|
    ensures var spliced := file[..c.dataEnd] + rest;
            member.dataOffset + member.size <= |spliced| && DataOf(spliced, member) == data && KeepsData(file, spliced, c.members)
  {
    CatalogTiles(read, file, 0, [], c);
    FrontKept(file, rest, c.dataEnd);
    TiledDataKept(file, file[..c.dataEnd] + rest, c.members, c.dataEnd);
    TailData(file[..c.dataEnd], rest, header, data, member);
  }
}
