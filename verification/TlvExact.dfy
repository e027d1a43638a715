/**
  What the strict image reader makes of any file: the header's fields by octet, where the areas must stand,
  and the hash found or the file refused, case by case.
 */
module TlvExact {
  import opened Common
  import opened Tlv

  // --- The header ----------------------------------------------------------------------------------

  /** A number of two octets, the low one first. */
  function Two(s: seq<byte>, at: nat): nat
    requires at + 2 <= |s|
  {
    s[at] as int + 256 * (s[at + 1] as int)
  }

  /** A number of four octets, the lowest first. */
  function Four(s: seq<byte>, at: nat): nat
    requires at + 4 <= |s|
  {
    Two(s, at) + 65536 * Two(s, at + 2)
  }

  /**
    The header by octets: the magic number in the first four, then from octet 8 the header's own size, the size
    of the protected area and the image's; two flags mean encryption, and the version is in octets 20 to 27.
   */
  lemma HeaderByOctets(s: seq<byte>)
    ensures ParseHeader(s).Ok? <==>
            && |s| >= 32 && Four(s, 0) == 0x96F3B83D
            && 32 <= Two(s, 8) && Two(s, 8) + Four(s, 12) <= 16 * 1024 * 1024
    ensures ParseHeader(s).Ok? ==>
              var info := ParseHeader(s).value;
              && info.headerSize == Two(s, 8) && info.protectedTlvSize == Two(s, 10) && info.imageSize == Four(s, 12)
              && (info.encrypted <==> s[16] & 0x04 != 0 || s[16] & 0x08 != 0)
              && info.version.major == s[20] as int && info.version.minor == s[21] as int
              && info.version.revision == Two(s, 22) && info.version.build == Four(s, 24)
    ensures ParseHeader(s).Err? ==> ParseHeader(s).error == BadHeader
  {
    hide Le16, Le32, Two, Four;
    if |s| >= 32 {
      EncryptionFlags(s[16]);
      SameTwo(s, 8);
      SameTwo(s, 10);
      SameTwo(s, 22);
      SameFour(s, 0);
      SameFour(s, 12);
      SameFour(s, 24);
    }
  }

  lemma SameTwo(s: seq<byte>, at: nat)
    requires at + 2 <= |s|
    ensures Le16(s, at) == Two(s, at)
  {
  }

  lemma SameFour(s: seq<byte>, at: nat)
    requires at + 4 <= |s|
    ensures Le32(s, at) == Four(s, at)
  {
    hide Le16, Two;
    SameTwo(s, at);
    SameTwo(s, at + 2);
  }

  lemma EncryptionFlags(flags: byte)
    ensures flags & 0x0C != 0 <==> flags & 0x04 != 0 || flags & 0x08 != 0
  {
  }

  // --- The areas -----------------------------------------------------------------------------------

  /** Where the areas must stand: the unprotected one behind the protected one, which is there exactly if declared. */
  predicate AreasStand(file: seq<byte>, info: ImageInfo) {
    var base := info.headerSize + info.imageSize;
    var start := base + info.protectedTlvSize;
    && start + 4 <= |file| && Two(file, start) == 0x6907
    && 4 <= Two(file, start + 2) && start + Two(file, start + 2) <= |file|
    && (info.protectedTlvSize != 0 ==>
          4 <= info.protectedTlvSize && Two(file, base) == 0x6908 && Two(file, base + 2) == info.protectedTlvSize)
  }

  lemma AreasByOctets(file: seq<byte>, info: ImageInfo)
    ensures ResolveLayout(file, info).Ok? <==> AreasStand(file, info)
    ensures AreasStand(file, info) ==>
              var base := info.headerSize + info.imageSize;
              var start := base + info.protectedTlvSize;
              ResolveLayout(file, info) == Ok(Layout(base + 4, start, start + Two(file, start + 2)))
  {
    hide Le16, Two;
    forall at | 0 <= at && at + 2 <= |file|
      ensures Le16(file, at) == Two(file, at)
    {
      SameTwo(file, at);
    }
  }

  // --- The hash ------------------------------------------------------------------------------------

  /** A hash entry has the length of its kind: 32, 48 or 64 octets. */
  predicate Regular(file: seq<byte>, at: nat)
    requires at + TLV_HEADER_SIZE <= |file|
  {
    var kind, length := Le16(file, at), Le16(file, at + 2);
    (kind == 0x10 && length == 32) || (kind == 0x11 && length == 48) || (kind == 0x12 && length == 64)
  }

  predicate IsHash(file: seq<byte>, at: nat)
    requires at + TLV_HEADER_SIZE <= |file|
  {
    Le16(file, at) == 0x10 || Le16(file, at) == 0x11 || Le16(file, at) == 0x12
  }

  /** Where the hash entries of a tiled run stand. */
  function Hashes(file: seq<byte>, offset: nat, end: nat): (r: seq<nat>)
    requires end <= |file| && Tiles(file, offset, end)
    ensures forall k :: 0 <= k < |r| ==> EntryFits(file, r[k], end)
    decreases end - offset
  {
    if offset == end then []
    else (if IsHash(file, offset) then [offset] else []) + Hashes(file, EntryEnd(file, offset), end)
  }

  /** No hash entry: what was found before. One, of the right length, and none before: its octets. Else refused. */
  function Verdict(file: seq<byte>, end: nat, hashes: seq<nat>, found: Option<seq<byte>>)
    : Result<Option<seq<byte>>, ImageError>
    requires forall k :: 0 <= k < |hashes| ==> EntryFits(file, hashes[k], end)
  {
    if hashes == [] then Ok(found) else
    var at := hashes[0];
    assert EntryFits(file, at, end);
    if |hashes| == 1 && found.None? && Regular(file, at) then Ok(Some(file[at + TLV_HEADER_SIZE..EntryEnd(file, at)]))
    else Err(Malformed)
  }

  /** One run judged by itself: refused if it is not tiled or takes too many steps, else by its hashes. */
  function Alone(file: seq<byte>, offset: nat, end: nat, visited: nat, found: Option<seq<byte>>)
    : Result<Option<seq<byte>>, ImageError>
    requires end <= |file|
  {
    if Tiles(file, offset, end) && visited + Count(file, offset, end) <= 256 then
      Verdict(file, end, Hashes(file, offset, end), found)
    else Err(Malformed)
  }

  /** One entry more ahead of a run. */
  lemma AloneOneMore(file: seq<byte>, offset: nat, end: nat, visited: nat, found: Option<seq<byte>>)
    requires EntryFits(file, offset, end) && visited < 256
    ensures var next := EntryEnd(file, offset);
            Alone(file, offset, end, visited, found)
            == if !IsHash(file, offset) then Alone(file, next, end, visited + 1, found)
               else if Regular(file, offset) && found.None? then
                 Alone(file, next, end, visited + 1, Some(file[offset + TLV_HEADER_SIZE..next]))
               else Err(Malformed)
  {
    hide Le16, IsHash, Regular;
  }

  lemma AloneEnds(file: seq<byte>, offset: nat, end: nat, visited: nat, found: Option<seq<byte>>)
    requires offset <= end <= |file| && visited <= 256
    ensures offset == end ==> Alone(file, offset, end, visited, found) == Ok(found)
    ensures offset < end && (visited == 256 || !EntryFits(file, offset, end)) ==>
              Alone(file, offset, end, visited, found) == Err(Malformed)
  {
    hide Le16;
  }

  /** With no area boundary ahead, the scan judges the run. */
  lemma {:induction false} ScanExactly(file: seq<byte>, info: ImageInfo, layout: Layout, offset: nat, visited: nat,
                                       found: Option<seq<byte>>)
    requires offset <= layout.end <= |file| && visited <= MAX_IMAGE_TLVS
    requires info.protectedTlvSize == 0 || layout.protectedEnd < offset
    ensures Scan(file, info, layout, offset, visited, found) == Alone(file, offset, layout.end, visited, found)
    decreases layout.end - offset
  {
    hide Le16, Alone;
    AloneEnds(file, offset, layout.end, visited, found);
    if offset < layout.end && visited < MAX_IMAGE_TLVS && EntryFits(file, offset, layout.end) {
      AloneOneMore(file, offset, layout.end, visited, found);
      var next := EntryEnd(file, offset);
      if !IsHash(file, offset) {
        ScanExactly(file, info, layout, next, visited + 1, found);
      } else if Regular(file, offset) && found.None? {
        ScanExactly(file, info, layout, next, visited + 1, Some(file[offset + TLV_HEADER_SIZE..next]));
      }
    }
  }

  /** Both runs judged together, and one step more for the header between them. */
  function Across(file: seq<byte>, offset: nat, boundary: nat, end: nat, visited: nat, found: Option<seq<byte>>)
    : Result<Option<seq<byte>>, ImageError>
    requires boundary + TLV_HEADER_SIZE <= end <= |file| && Tiles(file, offset, boundary)
  {
    var second := boundary + TLV_HEADER_SIZE;
    if Tiles(file, second, end) && visited + Count(file, offset, boundary) + 1 + Count(file, second, end) <= 256 then
      Further(file, offset, boundary, end);
      Verdict(file, end, Hashes(file, offset, boundary) + Hashes(file, second, end), found)
    else Err(Malformed)
  }

  lemma Further(file: seq<byte>, offset: nat, boundary: nat, end: nat)
    requires boundary <= end <= |file| && Tiles(file, offset, boundary)
    ensures forall k :: 0 <= k < |Hashes(file, offset, boundary)| ==>
              EntryFits(file, Hashes(file, offset, boundary)[k], end)
  {
    hide Hashes, Tiles;
    assert forall at :: EntryFits(file, at, boundary) ==> EntryFits(file, at, end);
  }

  /** One entry more ahead of the boundary. */
  lemma AcrossOneMore(file: seq<byte>, offset: nat, boundary: nat, end: nat, visited: nat, found: Option<seq<byte>>)
    requires offset < boundary && boundary + TLV_HEADER_SIZE <= end <= |file| && Tiles(file, offset, boundary)
    ensures var next := EntryEnd(file, offset);
            && offset + TLV_HEADER_SIZE <= next <= boundary && Tiles(file, next, boundary)
            && Across(file, offset, boundary, end, visited, found)
               == if !IsHash(file, offset) then Across(file, next, boundary, end, visited + 1, found)
                  else if Regular(file, offset) && found.None? then
                    Across(file, next, boundary, end, visited + 1, Some(file[offset + TLV_HEADER_SIZE..next]))
                  else Err(Malformed)
  {
    hide Le16, IsHash, Regular;
  }

  /** Entries that end at the area boundary: both areas are scanned. */
  lemma {:induction false} ScanAligned(file: seq<byte>, info: ImageInfo, layout: Layout, offset: nat, visited: nat,
                                       found: Option<seq<byte>>)
    requires offset <= layout.protectedEnd && layout.protectedEnd + TLV_HEADER_SIZE <= layout.end <= |file|
    requires info.protectedTlvSize != 0 && visited <= MAX_IMAGE_TLVS && Tiles(file, offset, layout.protectedEnd)
    ensures Scan(file, info, layout, offset, visited, found)
            == Across(file, offset, layout.protectedEnd, layout.end, visited, found)
    decreases layout.end - offset
  {
    hide Le16, Tiles;
    var boundary := layout.protectedEnd;
    if visited == MAX_IMAGE_TLVS {
    } else if offset == boundary {
      AtBoundary(file, boundary, layout.end, visited, found);
      ScanExactly(file, info, layout, boundary + TLV_HEADER_SIZE, visited + 1, found);
    } else {
      AcrossOneMore(file, offset, boundary, layout.end, visited, found);
      hide Across;
      var next := EntryEnd(file, offset);
      if !IsHash(file, offset) {
        ScanAligned(file, info, layout, next, visited + 1, found);
      } else if Regular(file, offset) && found.None? {
        ScanAligned(file, info, layout, next, visited + 1, Some(file[offset + TLV_HEADER_SIZE..next]));
      }
    }
  }

  lemma AtBoundary(file: seq<byte>, boundary: nat, end: nat, visited: nat, found: Option<seq<byte>>)
    requires boundary + TLV_HEADER_SIZE <= end <= |file| && Tiles(file, boundary, boundary)
    ensures var second := boundary + TLV_HEADER_SIZE;
            Across(file, boundary, boundary, end, visited, found) == Alone(file, second, end, visited + 1, found)
  {
    hide Le16;
    var second := boundary + TLV_HEADER_SIZE;
    if Tiles(file, second, end) {
      assert [] + Hashes(file, second, end) == Hashes(file, second, end);
    }
  }

  /** Entries that do not: the boundary is never met, and the scan runs on to the end. */
  lemma {:induction false} ScanUnaligned(file: seq<byte>, info: ImageInfo, layout: Layout, offset: nat, visited: nat,
                                         found: Option<seq<byte>>)
    requires offset <= layout.protectedEnd <= layout.end <= |file| && visited <= MAX_IMAGE_TLVS
    requires info.protectedTlvSize != 0 && !Tiles(file, offset, layout.protectedEnd)
    ensures Scan(file, info, layout, offset, visited, found) == Alone(file, offset, layout.end, visited, found)
    decreases layout.end - offset, 0
  {
    hide Le16, Alone;
    AloneEnds(file, offset, layout.end, visited, found);
    if visited < MAX_IMAGE_TLVS && EntryFits(file, offset, layout.end) {
      AloneOneMore(file, offset, layout.end, visited, found);
      var next := EntryEnd(file, offset);
      if !IsHash(file, offset) {
        Onwards(file, info, layout, next, visited + 1, found);
      } else if Regular(file, offset) && found.None? {
        Onwards(file, info, layout, next, visited + 1, Some(file[offset + TLV_HEADER_SIZE..next]));
      }
    }
  }

  lemma {:induction false} Onwards(file: seq<byte>, info: ImageInfo, layout: Layout, next: nat, visited: nat,
                                   found: Option<seq<byte>>)
    requires next <= layout.end <= |file| && layout.protectedEnd <= layout.end && visited <= MAX_IMAGE_TLVS
    requires info.protectedTlvSize != 0
    requires next <= layout.protectedEnd ==> !Tiles(file, next, layout.protectedEnd)
    ensures Scan(file, info, layout, next, visited, found) == Alone(file, next, layout.end, visited, found)
    decreases layout.end - next, 1
  {
    if next <= layout.protectedEnd {
      ScanUnaligned(file, info, layout, next, visited, found);
    } else {
      ScanExactly(file, info, layout, next, visited, found);
    }
  }

  /**
    The hash of any file: none for an encrypted one; refused if an area does not stand where it must; and else
    decided by the hash entries of the areas, which must be tiled by at most 256 steps. If the entries of a
    protected area do not end where it does, the two areas are read as one run.
   */
  lemma HashByCase(file: seq<byte>, info: ImageInfo)
    ensures info.encrypted ==> TlvHash(file, info) == Ok(None)
    ensures !info.encrypted && !AreasStand(file, info) ==> TlvHash(file, info).Err?
    ensures !info.encrypted && AreasStand(file, info) ==>
              var first := info.headerSize + info.imageSize + 4;
              var boundary := first - 4 + info.protectedTlvSize;
              var end := boundary + Two(file, boundary + 2);
              TlvHash(file, info)
              == if info.protectedTlvSize != 0 && Tiles(file, first, boundary) then
                   Across(file, first, boundary, end, 0, None)
                 else Alone(file, first, end, 0, None)
  {
    hide Scan, ResolveLayout, Tiles, Alone, Across;
    AreasByOctets(file, info);
    if !info.encrypted && ResolveLayout(file, info).Ok? {
      var layout := ResolveLayout(file, info).value;
      if info.protectedTlvSize == 0 {
        ScanExactly(file, info, layout, layout.first, 0, None);
      } else if Tiles(file, layout.first, layout.protectedEnd) {
        ScanAligned(file, info, layout, layout.first, 0, None);
      } else {
        ScanUnaligned(file, info, layout, layout.first, 0, None);
      }
    }
  }

  // --- The lenient reader --------------------------------------------------------------------------

  /** The octets of the last SHA-256 entry of a tiled run, or what was found before. */
  function LastSha(file: seq<byte>, offset: nat, end: nat, before: seq<byte>): seq<byte>
    requires end <= |file| && Tiles(file, offset, end)
    decreases end - offset
  {
    if offset == end then before
    else
      var next := EntryEnd(file, offset);
      var rest := LastSha(file, next, end, before);
      if Le16(file, offset) == 0x10 && NoSha(file, next, end) then file[offset + TLV_HEADER_SIZE..next] else rest
  }

  predicate NoSha(file: seq<byte>, offset: nat, end: nat)
    requires end <= |file| && Tiles(file, offset, end)
    decreases end - offset
  {
    offset == end || (Le16(file, offset) != 0x10 && NoSha(file, EntryEnd(file, offset), end))
  }

  /** Without a SHA-256 a run gives what was found before; with one, that does not matter. */
  lemma {:induction false} LastShaOf(file: seq<byte>, offset: nat, end: nat, a: seq<byte>, b: seq<byte>)
    requires end <= |file| && Tiles(file, offset, end)
    ensures NoSha(file, offset, end) ==> LastSha(file, offset, end, a) == a
    ensures !NoSha(file, offset, end) ==> LastSha(file, offset, end, a) == LastSha(file, offset, end, b)
    decreases end - offset
  {
    hide Le16;
    if offset == end {
    } else {
      LastShaOf(file, EntryEnd(file, offset), end, a, b);
    }
  }

  /** A tiled run gives the octets of its last SHA-256, and a protected one gives nothing. */
  lemma {:induction false} WalkExactly(file: seq<byte>, entry: nat, end: nat, unprotected: bool, hash: seq<byte>)
    requires entry <= end <= |file| && Tiles(file, entry, end)
    ensures Walk(file, entry, end, unprotected, hash) == if unprotected then LastSha(file, entry, end, hash) else hash
    decreases end - entry
  {
    hide Le16;
    if entry == end {
    } else {
      var next := EntryEnd(file, entry);
      var found := if Le16(file, entry) == 0x10 && unprotected then file[entry + TLV_HEADER_SIZE..next] else hash;
      WalkExactly(file, next, end, unprotected, found);
      LastShaOf(file, next, end, found, hash);
    }
  }

  /** There is no area at `at`: nothing there, no magic number, a length below a header's, or past the end. */
  predicate NoArea(file: seq<byte>, at: nat) {
    at + 4 > |file| || (Two(file, at) != 0x6907 && Two(file, at) != 0x6908)
    || Two(file, at + 2) < 4 || at + Two(file, at + 2) > |file|
  }

  lemma NoAreaWalked(file: seq<byte>, at: nat, areas: nat, hash: seq<byte>)
    requires NoArea(file, at)
    ensures WalkAreas(file, at, areas, hash) == hash
  {
    hide Le16, Two;
    if at + 4 <= |file| {
      SameTwo(file, at);
      SameTwo(file, at + 2);
    }
  }

  /** What the lenient reader finds: nothing, if there is no area behind the image. */
  lemma LenientWithoutArea(file: seq<byte>, info: ImageInfo)
    requires ParseHeader(file) == Ok(info) && NoArea(file, info.headerSize + info.imageSize)
    ensures Describe(file).Some? && Describe(file).value.hash == []
  {
    hide Le16, Le32, Two, WalkAreas, NoArea;
    NoAreaWalked(file, info.headerSize + info.imageSize, 2, []);
  }

  /** ... and if the areas are laid out, the last SHA-256 of the unprotected one, whatever a protected one holds. */
  lemma LenientFindsLast(file: seq<byte>, info: ImageInfo, first: nat, end: nat)
    requires ParseHeader(file) == Ok(info) && LaidOut(file, info, end)
    requires first == UnprotectedAt(info) + TLV_HEADER_SIZE && end <= |file| && Tiles(file, first, end)
    ensures Describe(file).Some? && Describe(file).value.hash == LastSha(file, first, end, [])
  {
    hide Le16, Le32, Two, LastSha, Walk, Tiles;
    var base, start := info.headerSize + info.imageSize, UnprotectedAt(info);
    WalkExactly(file, start + TLV_HEADER_SIZE, end, true, []);
    if info.protectedTlvSize != 0 {
      WalkExactly(file, base + TLV_HEADER_SIZE, start, false, []);
      assert WalkAreas(file, base, 2, []) == WalkAreas(file, start, 1, []);
    }
  }
}
