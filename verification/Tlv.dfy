/**
  MCUboot images: the 32-byte header, the TLV areas behind the body, and the two readers that look for
  the image's hash there. The client's reader is strict; the oracle's is lenient. On
  well-formed images they find the same hash.
 */
module Tlv {
  import opened Common

  const IMAGE_MAGIC := 0x96F3B83D
  const HEADER_SIZE := 32
  const TLV_HEADER_SIZE := 4
  const TLV_INFO_MAGIC := 0x6907
  const TLV_PROT_INFO_MAGIC := 0x6908
  const TLV_SHA256 := 0x10
  const TLV_SHA384 := 0x11
  const TLV_SHA512 := 0x12
  const MAX_IMAGE_SIZE := 16 * 1024 * 1024
  const MAX_IMAGE_TLVS := 256

  datatype ImageVersion = ImageVersion(major: nat, minor: nat, revision: nat, build: nat)

  // --- The client's reader -----------------------------------------------------------------------

  datatype ImageError = BadHeader | PastEnd | Malformed

  datatype ImageInfo = ImageInfo(
    headerSize: nat, protectedTlvSize: nat, imageSize: nat, encrypted: bool, version: ImageVersion)

  function VersionAt20(s: seq<byte>): ImageVersion
    requires |s| >= HEADER_SIZE
  {
    ImageVersion(s[20] as int, s[21] as int, Le16(s, 22), Le32(s, 24))
  }

  /** Either of the header's two encryption flags, both in the lowest octet of the flags. */
  predicate Encrypted(s: seq<byte>)
    requires |s| >= HEADER_SIZE
  {
    s[16] & 0x0C != 0
  }

  /** `flags & IMAGE_F_NON_BOOTABLE`. */
  predicate NonBootable(s: seq<byte>)
    requires |s| >= HEADER_SIZE
  {
    s[16] & 0x10 != 0
  }

  function ParseHeader(s: seq<byte>): (r: Result<ImageInfo, ImageError>)
    ensures r.Ok? ==>
            |s| >= HEADER_SIZE && r.value.headerSize >= HEADER_SIZE
                && r.value.headerSize + r.value.imageSize <= MAX_IMAGE_SIZE
  {
    if |s| < HEADER_SIZE || Le32(s, 0) != IMAGE_MAGIC then Err(BadHeader) else
    var info := ImageInfo(Le16(s, 8), Le16(s, 10), Le32(s, 12), Encrypted(s), VersionAt20(s));
    if info.headerSize < HEADER_SIZE || info.headerSize + info.imageSize > MAX_IMAGE_SIZE then Err(BadHeader)
        else Ok(info)
  }

  /** The two 16-bit numbers at `at`, if the file reaches that far. */
  function AreaHeader(file: seq<byte>, at: nat): (r: Result<(nat, nat), ImageError>)
    ensures r.Ok? ==> at + TLV_HEADER_SIZE <= |file| && r.value == (Le16(file, at), Le16(file, at + 2))
  {
    if at + TLV_HEADER_SIZE > |file| then Err(PastEnd) else Ok((Le16(file, at), Le16(file, at + 2)))
  }

  /** Where the entries begin, where a protected area ends, and where the last area does. */
  datatype Layout = Layout(first: nat, protectedEnd: nat, end: nat)

  function ResolveLayout(file: seq<byte>, info: ImageInfo): (r: Result<Layout, ImageError>)
    ensures r.Ok? ==> r.value.end <= |file| && r.value.first <= r.value.end
  {
    var base := info.headerSize + info.imageSize;
    var first := AreaHeader(file, base);
    if first.Err? then Err(first.error) else
    var unprotected :=
      if first.value.0 == TLV_PROT_INFO_MAGIC then
        if info.protectedTlvSize != first.value.1 || first.value.1 < TLV_HEADER_SIZE then Err(Malformed) else
        var second := AreaHeader(file, base + first.value.1);
        if second.Err? then Err(second.error)
        else if second.value.0 != TLV_INFO_MAGIC then Err(Malformed)
        else Ok(second.value.1)
      else if info.protectedTlvSize != 0 || first.value.0 != TLV_INFO_MAGIC then Err(Malformed)
      else Ok(first.value.1);
    if unprotected.Err? then Err(unprotected.error)
    else if unprotected.value < TLV_HEADER_SIZE then Err(Malformed)
    else
      var protectedEnd := base + info.protectedTlvSize;
      var end := protectedEnd + unprotected.value;
      if end > |file| then Err(Malformed) else Ok(Layout(base + TLV_HEADER_SIZE, protectedEnd, end))
  }

  function HashLength(kind: nat): Option<nat> {
    if kind == TLV_SHA256 then Some(32) else if kind == TLV_SHA384 then Some(48)
        else if kind == TLV_SHA512 then Some(64) else None
  }

  /** What the scan makes of the rest of the region, given what it found so far. */
  function Scan(file: seq<byte>, info: ImageInfo, layout: Layout, offset: nat, visited: nat, found: Option<seq<byte>>)
    : Result<Option<seq<byte>>, ImageError>
    requires layout.end <= |file|
    decreases layout.end - offset
  {
    if offset >= layout.end then Ok(found)
    else if visited == MAX_IMAGE_TLVS then Err(Malformed)
    else if info.protectedTlvSize != 0 && offset == layout.protectedEnd then
      Scan(file, info, layout, offset + TLV_HEADER_SIZE, visited + 1, found)
    else if TLV_HEADER_SIZE > layout.end - offset then Err(Malformed)
    else
      var kind, length := Le16(file, offset), Le16(file, offset + 2);
      if length > layout.end - offset - TLV_HEADER_SIZE then Err(Malformed)
      else if HashLength(kind).None? then Scan(file, info, layout, offset + TLV_HEADER_SIZE + length, visited + 1,
                                               found)
      else if length != HashLength(kind).value || found.Some? then Err(Malformed)
      else Scan(file, info, layout, offset + TLV_HEADER_SIZE + length, visited + 1,
                Some(file[offset + TLV_HEADER_SIZE..offset + TLV_HEADER_SIZE + length]))
  }

  function TlvHash(file: seq<byte>, info: ImageInfo): Result<Option<seq<byte>>, ImageError> {
    if info.encrypted then Ok(None) else
    match ResolveLayout(file, info)
    case Err(e) => Err(e)
    case Ok(layout) => Scan(file, info, layout, layout.first, 0, None)
  }

  /** The scan as it runs: every read is in bounds and the offset strictly grows, whatever the file says. */
  method FindImageTlvHash(file: seq<byte>, info: ImageInfo) returns (r: Result<Option<seq<byte>>, ImageError>)
    ensures r == TlvHash(file, info)
  {
    hide Le16, Le32, ResolveLayout;
    if info.encrypted {
      return Ok(None);
    }
    var resolved := ResolveLayout(file, info);
    if resolved.Err? {
      return Err(resolved.error);
    }
    var layout := resolved.value;
    var found: Option<seq<byte>> := None;
    var offset, visited := layout.first, 0;
    while offset < layout.end
      invariant Scan(file, info, layout, offset, visited, found) == Scan(file, info, layout, layout.first, 0, None)
      decreases layout.end - offset
    {
      if visited == MAX_IMAGE_TLVS {
        return Err(Malformed);
      }
      visited := visited + 1;
      if info.protectedTlvSize != 0 && offset == layout.protectedEnd {
        offset := offset + TLV_HEADER_SIZE;
        continue;
      }
      if TLV_HEADER_SIZE > layout.end - offset {
        return Err(Malformed);
      }
      var kind, length := Le16(file, offset), Le16(file, offset + 2);
      if length > layout.end - offset - TLV_HEADER_SIZE {
        return Err(Malformed);
      }
      if HashLength(kind).Some? {
        if length != HashLength(kind).value || found.Some? {
          return Err(Malformed);
        }
        found := Some(file[offset + TLV_HEADER_SIZE..offset + TLV_HEADER_SIZE + length]);
      }
      offset := offset + TLV_HEADER_SIZE + length;
    }
    return Ok(found);
  }

  // --- The boot model's reader -------------------------------------------------------------------

  /** What image-state says about a slot; the version text is kept as its four numbers. */
  datatype SlotImage = SlotImage(version: ImageVersion, hash: seq<byte>, bootable: bool)

  const TWO_64 := 0x1_0000_0000_0000_0000

  /** `base + add` computed in 64 bits neither wraps nor passes `limit`. */
  predicate Fits(base: nat, add: nat, limit: nat) {
    var end := (base + add) % TWO_64;
    end >= base && end <= limit
  }

  /** In the ranges it is used in, the wrapped test is the exact one. */
  lemma FitsExact(base: nat, add: nat, limit: nat)
    requires base < TWO_64 && add < TWO_64 && limit < TWO_64
    ensures Fits(base, add, limit) <==> base + add <= limit
  {
    if base + add >= TWO_64 {
      assert (base + add) % TWO_64 == base + add - TWO_64;
    }
  }

  /** The hash after walking the entries from `entry` on: the last SHA-256 of an unprotected area wins. */
  function Walk(content: seq<byte>, entry: nat, areaEnd: nat, unprotected: bool, hash: seq<byte>): seq<byte>
    requires areaEnd <= |content|
    decreases areaEnd - entry
  {
    if entry + TLV_HEADER_SIZE > areaEnd then hash else
    var kind, length := Le16(content, entry), Le16(content, entry + 2);
    var value := entry + TLV_HEADER_SIZE;
    if value + length > areaEnd then hash
    else Walk(content, value + length, areaEnd, unprotected,
              if kind == TLV_SHA256 && unprotected then content[value..value + length] else hash)
  }

  /** Walks at most `areas` areas from `offset`, stopping behind the unprotected one. */
  function WalkAreas(content: seq<byte>, offset: nat, areas: nat, hash: seq<byte>): seq<byte>
    decreases areas
  {
    if areas == 0 || offset + TLV_HEADER_SIZE > |content| then hash else
    var magic, total := Le16(content, offset), Le16(content, offset + 2);
    if magic != TLV_INFO_MAGIC && magic != TLV_PROT_INFO_MAGIC then hash
    else if total < TLV_HEADER_SIZE || offset + total > |content| then hash
    else
      var walked := Walk(content, offset + TLV_HEADER_SIZE, offset + total, magic == TLV_INFO_MAGIC, hash);
      if magic == TLV_INFO_MAGIC then walked else WalkAreas(content, offset + total, areas - 1, walked)
  }

  function Describe(content: seq<byte>): Option<SlotImage> {
    if |content| < HEADER_SIZE || Le32(content, 0) != IMAGE_MAGIC then None
    else Some(SlotImage(VersionAt20(content), WalkAreas(content, Le16(content, 8) + Le32(content, 12), 2, []),
                        !NonBootable(content)))
  }

  /** The oracle's nested walk, with its own 64-bit bounds tests. */
  method DescribeContent(content: seq<byte>) returns (r: Option<SlotImage>)
    requires |content| < TWO_64
    ensures r == Describe(content)
  {
    hide Le16, Le32, Fits, Walk, VersionAt20, NonBootable;
    if |content| < HEADER_SIZE || Le32(content, 0) != IMAGE_MAGIC {
      return None;
    }
    var headerSize, imageSize := Le16(content, 8), Le32(content, 12);
    var out := SlotImage(VersionAt20(content), [], !NonBootable(content));
    FitsExact(headerSize, imageSize, TWO_64 - 1);
    if !Fits(headerSize, imageSize, TWO_64 - 1) {
      return Some(out);
    }
    var offset := headerSize + imageSize;
    var areas: nat := 2;
    ghost var start := offset;
    while areas > 0
      invariant areas <= 2 && 0 <= offset < TWO_64
      invariant WalkAreas(content, offset, areas, out.hash) == WalkAreas(content, start, 2, [])
      invariant out == SlotImage(VersionAt20(content), out.hash, !NonBootable(content))
    {
      FitsExact(offset, TLV_HEADER_SIZE, |content|);
      if !Fits(offset, TLV_HEADER_SIZE, |content|) {
        break;
      }
      var magic, total := Le16(content, offset), Le16(content, offset + 2);
      if magic != TLV_INFO_MAGIC && magic != TLV_PROT_INFO_MAGIC {
        break;
      }
      FitsExact(offset, total, |content|);
      if total < TLV_HEADER_SIZE || !Fits(offset, total, |content|) {
        break;
      }
      var hash := WalkEntries(content, offset + TLV_HEADER_SIZE, offset + total, magic == TLV_INFO_MAGIC, out.hash);
      out := out.(hash := hash);
      offset := offset + total;
      areas := areas - 1;
      if magic == TLV_INFO_MAGIC {
        return Some(out);
      }
    }
    return Some(out);
  }

  method WalkEntries(content: seq<byte>, first: nat, areaEnd: nat, unprotected: bool, before: seq<byte>)
      returns (hash: seq<byte>)
    requires first <= areaEnd <= |content| < TWO_64
    ensures hash == Walk(content, first, areaEnd, unprotected, before)
  {
    hide Le16, Le32, Fits;
    hash := before;
    var entry := first;
    FitsExact(entry, TLV_HEADER_SIZE, areaEnd);
    while Fits(entry, TLV_HEADER_SIZE, areaEnd)
      invariant entry <= areaEnd
      invariant Fits(entry, TLV_HEADER_SIZE, areaEnd) <==> entry + TLV_HEADER_SIZE <= areaEnd
      invariant Walk(content, entry, areaEnd, unprotected, hash) == Walk(content, first, areaEnd, unprotected, before)
      decreases areaEnd - entry
    {
      var kind, length := Le16(content, entry), Le16(content, entry + 2);
      var value := entry + TLV_HEADER_SIZE;
      FitsExact(value, length, areaEnd);
      if !Fits(value, length, areaEnd) {
        break;
      }
      if kind == TLV_SHA256 && unprotected {
        hash := content[value..value + length];
      }
      entry := value + length;
      FitsExact(entry, TLV_HEADER_SIZE, areaEnd);
    }
  }

  // --- Agreement ---------------------------------------------------------------------------------

  /** The end of the entry at `offset`. */
  function EntryEnd(file: seq<byte>, offset: nat): (r: nat)
    requires offset + TLV_HEADER_SIZE <= |file|
    ensures r >= offset + TLV_HEADER_SIZE
  {
    offset + TLV_HEADER_SIZE + Le16(file, offset + 2)
  }

  /** Entries tile the run from `offset` to `end` exactly. */
  predicate Tiles(file: seq<byte>, offset: nat, end: nat)
    requires end <= |file|
    decreases end - offset
  {
    offset == end || (offset + TLV_HEADER_SIZE <= end && EntryEnd(file, offset) <= end
                      && Tiles(file, EntryEnd(file, offset), end))
  }

  /** How many entries a tiled run has. */
  function Count(file: seq<byte>, offset: nat, end: nat): nat
    requires end <= |file| && Tiles(file, offset, end)
    decreases end - offset
  {
    if offset == end then 0 else 1 + Count(file, EntryEnd(file, offset), end)
  }

  /** No entry of the run is a hash. */
  predicate NoHash(file: seq<byte>, offset: nat, end: nat)
    requires end <= |file| && Tiles(file, offset, end)
    decreases end - offset
  {
    offset == end || (HashLength(Le16(file, offset)).None? && NoHash(file, EntryEnd(file, offset), end))
  }

  predicate EntryFits(file: seq<byte>, offset: nat, end: nat) {
    offset + TLV_HEADER_SIZE <= end <= |file| && EntryEnd(file, offset) <= end
  }

  /** The entry at `at` is the run's only hash. */
  predicate OnlyHash(file: seq<byte>, offset: nat, end: nat, at: nat)
    requires end <= |file| && Tiles(file, offset, end)
    ensures OnlyHash(file, offset, end, at) ==> offset <= at && EntryFits(file, at, end)
    decreases end - offset
  {
    if offset == end then false
    else if offset == at then HashLength(Le16(file, offset)).Some? && NoHash(file, EntryEnd(file, offset), end)
    else HashLength(Le16(file, offset)).None? && OnlyHash(file, EntryEnd(file, offset), end, at)
  }

  /** An area header with `magic` at `at`, whose area reaches exactly to `end` and is tiled by entries. */
  predicate Area(file: seq<byte>, at: nat, magic: nat, end: nat) {
    at + TLV_HEADER_SIZE <= end <= |file| && Le16(file, at) == magic && Le16(file, at + 2) == end - at
    && Tiles(file, at + TLV_HEADER_SIZE, end)
  }

  /** Where the unprotected area starts: behind the body, and behind the protected area if the header declares one. */
  function UnprotectedAt(info: ImageInfo): nat {
    info.headerSize + info.imageSize + info.protectedTlvSize
  }

  /** The unprotected area ends at `end`, and the protected one, if declared, reaches exactly up to it. */
  predicate LaidOut(file: seq<byte>, info: ImageInfo, end: nat) {
    && Area(file, UnprotectedAt(info), TLV_INFO_MAGIC, end)
    && (info.protectedTlvSize != 0 ==> Area(file, info.headerSize + info.imageSize, TLV_PROT_INFO_MAGIC,
                                            UnprotectedAt(info)))
  }

  /** The scan's steps: one per entry, and one for stepping over the second area's header. */
  function Steps(file: seq<byte>, info: ImageInfo, end: nat): nat
    requires LaidOut(file, info, end)
  {
    Count(file, UnprotectedAt(info) + TLV_HEADER_SIZE, end)
    + if info.protectedTlvSize == 0 then 0
      else 1 + Count(file, info.headerSize + info.imageSize + TLV_HEADER_SIZE, UnprotectedAt(info))
  }

  /** The only hash entry is a SHA-256 of 32 octets at `at` in the unprotected area. */
  predicate OneSha256(file: seq<byte>, info: ImageInfo, end: nat, at: nat)
    requires LaidOut(file, info, end)
  {
    && (info.protectedTlvSize != 0 ==> NoHash(file, info.headerSize + info.imageSize + TLV_HEADER_SIZE,
                                              UnprotectedAt(info)))
    && OnlyHash(file, UnprotectedAt(info) + TLV_HEADER_SIZE, end, at)
    && Le16(file, at) == TLV_SHA256 && Le16(file, at + 2) == 32
  }

  /** A well-formed unencrypted image within the scan's limit. */
  predicate WellFormed(file: seq<byte>, info: ImageInfo, end: nat, at: nat) {
    && ParseHeader(file) == Ok(info) && !info.encrypted
    && LaidOut(file, info, end) && Steps(file, info, end) <= MAX_IMAGE_TLVS && OneSha256(file, info, end, at)
  }

  /** A tiled run without a hash entry that the scan crosses without meeting the area boundary is skipped. */
  lemma {:induction false} ScanSkips(file: seq<byte>, info: ImageInfo, layout: Layout, offset: nat, stop: nat,
                                     visited: nat, found: Option<seq<byte>>)
    requires offset <= stop <= layout.end <= |file| && Tiles(file, offset, stop) && NoHash(file, offset, stop)
    requires info.protectedTlvSize == 0 || stop <= layout.protectedEnd || layout.protectedEnd < offset
    requires visited + Count(file, offset, stop) <= MAX_IMAGE_TLVS
    ensures Scan(file, info, layout, offset, visited, found)
            == Scan(file, info, layout, stop, visited + Count(file, offset, stop), found)
    decreases stop - offset
  {
    hide Le16, Le32;
    if offset == stop {
    } else {
      ScanSkips(file, info, layout, EntryEnd(file, offset), stop, visited + 1, found);
    }
  }

  /** A tiled run up to the region's end with exactly one hash entry of the right length yields that hash. */
  lemma {:induction false} ScanFinds(file: seq<byte>, info: ImageInfo, layout: Layout, offset: nat, visited: nat,
                                     at: nat)
    requires offset <= layout.end <= |file| && Tiles(file, offset, layout.end) && OnlyHash(file, offset, layout.end, at)
    requires HashLength(Le16(file, at)) == Some(Le16(file, at + 2))
    requires info.protectedTlvSize == 0 || layout.protectedEnd < offset
    requires visited + Count(file, offset, layout.end) <= MAX_IMAGE_TLVS
    ensures Scan(file, info, layout, offset, visited, None) == Ok(Some(file[at + TLV_HEADER_SIZE..EntryEnd(file, at)]))
    decreases layout.end - offset
  {
    hide Le16, Le32;
    var next := EntryEnd(file, offset);
    if offset == at {
      ScanSkips(file, info, layout, next, layout.end, visited + 1, Some(file[at + TLV_HEADER_SIZE..next]));
    } else {
      ScanFinds(file, info, layout, next, visited + 1, at);
    }
  }

  /** The lenient walk keeps its hash over a run without hash entries ... */
  lemma {:induction false} WalkSkips(content: seq<byte>, entry: nat, areaEnd: nat, unprotected: bool, hash: seq<byte>)
    requires entry <= areaEnd <= |content| && Tiles(content, entry, areaEnd) && NoHash(content, entry, areaEnd)
    ensures Walk(content, entry, areaEnd, unprotected, hash) == hash
    decreases areaEnd - entry
  {
    hide Le16, Le32;
    if entry == areaEnd {
    } else {
      WalkSkips(content, EntryEnd(content, entry), areaEnd, unprotected, hash);
    }
  }

  /** ... and finds the one SHA-256 of an unprotected run. */
  lemma {:induction false} WalkFinds(content: seq<byte>, entry: nat, areaEnd: nat, hash: seq<byte>, at: nat)
    requires entry <= areaEnd <= |content| && Tiles(content, entry, areaEnd) && OnlyHash(content, entry, areaEnd, at)
    requires Le16(content, at) == TLV_SHA256
    ensures Walk(content, entry, areaEnd, true, hash) == content[at + TLV_HEADER_SIZE..EntryEnd(content, at)]
    decreases areaEnd - entry
  {
    hide Le16, Le32;
    var next := EntryEnd(content, entry);
    if entry == at {
      WalkSkips(content, next, areaEnd, true, content[at + TLV_HEADER_SIZE..next]);
    } else {
      WalkFinds(content, next, areaEnd, hash, at);
    }
  }

  lemma HashFound(file: seq<byte>, info: ImageInfo, end: nat, at: nat)
    requires WellFormed(file, info, end, at)
    ensures TlvHash(file, info) == Ok(Some(file[at + TLV_HEADER_SIZE..at + TLV_HEADER_SIZE + 32]))
  {
    hide Le16, Le32;
    var base := info.headerSize + info.imageSize;
    var start := UnprotectedAt(info);
    var layout := Layout(base + TLV_HEADER_SIZE, start, end);
    assert ResolveLayout(file, info) == Ok(layout);
    if info.protectedTlvSize != 0 {
      var count := Count(file, base + TLV_HEADER_SIZE, start);
      ScanSkips(file, info, layout, base + TLV_HEADER_SIZE, start, 0, None);
      ScanFinds(file, info, layout, start + TLV_HEADER_SIZE, count + 1, at);
    } else {
      ScanFinds(file, info, layout, start + TLV_HEADER_SIZE, 0, at);
    }
  }

  lemma ContentDescribed(file: seq<byte>, info: ImageInfo, end: nat, at: nat)
    requires WellFormed(file, info, end, at)
    ensures at + TLV_HEADER_SIZE + 32 <= |file| && Describe(file).Some?
    ensures Describe(file).value.hash == file[at + TLV_HEADER_SIZE..at + TLV_HEADER_SIZE + 32]
    ensures Describe(file).value.version == info.version
  {
    hide Le16, Le32;
    var base := info.headerSize + info.imageSize;
    var start := UnprotectedAt(info);
    WalkFinds(file, start + TLV_HEADER_SIZE, end, [], at);
    if info.protectedTlvSize != 0 {
      WalkSkips(file, base + TLV_HEADER_SIZE, start, false, []);
      assert WalkAreas(file, base, 2, []) == WalkAreas(file, start, 1, []);
    }
  }

  /** On every well-formed image the strict and the lenient reader find the same 32 octets. */
  lemma ReadersAgree(file: seq<byte>, info: ImageInfo, end: nat, at: nat)
    requires WellFormed(file, info, end, at)
    ensures var hash := file[at + TLV_HEADER_SIZE..at + TLV_HEADER_SIZE + 32];
            && TlvHash(file, info) == Ok(Some(hash))
            && Describe(file).Some? && Describe(file).value.hash == hash && Describe(file).value.version == info.version
  {
    hide TlvHash, Describe;
    HashFound(file, info, end, at);
    ContentDescribed(file, info, end, at);
  }
}
