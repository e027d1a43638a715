/**
  Stored zip archives (APPNOTE.TXT sections 4.3.7, 4.3.12 and 4.3.16): the demo package writer, the
  update package reader, and what the reader makes of what the writer wrote.
 */
module Zip {
  import opened Common
  import opened Crc32

  const LOCAL_SIGNATURE := 0x04034B50
  const CENTRAL_SIGNATURE := 0x02014B50
  const END_SIGNATURE := 0x06054B50
  const LOCAL_SIZE := 30
  const CENTRAL_SIZE := 46
  const END_SIZE := 22
  const MAX_COMMENT := 0xFFFF
  const MAX_ENTRIES := 32
  const MAX_NAME := 255
  const SLASH: byte := 0x2F

  datatype Entry = Entry(name: seq<byte>, data: seq<byte>)

  datatype ZipError = Malformed | Unsupported | TooLarge

  datatype Directory = Directory(offset: nat, size: nat, entries: nat)

  // --- The CRC field ------------------------------------------------------------------------------

  function Bits(s: seq<byte>, at: nat): bv32
    requires at + 4 <= |s|
  {
    Joined(s[at], s[at + 1], s[at + 2], s[at + 3])
  }

  function Joined(a: byte, b: byte, c: byte, d: byte): bv32 {
    (a as bv32) | ((b as bv32) << 8) | ((c as bv32) << 16) | ((d as bv32) << 24)
  }

  function Octet0(v: bv32): byte { (v & 0xFF) as byte }
  function Octet1(v: bv32): byte { ((v >> 8) & 0xFF) as byte }
  function Octet2(v: bv32): byte { ((v >> 16) & 0xFF) as byte }
  function Octet3(v: bv32): byte { ((v >> 24) & 0xFF) as byte }

  function CrcField(v: bv32): (r: seq<byte>)
    ensures |r| == 4
  {
    [Octet0(v), Octet1(v), Octet2(v), Octet3(v)]
  }

  lemma OctetsJoin(v: bv32)
    ensures Joined(Octet0(v), Octet1(v), Octet2(v), Octet3(v)) == v
  {
  }

  lemma ReadsCrc(s: seq<byte>, at: nat, v: bv32)
    requires HasAt(s, at, CrcField(v))
    ensures Bits(s, at) == v
  {
    hide Joined, Octet0, Octet1, Octet2, Octet3;
    OctetsJoin(v);
    var field := s[at..at + 4];
    assert s[at] == field[0] && s[at + 1] == field[1] && s[at + 2] == field[2] && s[at + 3] == field[3];
  }

  // --- What the writer writes ---------------------------------------------------------------------

  /** Checksum, both sizes and the length of the name, the same in both headers. */
  function Sizes(e: Entry, crc: bv32): (r: seq<byte>)
    ensures |r| == 14
  {
    CrcField(crc) + (U32(|e.data|) + (U32(|e.data|) + U16(|e.name|)))
  }

  function LocalFront(): (r: seq<byte>)
    ensures |r| == 14
  {
    U32(LOCAL_SIGNATURE) + (U16(20) + U16(0) + U16(0) + U16(0) + U16(0x21))
  }

  function LocalRecord(e: Entry, crc: bv32): (r: seq<byte>)
    ensures |r| == LOCAL_SIZE + |e.name| + |e.data|
  {
    LocalFront() + (Sizes(e, crc) + (U16(0) + (e.name + e.data)))
  }

  function CentralFront(): (r: seq<byte>)
    ensures |r| == 16
  {
    U32(CENTRAL_SIGNATURE) + ((U16(20) + U16(20)) + (U16(0) + (U16(0) + (U16(0) + U16(0x21)))))
  }

  function CentralBack(offset: nat): (r: seq<byte>)
    ensures |r| == 16
  {
    U16(0) + (U16(0) + ((U16(0) + U16(0) + U32(0)) + U32(offset)))
  }

  function CentralRecord(e: Entry, crc: bv32, offset: nat): (r: seq<byte>)
    ensures |r| == CENTRAL_SIZE + |e.name|
  {
    CentralFront() + (Sizes(e, crc) + (CentralBack(offset) + e.name))
  }

  function EndRecord(count: nat, size: nat, offset: nat): (r: seq<byte>)
    ensures |r| == END_SIZE
  {
    U32(END_SIGNATURE) + (U16(0) + (U16(0) + (U16(count) + (U16(count) + (U32(size) + (U32(offset) + U16(0)))))))
  }

  /** The local headers and data of the first `k` entries, under the checksums claimed for them. */
  function Locals(entries: seq<Entry>, crcs: seq<bv32>, k: nat): seq<byte>
    requires k <= |entries| == |crcs|
  {
    if k == 0 then [] else Locals(entries, crcs, k - 1) + LocalRecord(entries[k - 1], crcs[k - 1])
  }

  /** The central directory headers of the first `k` entries. */
  function Centrals(entries: seq<Entry>, crcs: seq<bv32>, k: nat): seq<byte>
    requires k <= |entries| == |crcs|
  {
    if k == 0 then []
    else Centrals(entries, crcs, k - 1) + CentralRecord(entries[k - 1], crcs[k - 1], |Locals(entries, crcs, k - 1)|)
  }

  function Archive(entries: seq<Entry>, crcs: seq<bv32>): seq<byte>
    requires |entries| == |crcs|
  {
    var locals, centrals := Locals(entries, crcs, |entries|), Centrals(entries, crcs, |entries|);
    locals + centrals + EndRecord(|entries|, |centrals|, |locals|)
  }

  /** The true checksums. */
  function Crcs(entries: seq<Entry>): (r: seq<bv32>)
    ensures |r| == |entries|
  {
    seq(|entries|, k requires 0 <= k < |entries| => Crc(entries[k].data))
  }

  function Written(entries: seq<Entry>): seq<byte> {
    Archive(entries, Crcs(entries))
  }

  const MANIFEST_NAME: seq<byte> := [0x6D, 0x61, 0x6E, 0x69, 0x66, 0x65, 0x73, 0x74, 0x2E, 0x6A, 0x73, 0x6F, 0x6E]

  predicate OffsetsRight(entries: seq<Entry>, offsets: seq<nat>) {
    |offsets| <= |entries| && forall i :: 0 <= i < |offsets| ==> offsets[i] == |Locals(entries, Crcs(entries), i)|
  }

  lemma OneOffsetMore(entries: seq<Entry>, offsets: seq<nat>)
    requires OffsetsRight(entries, offsets) && |offsets| < |entries|
    ensures OffsetsRight(entries, offsets + [|Locals(entries, Crcs(entries), |offsets|)|])
  {
    hide Locals;
  }

  method WriteLocals(entries: seq<Entry>) returns (out: seq<byte>, offsets: seq<nat>)
    ensures out == Locals(entries, Crcs(entries), |entries|)
    ensures |offsets| == |entries| && OffsetsRight(entries, offsets)
  {
    hide LocalRecord, Crc;
    out, offsets := [], [];
    for index := 0 to |entries|
      invariant out == Locals(entries, Crcs(entries), index)
      invariant |offsets| == index && OffsetsRight(entries, offsets)
    {
      OneOffsetMore(entries, offsets);
      var crc := BitwiseCrc(entries[index].data);
      offsets := offsets + [|out|];
      out := out + LocalRecord(entries[index], crc);
    }
  }

  method WriteCentrals(entries: seq<Entry>, offsets: seq<nat>) returns (out: seq<byte>)
    requires |offsets| == |entries| && OffsetsRight(entries, offsets)
    ensures out == Centrals(entries, Crcs(entries), |entries|)
  {
    hide CentralRecord, Crc, Locals;
    out := [];
    for index := 0 to |entries|
      invariant out == Centrals(entries, Crcs(entries), index)
    {
      var crc := BitwiseCrc(entries[index].data);
      out := out + CentralRecord(entries[index], crc, offsets[index]);
    }
  }

  /** The package: its files, then the manifest. */
  method BuildPackage(files: seq<Entry>, manifest: seq<byte>) returns (out: seq<byte>)
    ensures out == Written(files + [Entry(MANIFEST_NAME, manifest)])
  {
    hide Locals, Centrals, EndRecord;
    var entries := files + [Entry(MANIFEST_NAME, manifest)];
    var locals, offsets := WriteLocals(entries);
    var centrals := WriteCentrals(entries, offsets);
    out := locals + centrals + EndRecord(|entries|, |centrals|, |locals|);
  }

  // --- What the reader reads ----------------------------------------------------------------------

  /** `at` has the signature of an end record, and a comment length equal to what lies behind the record. */
  predicate EndAt(archive: seq<byte>, at: nat)
    requires at + END_SIZE <= |archive|
  {
    Le32(archive, at) == END_SIGNATURE && Le16(archive, at + 20) == |archive| - END_SIZE - at
  }

  function DirectoryFrom(archive: seq<byte>, at: nat): (r: Result<Directory, ZipError>)
    requires at + END_SIZE <= |archive|
    ensures r.Ok? ==> r.value.offset + r.value.size <= at && r.value.entries <= MAX_ENTRIES
  {
    var total, size, offset := Le16(archive, at + 10), Le32(archive, at + 12), Le32(archive, at + 16);
    if total == 0xFFFF || size == 0xFFFF_FFFF || offset == 0xFFFF_FFFF then Err(Unsupported)
    else if Le16(archive, at + 4) != 0 || Le16(archive, at + 6) != 0 || Le16(archive, at + 8) != total then
        Err(Unsupported)
    else if total > MAX_ENTRIES then Err(TooLarge)
    else if offset > at || size > at - offset then Err(Malformed)
    else Ok(Directory(offset, size, total))
  }

  /** What the last end record of the archive says; the longest comment bounds where it may stand. */
  function LastDirectory(archive: seq<byte>, at: int): (r: Result<Directory, ZipError>)
    requires at + END_SIZE <= |archive|
    ensures r.Ok? ==> r.value.offset + r.value.size <= |archive| && r.value.entries <= MAX_ENTRIES
    decreases at
  {
    if at < 0 || at < |archive| - END_SIZE - MAX_COMMENT then Err(Malformed)
    else if EndAt(archive, at) then DirectoryFrom(archive, at)
    else LastDirectory(archive, at - 1)
  }

  method FindDirectory(archive: seq<byte>) returns (r: Result<Directory, ZipError>)
    ensures r == LastDirectory(archive, |archive| - END_SIZE)
  {
    hide EndAt, DirectoryFrom;
    if |archive| < END_SIZE {
      return Err(Malformed);
    }
    var last := |archive| - END_SIZE;
    var first := if last > MAX_COMMENT then last - MAX_COMMENT else 0;
    var at := last + 1;
    while at > first
      invariant first <= at <= last + 1
      invariant LastDirectory(archive, last) == LastDirectory(archive, at - 1)
    {
      at := at - 1;
      if EndAt(archive, at) {
        return DirectoryFrom(archive, at);
      }
    }
    return Err(Malformed);
  }

  /** An entry before its checksum is compared, and where the next header begins. */
  datatype Located = Located(entry: Entry, crc: bv32, next: nat)

  predicate InDirectory(archive: seq<byte>, d: Directory, cursor: nat) {
    d.offset <= cursor <= d.offset + d.size <= |archive|
  }

  predicate Encrypts(flags: nat) {
    flags % 2 == 1 || flags / 64 % 2 == 1
  }

  /** The local header at `local` must belong to the same name, and its data must end before the directory. */
  function DataAt(archive: seq<byte>, d: Directory, local: nat, name: seq<byte>, size: nat): (r: Result<seq<byte>,
      ZipError>)
    requires d.offset <= |archive|
    ensures r.Ok? ==> |r.value| == size
  {
    if local > d.offset || LOCAL_SIZE > d.offset - local || Le32(archive, local) != LOCAL_SIGNATURE then
        Err(Malformed) else
    var nameLength, extra := Le16(archive, local + 26), Le16(archive, local + 28);
    var room := d.offset - local - LOCAL_SIZE;
    if nameLength != |name| || nameLength + extra > room || size > room - nameLength - extra then Err(Malformed) else
    var from := local + LOCAL_SIZE;
    if archive[from..from + nameLength] != name then Err(Malformed)
    else Ok(archive[from + nameLength + extra..from + nameLength + extra + size])
  }

  /** The entry whose directory header is at `cursor`, the checksum promised for it, and where the next header is. */
  function Locate(archive: seq<byte>, d: Directory, cursor: nat): (r: Result<Located, ZipError>)
    requires InDirectory(archive, d, cursor)
    ensures r.Ok? ==> InDirectory(archive, d, r.value.next) && 0 < |r.value.entry.name| <= MAX_NAME
  {
    var end := d.offset + d.size;
    if CENTRAL_SIZE > end - cursor || Le32(archive, cursor) != CENTRAL_SIGNATURE then Err(Malformed) else
    var nameLength := Le16(archive, cursor + 28);
    var variable := nameLength + Le16(archive, cursor + 30) + Le16(archive, cursor + 32);
    var from := cursor + CENTRAL_SIZE;
    if variable > end - from then Err(Malformed)
    else if nameLength == 0 || nameLength > MAX_NAME then Err(Malformed)
    else if Encrypts(Le16(archive, cursor + 8)) || Le16(archive, cursor + 10) != 0 then Err(Unsupported)
    else if Le32(archive, cursor + 20) != Le32(archive, cursor + 24) then Err(Malformed) else
    var name := archive[from..from + nameLength];
    var data := DataAt(archive, d, Le32(archive, cursor + 42), name, Le32(archive, cursor + 20));
    if data.Err? then Err(data.error)
    else Ok(Located(Entry(name, data.value), Bits(archive, cursor + 16), from + variable))
  }

  predicate Named(entries: seq<Entry>, name: seq<byte>) {
    exists i :: 0 <= i < |entries| && entries[i].name == name
  }

  /** The remaining entries, after those already read. */
  function ReadRest(archive: seq<byte>, d: Directory, cursor: nat, remaining: nat,
                    read: seq<Entry>): Result<seq<Entry>, ZipError>
    requires InDirectory(archive, d, cursor)
    decreases remaining
  {
    if remaining == 0 then Ok(read) else
    var located := Locate(archive, d, cursor);
    if located.Err? then Err(located.error) else
    var entry := located.value.entry;
    if Crc(entry.data) != located.value.crc then Err(Malformed)
    else if entry.name[|entry.name| - 1] == SLASH then ReadRest(archive, d, located.value.next, remaining - 1, read)
    else if Named(read, entry.name) then Err(Malformed)
    else ReadRest(archive, d, located.value.next, remaining - 1, read + [entry])
  }

  function Read(archive: seq<byte>): Result<seq<Entry>, ZipError> {
    var d := LastDirectory(archive, |archive| - END_SIZE);
    if d.Err? then Err(d.error) else ReadRest(archive, d.value, d.value.offset, d.value.entries, [])
  }

  method ReadStoredZip(archive: seq<byte>) returns (r: Result<seq<Entry>, ZipError>)
    ensures r == Read(archive)
  {
    hide LastDirectory, Locate;
    var found := FindDirectory(archive);
    if found.Err? {
      return Err(found.error);
    }
    var d := found.value;
    var entries: seq<Entry> := [];
    var cursor := d.offset;
    var index := 0;
    while index < d.entries
      invariant index <= d.entries && InDirectory(archive, d, cursor)
      invariant Read(archive) == ReadRest(archive, d, cursor, d.entries - index, entries)
    {
      var located := Locate(archive, d, cursor);
      if located.Err? {
        return Err(located.error);
      }
      var entry := located.value.entry;
      var crc := TableCrc(entry.data);
      if crc != located.value.crc {
        return Err(Malformed);
      }
      cursor := located.value.next;
      index := index + 1;
      if entry.name[|entry.name| - 1] != SLASH {
        if Named(entries, entry.name) {
          return Err(Malformed);
        }
        entries := entries + [entry];
      }
    }
    return Ok(entries);
  }

  // --- Round trip ---------------------------------------------------------------------------------

  predicate LegalName(name: seq<byte>) {
    0 < |name| <= MAX_NAME && name[|name| - 1] != SLASH
  }

  predicate Distinct(entries: seq<Entry>) {
    forall i, j :: 0 <= i < j < |entries| ==> entries[i].name != entries[j].name
  }

  predicate LegalNames(entries: seq<Entry>) {
    forall i :: 0 <= i < |entries| ==> LegalName(entries[i].name)
  }

  /** What the reader can ever return. */
  predicate Legal(entries: seq<Entry>) {
    |entries| <= MAX_ENTRIES && LegalNames(entries) && Distinct(entries)
  }

  lemma {:induction false} RestLegal(archive: seq<byte>, d: Directory, cursor: nat, remaining: nat, read: seq<Entry>)
    requires InDirectory(archive, d, cursor) && LegalNames(read) && Distinct(read)
    ensures var r := ReadRest(archive, d, cursor, remaining, read);
            r.Ok? ==> LegalNames(r.value) && Distinct(r.value) && |r.value| <= |read| + remaining
    decreases remaining
  {
    hide Locate, Crc;
    if remaining == 0 {
    } else {
      var located := Locate(archive, d, cursor);
      if located.Ok? {
        var entry := located.value.entry;
        if entry.name[|entry.name| - 1] == SLASH {
          RestLegal(archive, d, located.value.next, remaining - 1, read);
        } else if !Named(read, entry.name) {
          RestLegal(archive, d, located.value.next, remaining - 1, read + [entry]);
        }
      }
    }
  }

  /** Whatever the archive, what is read is a short list of distinct, legal file names. */
  lemma ReadsOnlyLegal(archive: seq<byte>)
    requires Read(archive).Ok?
    ensures Legal(Read(archive).value)
  {
    hide LastDirectory, ReadRest, LegalName;
    var d := LastDirectory(archive, |archive| - END_SIZE).value;
    assert LegalNames([]) && Distinct([]);
    RestLegal(archive, d, d.offset, d.entries, []);
  }

  lemma Within(a: seq<byte>, b: seq<byte>, at: nat, block: seq<byte>)
    requires HasAt(a, at, block)
    ensures HasAt(a + b, at, block)
  {
    assert (a + b)[at..at + |block|] == a[at..at + |block|];
  }

  lemma Behind(a: seq<byte>, b: seq<byte>, at: nat, block: seq<byte>)
    requires HasAt(b, at, block)
    ensures HasAt(a + b, |a| + at, block)
  {
    assert (a + b)[|a| + at..|a| + at + |block|] == b[at..at + |block|];
  }

  lemma {:induction false} LocalStands(entries: seq<Entry>, crcs: seq<bv32>, k: nat, i: nat)
    requires i < k <= |entries| == |crcs|
    ensures HasAt(Locals(entries, crcs, k), |Locals(entries, crcs, i)|, LocalRecord(entries[i], crcs[i]))
  {
    hide HasAt, LocalRecord;
    var record := LocalRecord(entries[k - 1], crcs[k - 1]);
    if i == k - 1 {
      Itself(record);
      Behind(Locals(entries, crcs, i), record, 0, record);
    } else {
      LocalStands(entries, crcs, k - 1, i);
      Within(Locals(entries, crcs, k - 1), record, |Locals(entries, crcs, i)|, LocalRecord(entries[i], crcs[i]));
    }
  }

  lemma Itself(block: seq<byte>)
    ensures HasAt(block, 0, block)
  {
  }

  lemma {:induction false} CentralStands(entries: seq<Entry>, crcs: seq<bv32>, k: nat, i: nat)
    requires i < k <= |entries| == |crcs|
    ensures HasAt(Centrals(entries, crcs, k), |Centrals(entries, crcs, i)|,
                  CentralRecord(entries[i], crcs[i], |Locals(entries, crcs, i)|))
  {
    hide HasAt, CentralRecord, Locals;
    var record := CentralRecord(entries[k - 1], crcs[k - 1], |Locals(entries, crcs, k - 1)|);
    if i == k - 1 {
      Itself(record);
      Behind(Centrals(entries, crcs, i), record, 0, record);
    } else {
      CentralStands(entries, crcs, k - 1, i);
      Within(Centrals(entries, crcs, k - 1), record, |Centrals(entries, crcs, i)|,
             CentralRecord(entries[i], crcs[i], |Locals(entries, crcs, i)|));
    }
  }

  /** The shared fields read back. */
  lemma SizesRead(s: seq<byte>, at: nat, e: Entry, crc: bv32)
    requires HasAt(s, at, Sizes(e, crc)) && |e.data| < 0x1_0000_0000 && |e.name| < 0x1_0000
    ensures at + 14 <= |s|
    ensures Bits(s, at) == crc && Le32(s, at + 4) == |e.data| && Le32(s, at + 8) == |e.data|
            && Le16(s, at + 12) == |e.name|
  {
    hide HasAt, CrcField, U32, U16, Le16, Le32, Bits;
    var data, name := U32(|e.data|), U16(|e.name|);
    HasParts(s, at, CrcField(crc), data + (data + name));
    HasParts(s, at + 4, data, data + name);
    HasParts(s, at + 8, data, name);
    ReadsCrc(s, at, crc);
    ReadsU32(s, at + 4, |e.data|);
    ReadsU32(s, at + 8, |e.data|);
    ReadsU16(s, at + 12, |e.name|);
  }

  lemma LocalRead(s: seq<byte>, at: nat, e: Entry, crc: bv32)
    requires HasAt(s, at, LocalRecord(e, crc)) && |e.data| < 0x1_0000_0000 && |e.name| < 0x1_0000
    ensures at + LOCAL_SIZE <= |s|
    ensures Le32(s, at) == LOCAL_SIGNATURE && Le16(s, at + 26) == |e.name| && Le16(s, at + 28) == 0
    ensures HasAt(s, at + LOCAL_SIZE, e.name) && HasAt(s, at + LOCAL_SIZE + |e.name|, e.data)
  {
    hide HasAt, Sizes, U32, U16, Le16, Le32, Bits;
    var front, sizes, extra := LocalFront(), Sizes(e, crc), U16(0);
    HasParts(s, at, front, sizes + (extra + (e.name + e.data)));
    HasParts(s, at, U32(LOCAL_SIGNATURE), U16(20) + U16(0) + U16(0) + U16(0) + U16(0x21));
    HasParts(s, at + 14, sizes, extra + (e.name + e.data));
    HasParts(s, at + 28, extra, e.name + e.data);
    HasParts(s, at + 30, e.name, e.data);
    ReadsU32(s, at, LOCAL_SIGNATURE);
    SizesRead(s, at + 14, e, crc);
    ReadsU16(s, at + 28, 0);
  }

  lemma CentralFrontRead(s: seq<byte>, at: nat)
    requires HasAt(s, at, CentralFront())
    ensures at + 12 <= |s| && Le32(s, at) == CENTRAL_SIGNATURE && Le16(s, at + 8) == 0 && Le16(s, at + 10) == 0
  {
    hide HasAt, U32, U16, Le16, Le32;
    var time := U16(0) + U16(0x21);
    HasParts(s, at, U32(CENTRAL_SIGNATURE), (U16(20) + U16(20)) + (U16(0) + (U16(0) + time)));
    HasParts(s, at + 4, U16(20) + U16(20), U16(0) + (U16(0) + time));
    HasParts(s, at + 8, U16(0), U16(0) + time);
    HasParts(s, at + 10, U16(0), time);
    ReadsU32(s, at, CENTRAL_SIGNATURE);
    ReadsU16(s, at + 8, 0);
    ReadsU16(s, at + 10, 0);
  }

  lemma CentralBackRead(s: seq<byte>, at: nat, offset: nat)
    requires HasAt(s, at, CentralBack(offset)) && offset < 0x1_0000_0000
    ensures at + 16 <= |s| && Le16(s, at) == 0 && Le16(s, at + 2) == 0 && Le32(s, at + 12) == offset
  {
    hide HasAt, U32, U16, Le16, Le32;
    var attributes := U16(0) + U16(0) + U32(0);
    HasParts(s, at, U16(0), U16(0) + (attributes + U32(offset)));
    HasParts(s, at + 2, U16(0), attributes + U32(offset));
    HasParts(s, at + 4, attributes, U32(offset));
    ReadsU16(s, at, 0);
    ReadsU16(s, at + 2, 0);
    ReadsU32(s, at + 12, offset);
  }

  lemma EndRead(s: seq<byte>, at: nat, count: nat, size: nat, offset: nat)
    requires HasAt(s, at, EndRecord(count, size, offset))
    requires count < 0x1_0000 && size < 0x1_0000_0000 && offset < 0x1_0000_0000
    ensures at + END_SIZE <= |s| && Le32(s, at) == END_SIGNATURE && Le16(s, at + 4) == 0 && Le16(s, at + 6) == 0
    ensures Le16(s, at + 8) == count && Le16(s, at + 10) == count
    ensures Le32(s, at + 12) == size && Le32(s, at + 16) == offset && Le16(s, at + 20) == 0
  {
    hide HasAt, U32, U16, Le16, Le32;
    var r5 := U32(offset) + U16(0);
    var r4 := U32(size) + r5;
    var r3 := U16(count) + r4;
    var r2 := U16(count) + r3;
    var r1 := U16(0) + r2;
    HasParts(s, at, U32(END_SIGNATURE), U16(0) + r1);
    HasParts(s, at + 4, U16(0), r1);
    HasParts(s, at + 6, U16(0), r2);
    HasParts(s, at + 8, U16(count), r3);
    HasParts(s, at + 10, U16(count), r4);
    HasParts(s, at + 12, U32(size), r5);
    HasParts(s, at + 16, U32(offset), U16(0));
    ReadsU32(s, at, END_SIGNATURE);
    ReadsU16(s, at + 4, 0);
    ReadsU16(s, at + 6, 0);
    ReadsU16(s, at + 8, count);
    ReadsU16(s, at + 10, count);
    ReadsU32(s, at + 12, size);
    ReadsU32(s, at + 16, offset);
    ReadsU16(s, at + 20, 0);
  }

  /** The directory the writer meant. */
  function Meant(entries: seq<Entry>, crcs: seq<bv32>): Directory
    requires |entries| == |crcs|
  {
    Directory(|Locals(entries, crcs, |entries|)|, |Centrals(entries, crcs, |entries|)|, |entries|)
  }

  lemma DirectoryFound(entries: seq<Entry>, crcs: seq<bv32>)
    requires |crcs| == |entries| <= MAX_ENTRIES && |Archive(entries, crcs)| < 0x1_0000_0000
    ensures LastDirectory(Archive(entries, crcs), |Archive(entries, crcs)| - END_SIZE) == Ok(Meant(entries, crcs))
  {
    hide EndRecord, Locals, Centrals, HasAt, Le16, Le32;
    var locals, centrals := Locals(entries, crcs, |entries|), Centrals(entries, crcs, |entries|);
    var end := EndRecord(|entries|, |centrals|, |locals|);
    Itself(end);
    Behind(locals + centrals, end, 0, end);
    EndRead(Archive(entries, crcs), |locals + centrals|, |entries|, |centrals|, |locals|);
  }

  /** The data of an entry is found behind its local header. */
  lemma DataFound(s: seq<byte>, d: Directory, local: nat, e: Entry, crc: bv32)
    requires HasAt(s, local, LocalRecord(e, crc)) && |e.data| < 0x1_0000_0000 && |e.name| < 0x1_0000
    requires local + |LocalRecord(e, crc)| <= d.offset <= |s|
    ensures DataAt(s, d, local, e.name, |e.data|) == Ok(e.data)
  {
    hide LocalRecord, Le16, Le32;
    LocalRead(s, local, e, crc);
  }

  lemma EntryLocated(s: seq<byte>, d: Directory, cursor: nat, e: Entry, crc: bv32, local: nat)
    requires InDirectory(s, d, cursor) && cursor + |CentralRecord(e, crc, local)| <= d.offset + d.size
    requires HasAt(s, cursor, CentralRecord(e, crc, local)) && HasAt(s, local, LocalRecord(e, crc))
    requires local + |LocalRecord(e, crc)| <= d.offset < 0x1_0000_0000
    requires 0 < |e.name| <= MAX_NAME
    ensures Locate(s, d, cursor) == Ok(Located(e, crc, cursor + |CentralRecord(e, crc, local)|))
  {
    hide CentralFront, Sizes, CentralBack, LocalRecord, Le16, Le32, DataAt, Bits, HasAt;
    HasParts(s, cursor, CentralFront(), Sizes(e, crc) + (CentralBack(local) + e.name));
    HasParts(s, cursor + 16, Sizes(e, crc), CentralBack(local) + e.name);
    HasParts(s, cursor + 30, CentralBack(local), e.name);
    CentralFrontRead(s, cursor);
    SizesRead(s, cursor + 16, e, crc);
    CentralBackRead(s, cursor + 30, local);
    NameStands(s, cursor + CENTRAL_SIZE, e.name);
    DataFound(s, d, local, e, crc);
  }

  lemma NameStands(s: seq<byte>, at: nat, name: seq<byte>)
    requires HasAt(s, at, name)
    ensures at + |name| <= |s| && s[at..at + |name|] == name
  {
  }

  lemma {:induction false} LocalsGrow(entries: seq<Entry>, crcs: seq<bv32>, i: nat, k: nat)
    requires i <= k <= |entries| == |crcs|
    ensures |Locals(entries, crcs, i)| <= |Locals(entries, crcs, k)|
    ensures |Centrals(entries, crcs, i)| <= |Centrals(entries, crcs, k)|
  {
    hide LocalRecord, CentralRecord;
    if i == k {
    } else {
      LocalsGrow(entries, crcs, i, k - 1);
    }
  }

  predicate Leads(s: seq<byte>, d: Directory, cursor: nat, e: Entry, crc: bv32, next: nat) {
    InDirectory(s, d, cursor) && Locate(s, d, cursor) == Ok(Located(e, crc, next))
  }

  predicate ReadsOn(s: seq<byte>, d: Directory, cursor: nat, remaining: nat, read: seq<Entry>,
                    all: Result<seq<Entry>, ZipError>) {
    InDirectory(s, d, cursor) && ReadRest(s, d, cursor, remaining, read) == all
  }

  /** Every header leads to its entry. */
  lemma EntryFound(entries: seq<Entry>, crcs: seq<bv32>, i: nat)
    requires i < |entries| == |crcs| && |Archive(entries, crcs)| < 0x1_0000_0000 && LegalName(entries[i].name)
    ensures var d := Meant(entries, crcs);
            Leads(Archive(entries, crcs), d, d.offset + |Centrals(entries, crcs, i)|,
                  entries[i], crcs[i], d.offset + |Centrals(entries, crcs, i + 1)|)
  {
    hide EndRecord, LocalRecord, CentralRecord, HasAt, Locate;
    var e, crc, local := entries[i], crcs[i], |Locals(entries, crcs, i)|;
    var locals, centrals := Locals(entries, crcs, |entries|), Centrals(entries, crcs, |entries|);
    var end := EndRecord(|entries|, |centrals|, |locals|);
    LocalsGrow(entries, crcs, i + 1, |entries|);
    LocalStands(entries, crcs, |entries|, i);
    Within(locals, centrals, local, LocalRecord(e, crc));
    Within(locals + centrals, end, local, LocalRecord(e, crc));
    CentralStands(entries, crcs, |entries|, i);
    Behind(locals, centrals, |Centrals(entries, crcs, i)|, CentralRecord(e, crc, local));
    Within(locals + centrals, end, |locals| + |Centrals(entries, crcs, i)|, CentralRecord(e, crc, local));
    EntryLocated(Archive(entries, crcs), Meant(entries, crcs), |locals| + |Centrals(entries, crcs, i)|, e, crc, local);
  }

  /** The checksums claimed from place `i` on are the true ones. */
  predicate HonestFrom(entries: seq<Entry>, crcs: seq<bv32>, i: nat)
    requires |entries| == |crcs|
  {
    forall k :: i <= k < |entries| ==> crcs[k] == Crc(entries[k].data)
  }

  function Verdict(entries: seq<Entry>, crcs: seq<bv32>, i: nat): Result<seq<Entry>, ZipError>
    requires |entries| == |crcs|
  {
    if HonestFrom(entries, crcs, i) then Ok(entries) else Err(Malformed)
  }

  lemma {:induction false} RestRead(entries: seq<Entry>, crcs: seq<bv32>, i: nat)
    requires i <= |entries| == |crcs| && Legal(entries) && |Archive(entries, crcs)| < 0x1_0000_0000
    ensures var d := Meant(entries, crcs);
            ReadsOn(Archive(entries, crcs), d, d.offset + |Centrals(entries, crcs, i)|, |entries| - i, entries[..i],
                    Verdict(entries, crcs, i))
    decreases |entries| - i
  {
    hide Archive, Locate, Crc, Locals, Centrals;
    if i == |entries| {
      InArchive(entries, crcs);
      assert entries[..i] == entries;
    } else {
      EntryFound(entries, crcs, i);
      RestRead(entries, crcs, i + 1);
      assert entries[..i] + [entries[i]] == entries[..i + 1];
      assert !Named(entries[..i], entries[i].name);
    }
  }

  lemma InArchive(entries: seq<Entry>, crcs: seq<bv32>)
    requires |entries| == |crcs|
    ensures var d := Meant(entries, crcs);
            InDirectory(Archive(entries, crcs), d, d.offset + |Centrals(entries, crcs, |entries|)|)
  {
    hide Locals, Centrals, EndRecord;
  }

  /**
    An archive of legal entries below 4 GiB is read whole, every entry with its bytes and in order, if the
    checksum claimed for each is the true one, and is refused as malformed if any is not.
   */
  lemma ReadsClaims(entries: seq<Entry>, crcs: seq<bv32>)
    requires |entries| == |crcs| && Legal(entries) && |Archive(entries, crcs)| < 0x1_0000_0000
    ensures Read(Archive(entries, crcs)) == Verdict(entries, crcs, 0)
  {
    hide Archive, LastDirectory, ReadRest, Locals, LegalNames, Distinct, Verdict;
    DirectoryFound(entries, crcs);
    RestRead(entries, crcs, 0);
    assert entries[..0] == [] && Centrals(entries, crcs, 0) == [];
  }

  /**
    Reading back a written archive of less than 4 GiB gives every entry, with its bytes and in order,
    exactly when there are at most 32, no name is empty, too long or a directory's, and no two agree.
   */
  lemma ZipRoundTrip(entries: seq<Entry>)
    requires |Written(entries)| < 0x1_0000_0000
    ensures Read(Written(entries)) == Ok(entries) <==> Legal(entries)
  {
    hide Archive, Read, Legal, Crc;
    if Legal(entries) {
      ReadsClaims(entries, Crcs(entries));
    }
    if Read(Written(entries)) == Ok(entries) {
      ReadsOnlyLegal(Written(entries));
    }
  }

  /** A package of at most 31 files with distinct, legal names comes back whole, its manifest last. */
  lemma PackageRoundTrip(files: seq<Entry>, manifest: seq<byte>)
    requires |Written(files + [Entry(MANIFEST_NAME, manifest)])| < 0x1_0000_0000
    ensures var entries := files + [Entry(MANIFEST_NAME, manifest)];
            Read(Written(entries)) == Ok(entries) <==>
            |files| < MAX_ENTRIES && LegalNames(files) && Distinct(files) && !Named(files, MANIFEST_NAME)
  {
    hide Written, Read;
    var last := Entry(MANIFEST_NAME, manifest);
    var entries := files + [last];
    ZipRoundTrip(entries);
    assert LegalName(MANIFEST_NAME);
    assert entries[|files|] == last && entries[..|files|] == files;
    assert forall i :: 0 <= i < |files| ==> entries[i] == files[i];
    if Legal(entries) {
      assert forall i :: 0 <= i < |files| ==> entries[i].name != entries[|files|].name;
    }
  }
}
