/**
  What the checksum of a stored zip archive is worth: damage to an entry's data is refused, and whatever
  is read from any archive stems from a directory header that vouches for it.
 */
module ZipIntegrity {
  import opened Common
  import opened Crc32
  import opened Zip

  // --- Damage --------------------------------------------------------------------------------------

  /** `s` with the octets from `at` on replaced by `b`. */
  function Splice(s: seq<byte>, at: nat, b: seq<byte>): (r: seq<byte>)
    requires at + |b| <= |s|
    ensures |r| == |s|
  {
    s[..at] + b + s[at + |b|..]
  }

  lemma SpliceBefore(a: seq<byte>, c: seq<byte>, at: nat, b: seq<byte>)
    requires at + |b| <= |a|
    ensures Splice(a + c, at, b) == Splice(a, at, b) + c
  {
  }

  lemma SpliceBehind(a: seq<byte>, c: seq<byte>, at: nat, b: seq<byte>)
    requires at + |b| <= |c|
    ensures Splice(a + c, |a| + at, b) == a + Splice(c, at, b)
  {
  }

  /** The entry with part of its data replaced. */
  function Damaged(e: Entry, at: nat, b: seq<byte>): Entry
    requires at + |b| <= |e.data|
  {
    Entry(e.name, Splice(e.data, at, b))
  }

  lemma RecordDamaged(e: Entry, crc: bv32, at: nat, b: seq<byte>)
    requires at + |b| <= |e.data|
    ensures LocalRecord(Damaged(e, at, b), crc)
            == Splice(LocalRecord(e, crc), LOCAL_SIZE + |e.name| + at, b)
  {
    hide LocalFront, Sizes, Splice;
    var head := LocalFront() + (Sizes(e, crc) + (U16(0) + e.name));
    SizesAlike(e, Damaged(e, at, b), crc);
    assert LocalRecord(e, crc) == head + e.data;
    assert LocalRecord(Damaged(e, at, b), crc) == head + Damaged(e, at, b).data;
    SpliceBehind(head, e.data, at, b);
  }

  lemma SizesAlike(e: Entry, f: Entry, crc: bv32)
    requires e.name == f.name && |e.data| == |f.data|
    ensures Sizes(e, crc) == Sizes(f, crc)
  {
  }

  lemma CentralAlike(e: Entry, f: Entry, crc: bv32, offset: nat)
    requires e.name == f.name && |e.data| == |f.data|
    ensures CentralRecord(e, crc, offset) == CentralRecord(f, crc, offset)
  {
    hide CentralFront, CentralBack, Sizes;
    SizesAlike(e, f, crc);
  }

  /** Where the data of entry `i` begins. */
  function DataBegins(entries: seq<Entry>, i: nat): nat
    requires i < |entries|
  {
    |Locals(entries, Crcs(entries), i)| + LOCAL_SIZE + |entries[i].name|
  }

  /** The local part: the same up to the damaged entry, and damaged in one place from there on. */
  lemma {:induction false} LocalsDamaged(entries: seq<Entry>, crcs: seq<bv32>, i: nat, at: nat, b: seq<byte>, k: nat)
    requires i < |entries| == |crcs| && k <= |entries| && at + |b| <= |entries[i].data|
    ensures var damaged := entries[i := Damaged(entries[i], at, b)];
            var p := |Locals(entries, crcs, i)| + LOCAL_SIZE + |entries[i].name| + at;
            if k <= i then Locals(damaged, crcs, k) == Locals(entries, crcs, k)
            else p + |b| <= |Locals(entries, crcs, k)|
                 && Locals(damaged, crcs, k) == Splice(Locals(entries, crcs, k), p, b)
  {
    hide LocalRecord, Splice;
    var damaged := entries[i := Damaged(entries[i], at, b)];
    if k == 0 {
    } else {
      LocalsDamaged(entries, crcs, i, at, b, k - 1);
      var before, record := Locals(entries, crcs, k - 1), LocalRecord(entries[k - 1], crcs[k - 1]);
      if k - 1 == i {
        RecordDamaged(entries[i], crcs[i], at, b);
        SpliceBehind(before, record, LOCAL_SIZE + |entries[i].name| + at, b);
      } else if k - 1 > i {
        SpliceBefore(before, record, |Locals(entries, crcs, i)| + LOCAL_SIZE + |entries[i].name| + at, b);
      }
    }
  }

  /** The directory does not depend on the data, only on how much there is. */
  lemma {:induction false} CentralsDamaged(entries: seq<Entry>, crcs: seq<bv32>, i: nat, at: nat, b: seq<byte>, k: nat)
    requires i < |entries| == |crcs| && k <= |entries| && at + |b| <= |entries[i].data|
    ensures var damaged := entries[i := Damaged(entries[i], at, b)];
            Centrals(damaged, crcs, k) == Centrals(entries, crcs, k)
  {
    hide CentralRecord, Locals, Splice;
    var damaged := entries[i := Damaged(entries[i], at, b)];
    if k == 0 {
    } else {
      CentralsDamaged(entries, crcs, i, at, b, k - 1);
      LocalsDamaged(entries, crcs, i, at, b, k - 1);
      CentralAlike(entries[k - 1], damaged[k - 1], crcs[k - 1], |Locals(entries, crcs, k - 1)|);
    }
  }

  lemma ArchiveDamaged(entries: seq<Entry>, crcs: seq<bv32>, i: nat, at: nat, b: seq<byte>)
    requires i < |entries| == |crcs| && at + |b| <= |entries[i].data|
    ensures var damaged := entries[i := Damaged(entries[i], at, b)];
            var p := |Locals(entries, crcs, i)| + LOCAL_SIZE + |entries[i].name| + at;
            && p + |b| <= |Archive(entries, crcs)|
            && Archive(damaged, crcs) == Splice(Archive(entries, crcs), p, b)
  {
    hide Locals, Centrals, EndRecord, Splice;
    LocalsDamaged(entries, crcs, i, at, b, |entries|);
    CentralsDamaged(entries, crcs, i, at, b, |entries|);
    var locals, centrals := Locals(entries, crcs, |entries|), Centrals(entries, crcs, |entries|);
    var end := EndRecord(|entries|, |centrals|, |locals|);
    var p := |Locals(entries, crcs, i)| + LOCAL_SIZE + |entries[i].name| + at;
    SpliceBefore(locals, centrals, p, b);
    SpliceBefore(locals + centrals, end, p, b);
  }

  lemma DamagedLegal(entries: seq<Entry>, i: nat, at: nat, b: seq<byte>)
    requires Legal(entries) && i < |entries| && at + |b| <= |entries[i].data|
    ensures Legal(entries[i := Damaged(entries[i], at, b)])
  {
    hide Splice;
    var damaged := entries[i := Damaged(entries[i], at, b)];
    assert forall k :: 0 <= k < |entries| ==> damaged[k].name == entries[k].name;
  }

  lemma DamageNoticed(data: seq<byte>, at: nat, b: seq<byte>)
    requires at + |b| <= |data| && |b| <= 4 && data[at..at + |b|] != b
    ensures Crc(Splice(data, at, b)) != Crc(data)
  {
    hide Crc;
    var was := data[at..at + |b|];
    BurstDetected(data[..at], was, b, data[at + |b|..]);
    assert data[..at] + was + data[at + |b|..] == data;
  }

  /** The data stands in the archive where it is said to. */
  lemma DataStands(entries: seq<Entry>, i: nat)
    requires i < |entries| && |Written(entries)| < 0x1_0000_0000 && |entries[i].name| <= MAX_NAME
    ensures HasAt(Written(entries), DataBegins(entries, i), entries[i].data)
  {
    hide LocalRecord, HasAt, Crc, Centrals, EndRecord, Locals;
    var crcs := Crcs(entries);
    var e, local, locals := entries[i], |Locals(entries, crcs, i)|, Locals(entries, crcs, |entries|);
    var rest := Centrals(entries, crcs, |entries|);
    var end := EndRecord(|entries|, |rest|, |locals|);
    LocalStands(entries, crcs, |entries|, i);
    Within(locals, rest, local, LocalRecord(e, crcs[i]));
    Within(locals + rest, end, local, LocalRecord(e, crcs[i]));
    SmallData(Written(entries), local, e, crcs[i]);
    LocalRead(Written(entries), local, e, crcs[i]);
  }

  lemma SmallData(s: seq<byte>, at: nat, e: Entry, crc: bv32)
    requires HasAt(s, at, LocalRecord(e, crc))
    ensures |e.data| <= |s|
  {
    hide LocalFront, Sizes;
  }

  /**
    Damage is refused: replace up to four adjacent octets of one entry's data in a written archive, by any
    others, and reading it fails.
   */
  lemma DamageRefused(entries: seq<Entry>, i: nat, at: nat, b: seq<byte>)
    requires Legal(entries) && |Written(entries)| < 0x1_0000_0000
    requires i < |entries| && at + |b| <= |entries[i].data| && |b| <= 4 && entries[i].data[at..at + |b|] != b
    ensures HasAt(Written(entries), DataBegins(entries, i), entries[i].data)
    ensures DataBegins(entries, i) + at + |b| <= |Written(entries)|
    ensures Read(Splice(Written(entries), DataBegins(entries, i) + at, b)) == Err(Malformed)
  {
    hide Archive, Read, Legal, Crc, Locals, Splice, HasAt;
    ShortName(entries, i);
    DataStands(entries, i);
    var crcs, damaged := Crcs(entries), entries[i := Damaged(entries[i], at, b)];
    ArchiveDamaged(entries, crcs, i, at, b);
    DamagedLegal(entries, i, at, b);
    ReadsClaims(damaged, crcs);
    DamageNoticed(entries[i].data, at, b);
    assert crcs[i] != Crc(damaged[i].data);
  }

  lemma ShortName(entries: seq<Entry>, i: nat)
    requires Legal(entries) && i < |entries|
    ensures |entries[i].name| <= MAX_NAME
  {
    assert LegalName(entries[i].name);
  }

  // --- Whatever is read is vouched for -------------------------------------------------------------

  /** Neither of the two flags that mean encryption is set: the lowest, and the seventh. */
  predicate PlainFlags(low: byte) {
    low as int % 2 == 0 && low as int / 64 % 2 == 0
  }

  /**
    The directory header at `cursor` vouches for the entry: stored plainly and without compression, with its
    name, its size twice and its checksum, and the place of a local header with the same name, behind which
    the data stands, all of it before `end`.
   */
  predicate Vouches(archive: seq<byte>, end: nat, cursor: nat, e: Entry) {
    && end <= cursor && cursor + CENTRAL_SIZE + |e.name| <= |archive|
    && Le32(archive, cursor) == 0x02014B50
    && PlainFlags(archive[cursor + 8]) && Le16(archive, cursor + 10) == 0
    && Bits(archive, cursor + 16) == Crc(e.data)
    && Le32(archive, cursor + 20) == |e.data| && Le32(archive, cursor + 24) == |e.data|
    && Le16(archive, cursor + 28) == |e.name| && archive[cursor + 46..cursor + 46 + |e.name|] == e.name
    && var local := Le32(archive, cursor + 42);
       && local + 30 <= end && Le32(archive, local) == 0x04034B50
       && Le16(archive, local + 26) == |e.name|
       && var from := local + 30 + |e.name| + Le16(archive, local + 28);
          && from + |e.data| <= end
          && archive[local + 30..local + 30 + |e.name|] == e.name && archive[from..from + |e.data|] == e.data
  }

  lemma FlagsRead(archive: seq<byte>, at: nat)
    requires at + 2 <= |archive| && !Encrypts(Le16(archive, at))
    ensures PlainFlags(archive[at])
  {
    LowBits(OctetValue(archive[at]), OctetValue(archive[at + 1]));
  }

  lemma Parity(k: nat, twice: nat)
    ensures (k + 2 * twice) % 2 == k % 2
  {
  }

  lemma DividedBy64(q: nat, r: nat)
    requires r < 64
    ensures (64 * q + r) / 64 == q
  {
  }

  lemma LowBits(low: nat, high: nat)
    ensures (low + 256 * high) % 2 == low % 2 && (low + 256 * high) / 64 % 2 == low / 64 % 2
  {
    var q, r, h := low / 64, low % 64, 4 * high;
    assert (low + 256 * high) / 64 == q + h by {
      DividedBy64(q + h, r);
      assert low + 256 * high == 64 * (q + h) + r;
    }
    Parity(low, 128 * high);
    Parity(q, 2 * high);
  }

  lemma LocatedVouched(archive: seq<byte>, d: Directory, cursor: nat)
    requires InDirectory(archive, d, cursor) && Locate(archive, d, cursor).Ok?
    requires var l := Locate(archive, d, cursor).value; Crc(l.entry.data) == l.crc
    ensures Vouches(archive, d.offset, cursor, Locate(archive, d, cursor).value.entry)
    ensures Locate(archive, d, cursor).value.next > cursor
  {
    hide Crc, Encrypts, Le16, Le32, Bits, PlainFlags;
    FlagsRead(archive, cursor + 8);
  }

  /** Every entry has a header of its own in the directory, in the order in which they were read. */
  predicate VouchedFor(archive: seq<byte>, end: nat, entries: seq<Entry>, cursors: seq<nat>) {
    && |cursors| == |entries|
    && (forall j, k :: 0 <= j < k < |cursors| ==> cursors[j] < cursors[k])
    && (forall k :: 0 <= k < |entries| ==> Vouches(archive, end, cursors[k], entries[k]))
  }

  lemma {:induction false} RestVouched(archive: seq<byte>, d: Directory, cursor: nat, remaining: nat,
                                       read: seq<Entry>, before: seq<nat>)
    returns (cursors: seq<nat>)
    requires InDirectory(archive, d, cursor) && VouchedFor(archive, d.offset, read, before)
    requires forall k :: 0 <= k < |before| ==> before[k] < cursor
    requires ReadRest(archive, d, cursor, remaining, read).Ok?
    ensures VouchedFor(archive, d.offset, ReadRest(archive, d, cursor, remaining, read).value, cursors)
    decreases remaining
  {
    hide Locate, Crc, Vouches;
    if remaining == 0 {
      cursors := before;
    } else {
      LocatedVouched(archive, d, cursor);
      var located := Locate(archive, d, cursor).value;
      if located.entry.name[|located.entry.name| - 1] == SLASH {
        cursors := RestVouched(archive, d, located.next, remaining - 1, read, before);
      } else {
        cursors := RestVouched(archive, d, located.next, remaining - 1, read + [located.entry], before + [cursor]);
      }
    }
  }

  /** An end record at `at` that an ordinary archive of few entries has, and what it says of the directory. */
  predicate EndsAt(archive: seq<byte>, at: nat, offset: nat) {
    && at + END_SIZE <= |archive| && Le32(archive, at) == 0x06054B50
    && Le16(archive, at + 20) == |archive| - END_SIZE - at
    && Le16(archive, at + 4) == 0 && Le16(archive, at + 6) == 0
    && Le16(archive, at + 8) == Le16(archive, at + 10) <= 32
    && Le32(archive, at + 16) == offset && offset + Le32(archive, at + 12) <= at
  }

  lemma {:induction false} EndFound(archive: seq<byte>, at: int) returns (end: nat)
    requires at + END_SIZE <= |archive| && LastDirectory(archive, at).Ok?
    ensures end <= at && EndsAt(archive, end, LastDirectory(archive, at).value.offset)
    ensures forall k :: end < k <= at ==> !EndAt(archive, k)
    decreases at
  {
    hide Le16, Le32;
    if EndAt(archive, at) {
      end := at;
    } else {
      end := EndFound(archive, at - 1);
    }
  }

  /**
    Whatever the archive, what is read from it stems from the last end record in it, and each entry from a
    directory header of its own that vouches for its name, its data and the checksum of its data.
   */
  lemma ReadIsVouched(archive: seq<byte>) returns (end: nat, offset: nat, cursors: seq<nat>)
    requires Read(archive).Ok?
    ensures EndsAt(archive, end, offset) && VouchedFor(archive, offset, Read(archive).value, cursors)
    ensures forall k :: end < k <= |archive| - END_SIZE ==> !EndAt(archive, k)
  {
    hide LastDirectory, ReadRest, EndsAt, EndAt, Vouches;
    var d := LastDirectory(archive, |archive| - END_SIZE).value;
    end := EndFound(archive, |archive| - END_SIZE);
    offset := d.offset;
    cursors := RestVouched(archive, d, d.offset, d.entries, [], []);
  }
}
