/**
  The part of CBOR that MCUmgr uses (section 3 of RFC 8949): numbers, strings, truth values and
  nested collections of known size, the keys of a map being text. A writer that picks the shortest argument, and a
  recursive-descent parser that trusts no count.
 */
module Cbor {
  import opened Common

  const MAX_DEPTH := 8
  const MAX_NEGATIVE_ARGUMENT := 0x7FFF_FFFF_FFFF_FFFF
  const TWO_64 := 0x1_0000_0000_0000_0000

  /** A map's entries are flattened: key, value, key, value. */
  datatype Value =
    | Uint(n: nat)
    | Nint(i: int)
    | Bytes(octets: seq<byte>)
    | Text(text: seq<byte>)
    | Bool(b: bool)
    | Array(items: seq<Value>)
    | Map(items: seq<Value>)

  // --- Writing ------------------------------------------------------------------------------------

  /** The first octet of an item. */
  function Initial(major: byte, extra: byte): byte {
    (major << 5) | extra
  }

  function Major(initial: byte): byte {
    initial >> 5
  }

  function Extra(initial: byte): byte {
    initial & 0x1F
  }

  lemma InitialReadsBack(major: byte, extra: byte)
    requires major < 8 && extra < 32
    ensures Major(Initial(major, extra)) == major && Extra(Initial(major, extra)) == extra
  {
  }

  /** The first octet and the argument behind it, in as few octets as `n` needs. */
  function HeadOf(major: byte, n: nat): seq<byte>
    requires n < TWO_64
  {
    if n < 24 then [Initial(major, n as byte)]
    else if n <= 0xFF then [Initial(major, 24)] + BeOctets(n, 1)
    else if n <= 0xFFFF then [Initial(major, 25)] + BeOctets(n, 2)
    else if n <= 0xFFFF_FFFF then [Initial(major, 26)] + BeOctets(n, 4)
    else [Initial(major, 27)] + BeOctets(n, 8)
  }

  /** A tree the format can carry: 64-bit numbers and counts, text keys. */
  predicate Encodable(v: Value) {
    match v
    case Uint(n) => n < TWO_64
    case Nint(i) => -0x8000_0000_0000_0000 <= i < 0
    case Bytes(octets) => |octets| < TWO_64
    case Text(text) => |text| < TWO_64
    case Bool(_) => true
    case Array(items) => |items| < TWO_64 && forall k :: 0 <= k < |items| ==> Encodable(items[k])
    case Map(items) =>
      && |items| % 2 == 0 && |items| / 2 < TWO_64
      && (forall k :: 0 <= k < |items| ==> Encodable(items[k]))
      && (forall k :: 0 <= k < |items| && k % 2 == 0 ==> items[k].Text?)
  }

  /** No node is deeper than the parser goes, the root being at `depth`. */
  predicate Shallow(v: Value, depth: nat) {
    depth <= MAX_DEPTH && (v.Array? || v.Map? ==> forall k :: 0 <= k < |v.items| ==> Shallow(v.items[k], depth + 1))
  }

  function Encode(v: Value): seq<byte>
    requires Encodable(v)
    decreases v
  {
    match v
    case Uint(n) => HeadOf(0, n)
    case Nint(i) => HeadOf(1, -1 - i)
    case Bytes(octets) => HeadOf(2, |octets|) + octets
    case Text(text) => HeadOf(3, |text|) + text
    case Bool(b) => [if b then 0xF5 else 0xF4]
    case Array(items) => HeadOf(4, |items|) + EncodeAll(items)
    case Map(items) => HeadOf(5, |items| / 2) + EncodeAll(items)
  }

  function EncodeAll(items: seq<Value>): seq<byte>
    requires forall k :: 0 <= k < |items| ==> Encodable(items[k])
    decreases items
  {
    if items == [] then [] else Encode(items[0]) + EncodeAll(items[1..])
  }

  // --- Parsing ------------------------------------------------------------------------------------

  /** How many octets the argument takes, or none for a reserved or indefinite length. */
  function Width(extra: byte): Option<nat> {
    if extra < 24 then Some(0)
    else if extra == 24 then Some(1)
    else if extra == 25 then Some(2)
    else if extra == 26 then Some(4)
    else if extra == 27 then Some(8)
    else None
  }

  /** The argument behind an initial octet, and what is left. */
  function Argument(extra: byte, s: seq<byte>): (r: Option<(nat, seq<byte>)>)
    ensures r.Some? ==> |r.value.1| <= |s|
  {
    var width := Width(extra);
    if width.None? || width.value > |s| then None
    else Some((if extra < 24 then extra as int else BeValue(s[..width.value]), s[width.value..]))
  }

  /** One item from the front of `s`, and what is left; every item takes at least one octet. */
  function ParseItem(s: seq<byte>, depth: nat): (r: Option<(Value, seq<byte>)>)
    ensures r.Some? ==> |r.value.1| < |s|
    decreases |s|, 0, 0
  {
    if depth > MAX_DEPTH || s == [] then None else
    var major, extra := Major(s[0]), Extra(s[0]);
    if major == 7 then
      if extra == 20 || extra == 21 then Some((Bool(extra == 21), s[1..])) else None
    else
      var argument := Argument(extra, s[1..]);
      if argument.None? then None else
      ParseBody(major, argument.value.0, argument.value.1, depth)
  }

  /** What follows a head of the given major type and argument. */
  function ParseBody(major: byte, n: nat, rest: seq<byte>, depth: nat): (r: Option<(Value, seq<byte>)>)
    ensures r.Some? ==> |r.value.1| <= |rest|
    decreases |rest|, 2, 0
  {
    if major == 0 then Some((Uint(n), rest))
    else if major == 1 then if n > MAX_NEGATIVE_ARGUMENT then None else Some((Nint(-1 - n), rest))
    else if major == 2 then if n > |rest| then None else Some((Bytes(rest[..n]), rest[n..]))
    else if major == 3 then if n > |rest| then None else Some((Text(rest[..n]), rest[n..]))
    else if major == 4 then
      var items := ParseItems(rest, depth + 1, n);
      if items.None? then None else Some((Array(items.value.0), items.value.1))
    else if major == 5 then
      var items := ParsePairs(rest, depth + 1, n);
      if items.None? then None else Some((Map(items.value.0), items.value.1))
    else None
  }

  function ParseItems(s: seq<byte>, depth: nat, count: nat): (r: Option<(seq<Value>, seq<byte>)>)
    ensures r.Some? ==> |r.value.1| <= |s|
    decreases |s|, 1, count
  {
    if count == 0 then Some(([], s)) else
    var first := ParseItem(s, depth);
    if first.None? then None else
    var rest := ParseItems(first.value.1, depth, count - 1);
    if rest.None? then None else Some(([first.value.0] + rest.value.0, rest.value.1))
  }

  function ParsePairs(s: seq<byte>, depth: nat, count: nat): (r: Option<(seq<Value>, seq<byte>)>)
    ensures r.Some? ==> |r.value.1| <= |s|
    decreases |s|, 1, count
  {
    if count == 0 then Some(([], s)) else
    var key := ParseItem(s, depth);
    if key.None? || !key.value.0.Text? then None else
    var entry := ParseItem(key.value.1, depth);
    if entry.None? then None else
    var rest := ParsePairs(entry.value.1, depth, count - 1);
    if rest.None? then None else Some(([key.value.0, entry.value.0] + rest.value.0, rest.value.1))
  }

  /** One complete item that takes the whole input. */
  function Parse(s: seq<byte>): Option<Value> {
    var item := ParseItem(s, 0);
    if item.None? || item.value.1 != [] then None else Some(item.value.0)
  }

  // --- Round trip ---------------------------------------------------------------------------------

  lemma HeadReadsBack(major: byte, n: nat, rest: seq<byte>)
    requires major < 7 && n < TWO_64
    ensures var s := HeadOf(major, n) + rest;
            && s != [] && Major(s[0]) == major
            && Argument(Extra(s[0]), s[1..]) == Some((n, rest))
  {
    var s := HeadOf(major, n) + rest;
    if n < 24 {
      ShortArgument(major, n, rest);
    } else {
      var extra: byte, width := if n <= 0xFF then 24 else if n <= 0xFFFF then 25
          else if n <= 0xFFFF_FFFF then 26 else 27,
                                if n <= 0xFF then 1 else if n <= 0xFFFF then 2 else if n <= 0xFFFF_FFFF then 4 else 8;
      LongArgument(major, extra, width, n, rest);
    }
  }

  lemma ShortArgument(major: byte, n: nat, rest: seq<byte>)
    requires major < 7 && n < 24
    ensures var s := [Initial(major, n as byte)] + rest;
            Major(s[0]) == major && Argument(Extra(s[0]), s[1..]) == Some((n, rest))
  {
    hide Initial, Major, Extra;
    var extra := n as byte;
    ByteOfInt(n);
    SmallByte(n);
    InitialReadsBack(major, extra);
    var s := [Initial(major, extra)] + rest;
    assert s[1..] == rest && rest[0..] == rest;
  }

  lemma SmallByte(n: nat)
    requires n < 24
    ensures n as byte < 24
  {
    ByteOfInt(n);
  }

  lemma LongArgument(major: byte, extra: byte, width: nat, n: nat, rest: seq<byte>)
    requires major < 7 && 24 <= extra < 32 && Width(extra) == Some(width) && n < Pow256(width)
    ensures var s := [Initial(major, extra)] + BeOctets(n, width) + rest;
            Major(s[0]) == major && Argument(Extra(s[0]), s[1..]) == Some((n, rest))
  {
    hide Initial, Major, Extra, BeOctets, BeValue;
    InitialReadsBack(major, extra);
    BeRoundTrip(n, width);
    var s := [Initial(major, extra)] + BeOctets(n, width) + rest;
    assert s[1..] == BeOctets(n, width) + rest;
    assert s[1..][..width] == BeOctets(n, width) && s[1..][width..] == rest;
  }

  lemma BoolReadsBack(b: bool)
    ensures var octet: byte := if b then 0xF5 else 0xF4;
            Major(octet) == 7 && Extra(octet) == if b then 21 else 20
  {
  }

  /** An item without children comes back exactly. */
  lemma LeafRoundTrip(v: Value, depth: nat, rest: seq<byte>)
    requires Encodable(v) && depth <= MAX_DEPTH && !v.Array? && !v.Map?
    ensures ParseItem(Encode(v) + rest, depth) == Some((v, rest))
  {
    hide HeadOf, Argument, Major, Extra;
    match v
    case Uint(n) => HeadReadsBack(0, n, rest);
    case Nint(i) => HeadReadsBack(1, -1 - i, rest);
    case Bytes(octets) => StringRoundTrip(2, octets, rest);
    case Text(text) => StringRoundTrip(3, text, rest);
    case Bool(b) => BoolReadsBack(b);
  }

  /** Every encodable tree within the depth comes back exactly, whatever follows it. */
  lemma {:induction false} ItemRoundTrip(v: Value, depth: nat, rest: seq<byte>)
    requires Encodable(v) && Shallow(v, depth)
    ensures ParseItem(Encode(v) + rest, depth) == Some((v, rest))
    decreases v
  {
    hide HeadOf, Argument, Major, Extra;
    if v.Array? {
      var body := EncodeAll(v.items);
      HeadReadsBack(4, |v.items|, body + rest);
      assert Encode(v) + rest == HeadOf(4, |v.items|) + (body + rest);
      ItemsRoundTrip(v.items, depth + 1, rest);
    } else if v.Map? {
      var body := EncodeAll(v.items);
      HeadReadsBack(5, |v.items| / 2, body + rest);
      assert Encode(v) + rest == HeadOf(5, |v.items| / 2) + (body + rest);
      PairsRoundTrip(v.items, depth + 1, rest);
    } else {
      LeafRoundTrip(v, depth, rest);
    }
  }

  lemma StringRoundTrip(major: byte, octets: seq<byte>, rest: seq<byte>)
    requires major < 7 && |octets| < TWO_64
    ensures var s := HeadOf(major, |octets|) + octets + rest;
            && s != [] && Major(s[0]) == major && Argument(Extra(s[0]), s[1..]) == Some((|octets|, octets + rest))
            && (octets + rest)[..|octets|] == octets && (octets + rest)[|octets|..] == rest
  {
    hide HeadOf, Argument, Major, Extra;
    HeadReadsBack(major, |octets|, octets + rest);
    assert HeadOf(major, |octets|) + octets + rest == HeadOf(major, |octets|) + (octets + rest);
  }

  lemma {:induction false} ItemsRoundTrip(items: seq<Value>, depth: nat, rest: seq<byte>)
    requires forall k :: 0 <= k < |items| ==> Encodable(items[k]) && Shallow(items[k], depth)
    ensures ParseItems(EncodeAll(items) + rest, depth, |items|) == Some((items, rest))
    decreases items
  {
    hide Encode, ParseItem;
    if items == [] {
      assert [] + rest == rest;
    } else {
      var after := EncodeAll(items[1..]) + rest;
      ItemRoundTrip(items[0], depth, after);
      assert EncodeAll(items) + rest == Encode(items[0]) + after;
      ItemsRoundTrip(items[1..], depth, rest);
      assert [items[0]] + items[1..] == items;
    }
  }

  lemma {:induction false} PairsRoundTrip(items: seq<Value>, depth: nat, rest: seq<byte>)
    requires |items| % 2 == 0 && forall k :: 0 <= k < |items| ==> Encodable(items[k]) && Shallow(items[k], depth)
    requires forall k :: 0 <= k < |items| && k % 2 == 0 ==> items[k].Text?
    ensures ParsePairs(EncodeAll(items) + rest, depth, |items| / 2) == Some((items, rest))
    decreases items
  {
    hide Encode, ParseItem;
    if items == [] {
      assert [] + rest == rest;
    } else {
      var tail := items[2..];
      var after := EncodeAll(tail) + rest;
      var entry := Encode(items[1]) + after;
      ItemRoundTrip(items[0], depth, entry);
      ItemRoundTrip(items[1], depth, after);
      assert items[1..][1..] == tail;
      assert EncodeAll(items) + rest == Encode(items[0]) + entry;
      assert forall k :: 0 <= k < |tail| && k % 2 == 0 ==> tail[k] == items[k + 2] && items[k + 2].Text?;
      PairsRoundTrip(tail, depth, rest);
      assert [items[0], items[1]] + tail == items;
    }
  }

  /** A tree with a node below the limit is refused, whatever follows it. */
  lemma {:induction false} TooDeepRefused(v: Value, depth: nat, rest: seq<byte>)
    requires Encodable(v) && !Shallow(v, depth)
    ensures ParseItem(Encode(v) + rest, depth).None?
    decreases v
  {
    hide HeadOf, Argument, Major, Extra;
    if depth <= MAX_DEPTH {
      var body := EncodeAll(v.items);
      if v.Array? {
        HeadReadsBack(4, |v.items|, body + rest);
        assert Encode(v) + rest == HeadOf(4, |v.items|) + (body + rest);
        ItemsTooDeep(v.items, depth + 1, rest);
      } else {
        HeadReadsBack(5, |v.items| / 2, body + rest);
        assert Encode(v) + rest == HeadOf(5, |v.items| / 2) + (body + rest);
        PairsTooDeep(v.items, depth + 1, rest);
      }
    }
  }

  predicate AllShallow(items: seq<Value>, depth: nat) {
    forall k :: 0 <= k < |items| ==> Shallow(items[k], depth)
  }

  lemma {:induction false} ItemsTooDeep(items: seq<Value>, depth: nat, rest: seq<byte>)
    requires (forall k :: 0 <= k < |items| ==> Encodable(items[k])) && !AllShallow(items, depth)
    ensures ParseItems(EncodeAll(items) + rest, depth, |items|).None?
    decreases items
  {
    hide Encode, ParseItem, Shallow;
    var after := EncodeAll(items[1..]) + rest;
    assert EncodeAll(items) + rest == Encode(items[0]) + after;
    if Shallow(items[0], depth) {
      ItemRoundTrip(items[0], depth, after);
      ItemsTooDeep(items[1..], depth, rest);
    } else {
      TooDeepRefused(items[0], depth, after);
    }
  }

  lemma {:induction false} PairsTooDeep(items: seq<Value>, depth: nat, rest: seq<byte>)
    requires |items| % 2 == 0 && (forall k :: 0 <= k < |items| ==> Encodable(items[k])) && !AllShallow(items, depth)
    ensures ParsePairs(EncodeAll(items) + rest, depth, |items| / 2).None?
    decreases items
  {
    hide Encode, ParseItem, Shallow;
    var tail := items[2..];
    var after := EncodeAll(tail) + rest;
    var entry := Encode(items[1]) + after;
    assert items[1..][1..] == tail;
    assert EncodeAll(items) + rest == Encode(items[0]) + entry;
    if !Shallow(items[0], depth) {
      TooDeepRefused(items[0], depth, entry);
    } else {
      ItemRoundTrip(items[0], depth, entry);
      if !Shallow(items[1], depth) {
        TooDeepRefused(items[1], depth, after);
      } else {
        ItemRoundTrip(items[1], depth, after);
        PairsTooDeep(tail, depth, rest);
      }
    }
  }

  /** Parsing an encoded tree returns it and consumes all input, exactly if no node is deeper than the limit. */
  lemma CborRoundTrip(v: Value)
    requires Encodable(v)
    ensures if Shallow(v, 0) then Parse(Encode(v)) == Some(v) else Parse(Encode(v)) == None
  {
    hide Encode, ParseItem, Shallow;
    assert Encode(v) + [] == Encode(v);
    if Shallow(v, 0) {
      ItemRoundTrip(v, 0, []);
    } else {
      TooDeepRefused(v, 0, []);
    }
  }

  // --- The cursor ---------------------------------------------------------------------------------

  /** The input with a position that only moves forwards; every read is checked. */
  class Cursor {
    const bytes: seq<byte>
    var position: nat

    ghost predicate Valid()
      reads this
    {
      position <= |bytes|
    }

    ghost function Left(): seq<byte>
      requires Valid()
      reads this
    {
      bytes[position..]
    }

    constructor (bytes: seq<byte>)
      ensures Valid() && Left() == bytes && this.bytes == bytes
    {
      this.bytes := bytes;
      position := 0;
    }

    method TakeByte() returns (r: Option<byte>)
      requires Valid()
      modifies this
      ensures Valid() && old(position) <= position
      ensures if old(Left()) == [] then r.None? && Left() == []
              else r == Some(old(Left())[0]) && Left() == old(Left())[1..]
    {
      if position == |bytes| {
        return None;
      }
      r := Some(bytes[position]);
      position := position + 1;
    }

    method Take(count: nat) returns (r: Option<seq<byte>>)
      requires Valid()
      modifies this
      ensures Valid() && old(position) <= position
      ensures if count > |old(Left())| then r.None?
              else r == Some(old(Left())[..count]) && Left() == old(Left())[count..]
    {
      var remaining := |bytes| - position;
      if count > remaining {
        return None;
      }
      ghost var s := Left();
      r := Some(bytes[position..position + count]);
      position := position + count;
      assert s[..count] == bytes[old(position)..position] && s[count..] == bytes[position..];
    }

    /** The argument behind an initial octet, octet by octet. */
    method ReadArgument(extra: byte) returns (r: Option<nat>)
      requires Valid()
      modifies this
      ensures Valid() && old(position) <= position
      ensures match Argument(extra, old(Left()))
              case None => r.None?
              case Some(x) => r == Some(x.0) && Left() == x.1
    {
      ghost var s := Left();
      var width := Width(extra);
      if width.None? {
        return None;
      }
      if extra < 24 {
        assert s[0..] == s;
        return Some(extra as int);
      }
      var value := 0;
      var i := 0;
      while i < width.value
        invariant 0 <= i <= width.value && i <= |s| && Valid() && position == old(position) + i
        invariant Left() == s[i..] && value == BeValue(s[..i])
      {
        var next := TakeByte();
        if next.None? {
          assert |s[i..]| == 0;
          return None;
        }
        assert s[..i + 1][..i] == s[..i] && s[..i + 1][i] == next.value;
        value := 256 * value + (next.value as int);
        i := i + 1;
      }
      assert Argument(extra, s) == Some((value, s[width.value..]));
      return Some(value);
    }

    /** What a spec result says of the cursor: the value, and how far it has moved. */
    ghost predicate Agrees<T>(spec: Option<(T, seq<byte>)>, r: Option<T>)
      requires Valid()
      reads this
    {
      if spec.None? then r.None? else r == Some(spec.value.0) && Left() == spec.value.1
    }

    /** One item. The depth is capped, and every item takes an octet, so no count can make it run on. */
    method ReadItem(depth: nat) returns (r: Option<Value>)
      requires Valid()
      modifies this
      ensures Valid() && old(position) <= position && (r.Some? ==> old(position) < position)
      ensures Agrees(ParseItem(old(Left()), depth), r)
      decreases |bytes| - position, 0, 0
    {
      hide Argument, Major, Extra, ParseBody;
      if depth > MAX_DEPTH {
        return None;
      }
      var initial := TakeByte();
      if initial.None? {
        return None;
      }
      var major, extra := Major(initial.value), Extra(initial.value);
      if major == 7 {
        return if extra == 20 || extra == 21 then Some(Bool(extra == 21)) else None;
      }
      var argument := ReadArgument(extra);
      if argument.None? {
        return None;
      }
      r := ReadBody(major, argument.value, depth);
    }

    method ReadBody(major: byte, n: nat, depth: nat) returns (r: Option<Value>)
      requires Valid()
      modifies this
      ensures Valid() && old(position) <= position && Agrees(ParseBody(major, n, old(Left()), depth), r)
      decreases |bytes| - position, 2, 0
    {
      hide ParseItems, ParsePairs;
      if major == 0 {
        return Some(Uint(n));
      } else if major == 1 {
        return if n > MAX_NEGATIVE_ARGUMENT then None else Some(Nint(-1 - n));
      } else if major == 2 || major == 3 {
        var content := Take(n);
        if content.None? {
          return None;
        }
        return Some(if major == 2 then Bytes(content.value) else Text(content.value));
      } else if major == 4 {
        var items := ReadItems(depth + 1, n);
        return if items.None? then None else Some(Array(items.value));
      } else if major == 5 {
        var items := ReadPairs(depth + 1, n);
        return if items.None? then None else Some(Map(items.value));
      }
      return None;
    }

    /** As many items as declared, one after another. */
    method ReadItems(depth: nat, count: nat) returns (r: Option<seq<Value>>)
      requires Valid()
      modifies this
      ensures Valid() && old(position) <= position && Agrees(ParseItems(old(Left()), depth, count), r)
      decreases |bytes| - position, 1, count
    {
      hide ParseItem;
      var items: seq<Value> := [];
      ghost var s := Left();
      assert forall t: seq<Value> :: items + t == t;
      var i := 0;
      while i < count
        invariant i <= count && Valid() && old(position) <= position
        invariant ItemsOnto(items, Left(), depth, count - i) == ParseItems(s, depth, count)
      {
        ItemsOntoStep(items, Left(), depth, count - i);
        var item := ReadItem(depth);
        if item.None? {
          return None;
        }
        items := items + [item.value];
        i := i + 1;
      }
      assert items + [] == items;
      return Some(items);
    }

    /** As many pairs as declared; every key is a text. */
    method ReadPairs(depth: nat, count: nat) returns (r: Option<seq<Value>>)
      requires Valid()
      modifies this
      ensures Valid() && old(position) <= position && Agrees(ParsePairs(old(Left()), depth, count), r)
      decreases |bytes| - position, 1, count
    {
      hide ParseItem;
      var items: seq<Value> := [];
      ghost var s := Left();
      assert forall t: seq<Value> :: items + t == t;
      var i := 0;
      while i < count
        invariant i <= count && Valid() && old(position) <= position
        invariant PairsOnto(items, Left(), depth, count - i) == ParsePairs(s, depth, count)
      {
        PairsOntoStep(items, Left(), depth, count - i);
        var key := ReadItem(depth);
        if key.None? || !key.value.Text? {
          return None;
        }
        var entry := ReadItem(depth);
        if entry.None? {
          return None;
        }
        items := items + [key.value, entry.value];
        i := i + 1;
      }
      assert items + [] == items;
      return Some(items);
    }
  }

  /** What was read so far, and the rest. */
  function ItemsOnto(done: seq<Value>, s: seq<byte>, depth: nat, count: nat): Option<(seq<Value>, seq<byte>)> {
    var rest := ParseItems(s, depth, count);
    if rest.None? then None else Some((done + rest.value.0, rest.value.1))
  }

  function PairsOnto(done: seq<Value>, s: seq<byte>, depth: nat, count: nat): Option<(seq<Value>, seq<byte>)> {
    var rest := ParsePairs(s, depth, count);
    if rest.None? then None else Some((done + rest.value.0, rest.value.1))
  }

  lemma ItemsOntoStep(done: seq<Value>, s: seq<byte>, depth: nat, count: nat)
    requires count > 0
    ensures var first := ParseItem(s, depth);
            ItemsOnto(done, s, depth, count) == if first.None? then None
                else ItemsOnto(done + [first.value.0], first.value.1, depth, count - 1)
  {
    hide ParseItem;
    var first := ParseItem(s, depth);
    if first.Some? {
      var rest := ParseItems(first.value.1, depth, count - 1);
      if rest.Some? {
        assert done + ([first.value.0] + rest.value.0) == (done + [first.value.0]) + rest.value.0;
      }
    }
  }

  lemma PairsOntoStep(done: seq<Value>, s: seq<byte>, depth: nat, count: nat)
    requires count > 0
    ensures var key := ParseItem(s, depth);
            PairsOnto(done, s, depth, count) ==
            if key.None? || !key.value.0.Text? then None else
            var entry := ParseItem(key.value.1, depth);
            if entry.None? then None else PairsOnto(done + [key.value.0, entry.value.0], entry.value.1, depth,
                                                    count - 1)
  {
    hide ParseItem;
    var key := ParseItem(s, depth);
    if key.Some? && key.value.0.Text? {
      var entry := ParseItem(key.value.1, depth);
      if entry.Some? {
        var rest := ParsePairs(entry.value.1, depth, count - 1);
        if rest.Some? {
          assert done + ([key.value.0, entry.value.0] + rest.value.0)
              == (done + [key.value.0, entry.value.0]) + rest.value.0;
        }
      }
    }
  }

  /** One complete item, or nothing: trailing octets are a failure. It ends on every input. */
  method ParseBytes(bytes: seq<byte>) returns (r: Option<Value>)
    ensures r == Parse(bytes)
  {
    hide ParseItem;
    var cursor := new Cursor(bytes);
    var value := cursor.ReadItem(0);
    if value.None? || cursor.position != |bytes| {
      return None;
    }
    return value;
  }

  // --- The writer ---------------------------------------------------------------------------------

  class Writer {
    var out: seq<byte>

    constructor ()
      ensures out == []
    {
      out := [];
    }

    /** The lowest `width` octets of a number, the highest first. */
    method PushBe(n: nat, width: nat)
      modifies this
      ensures out == old(out) + BeOctets(n, width)
    {
      hide LowOctet;
      var i := width;
      while i > 0
        invariant 0 <= i <= width
        invariant out == old(out) + BeOctets(ShiftedOut(n, i), width - i)
      {
        BeOneMore(n, width, i);
        out := out + [LowOctet(ShiftedOut(n, i - 1))];
        i := i - 1;
      }
    }

    method Head(major: byte, n: nat)
      requires n < TWO_64
      modifies this
      ensures out == old(out) + HeadOf(major, n)
    {
      hide Initial, BeOctets;
      if n < 24 {
        out := out + [Initial(major, n as byte)];
      } else if n <= 0xFF {
        out := out + [Initial(major, 24)];
        PushBe(n, 1);
      } else if n <= 0xFFFF {
        out := out + [Initial(major, 25)];
        PushBe(n, 2);
      } else if n <= 0xFFFF_FFFF {
        out := out + [Initial(major, 26)];
        PushBe(n, 4);
      } else {
        out := out + [Initial(major, 27)];
        PushBe(n, 8);
      }
    }

    /** Writes a whole tree, item by item. */
    method Write(v: Value)
      requires Encodable(v)
      modifies this
      ensures out == old(out) + Encode(v)
      decreases v
    {
      hide HeadOf;
      match v
      case Uint(n) => Head(0, n);
      case Nint(i) => Head(1, -1 - i);
      case Bytes(octets) =>
        Head(2, |octets|);
        out := out + octets;
      case Text(text) =>
        Head(3, |text|);
        out := out + text;
      case Bool(b) => out := out + [if b then 0xF5 else 0xF4];
      case Array(items) =>
        Head(4, |items|);
        WriteAll(items);
      case Map(items) =>
        Head(5, |items| / 2);
        WriteAll(items);
    }

    method WriteAll(items: seq<Value>)
      requires forall k :: 0 <= k < |items| ==> Encodable(items[k])
      modifies this
      ensures out == old(out) + EncodeAll(items)
      decreases items
    {
      hide Encode;
      if items != [] {
        Write(items[0]);
        WriteAll(items[1..]);
      }
    }
  }

  /** A number shifted right by whole octets. */
  function ShiftedOut(n: nat, octets: nat): nat {
    if octets == 0 then n else ShiftedOut(n / 256, octets - 1)
  }

  lemma {:induction false} ShiftOneMore(n: nat, octets: nat)
    ensures ShiftedOut(n, octets + 1) == ShiftedOut(n, octets) / 256
  {
    if octets == 0 {
    } else {
      ShiftOneMore(n / 256, octets - 1);
    }
  }

  /** Shifting one octet less leaves one octet more. */
  lemma BeOneMore(n: nat, width: nat, i: nat)
    requires 0 < i <= width
    ensures BeOctets(ShiftedOut(n, i - 1), width - i + 1)
            == BeOctets(ShiftedOut(n, i), width - i) + [LowOctet(ShiftedOut(n, i - 1))]
  {
    hide LowOctet;
    ShiftOneMore(n, i - 1);
  }
}
