/**
  What the CBOR parser accepts, as a grammar: items written with any of the argument widths of section 3 of
  RFC 8949, not only the shortest. The parser reads exactly these, to the depth it goes.
 */
module CborGrammar {
  import opened Common
  import opened Cbor

  /** An item as written: `width` is how many octets its argument takes behind the first octet. */
  datatype Doc =
    | Number(negative: bool, width: nat, n: nat)
    | String(text: bool, width: nat, octets: seq<byte>)
    | Flag(b: bool)
    | List(width: nat, items: seq<Doc>)
    | Dictionary(width: nat, items: seq<Doc>)

  /** An argument below 24 fits the first octet; any other takes one, two, four or eight. */
  predicate Fits(width: nat, n: nat) {
    match width
    case 0 => n < 24
    case 1 => n < 0x100
    case 2 => n < 0x1_0000
    case 4 => n < 0x1_0000_0000
    case 8 => n < TWO_64
    case _ => false
  }

  /** The places of the keys in a flattened dictionary. */
  predicate Even(k: nat) {
    k % 2 == 0
  }

  predicate IsText(d: Doc) {
    d.String? && d.text
  }

  /** Numbers and counts fit their widths, and the keys of a dictionary are text. */
  predicate Proper(d: Doc) {
    match d
    case Number(negative, width, n) => Fits(width, n) && (negative ==> n < 0x8000_0000_0000_0000)
    case String(_, width, octets) => Fits(width, |octets|)
    case Flag(_) => true
    case List(width, items) => Fits(width, |items|) && forall k :: 0 <= k < |items| ==> Proper(items[k])
    case Dictionary(width, items) =>
      && |items| % 2 == 0 && Fits(width, |items| / 2)
      && (forall k :: 0 <= k < |items| ==> Proper(items[k]))
      && (forall k :: 0 <= k < |items| && Even(k) ==> IsText(items[k]))
  }

  predicate AllProper(items: seq<Doc>) {
    forall k :: 0 <= k < |items| ==> Proper(items[k])
  }

  /** Items that are proper and no deeper than the parser goes. */
  predicate AllGood(items: seq<Doc>, depth: nat) {
    AllProper(items) && forall k :: 0 <= k < |items| ==> WithinDepth(items[k], depth)
  }

  /** Every other item, from the first, is text. */
  predicate TextKeys(items: seq<Doc>) {
    forall k :: 0 <= k < |items| && Even(k) ==> IsText(items[k])
  }

  /** No deeper than the parser goes, the root being at `depth`. */
  predicate WithinDepth(d: Doc, depth: nat) {
    depth <= 8 && (d.List? || d.Dictionary? ==> forall k :: 0 <= k < |d.items| ==> WithinDepth(d.items[k], depth + 1))
  }

  /** The first octet: the major type in its upper three bits, and the argument or its width in the others. */
  function First(major: byte, width: nat, n: nat): byte
    requires Fits(width, n)
  {
    match width
    case 0 => 32 * major + n as byte
    case 1 => 32 * major + 24
    case 2 => 32 * major + 25
    case 4 => 32 * major + 26
    case 8 => 32 * major + 27
  }

  function Head(major: byte, width: nat, n: nat): seq<byte>
    requires Fits(width, n)
  {
    [First(major, width, n)] + if width == 0 then [] else BeOctets(n, width)
  }

  /** The octets of an item. */
  function Written(d: Doc): seq<byte>
    requires Proper(d)
    decreases d
  {
    match d
    case Number(negative, width, n) => Head(if negative then 1 else 0, width, n)
    case String(text, width, octets) => Head(if text then 3 else 2, width, |octets|) + octets
    case Flag(b) => [if b then 0xF5 else 0xF4]
    case List(width, items) => Head(4, width, |items|) + WrittenAll(items)
    case Dictionary(width, items) => Head(5, width, |items| / 2) + WrittenAll(items)
  }

  function WrittenAll(items: seq<Doc>): seq<byte>
    requires AllProper(items)
    decreases items
  {
    if items == [] then [] else Written(items[0]) + WrittenAll(items[1..])
  }

  /** What an item means. */
  function Meaning(d: Doc): Value {
    match d
    case Number(negative, _, n) => if negative then Nint(-1 - n) else Uint(n)
    case String(text, _, octets) => if text then Text(octets) else Bytes(octets)
    case Flag(b) => Bool(b)
    case List(_, items) => Array(Meanings(items))
    case Dictionary(_, items) => Map(Meanings(items))
  }

  function Meanings(items: seq<Doc>): (r: seq<Value>)
    ensures |r| == |items|
  {
    if items == [] then [] else [Meaning(items[0])] + Meanings(items[1..])
  }

  // --- Heads ---------------------------------------------------------------------------------------

  lemma InitialIsSum(major: byte, extra: byte)
    requires major < 8 && extra < 32
    ensures Initial(major, extra) == 32 * major + extra
  {
  }

  lemma PartsOfInitial(octet: byte)
    ensures Major(octet) < 8 && Extra(octet) < 32 && Initial(Major(octet), Extra(octet)) == octet
  {
  }

  /** What is said of the argument by a first octet's lower bits. */
  function WidthCode(width: nat, n: nat): byte
    requires Fits(width, n)
  {
    match width
    case 0 => n as byte
    case 1 => 24
    case 2 => 25
    case 4 => 26
    case 8 => 27
  }

  lemma FirstIsInitial(major: byte, width: nat, n: nat)
    requires major < 8 && Fits(width, n)
    ensures WidthCode(width, n) < 32 && First(major, width, n) == Initial(major, WidthCode(width, n))
  {
    hide Initial;
    if width == 0 {
      SmallByte(n);
    }
    InitialIsSum(major, WidthCode(width, n));
  }

  lemma WidthsFit(width: nat, n: nat)
    requires Fits(width, n) && width > 0
    ensures n < Pow256(width) && Width(WidthCode(width, n)) == Some(width) && 24 <= WidthCode(width, n)
  {
    assert Pow256(1) == 0x100;
    assert Pow256(2) == 0x1_0000;
    assert Pow256(4) == 0x100_0000 * 0x100;
    assert Pow256(8) == 0x1_0000_0000 * Pow256(4);
  }

  lemma HeadRead(major: byte, width: nat, n: nat, rest: seq<byte>)
    requires major < 7 && Fits(width, n)
    ensures var s := Head(major, width, n) + rest;
            s != [] && Major(s[0]) == major && Argument(Extra(s[0]), s[1..]) == Some((n, rest))
  {
    hide Initial, Major, Extra, Argument, First, BeOctets;
    FirstIsInitial(major, width, n);
    if width == 0 {
      ShortArgument(major, n, rest);
      assert Head(major, width, n) + rest == [Initial(major, n as byte)] + rest;
    } else {
      WidthsFit(width, n);
      LongArgument(major, WidthCode(width, n), width, n, rest);
      assert Head(major, width, n) + rest == [Initial(major, WidthCode(width, n))] + BeOctets(n, width) + rest;
    }
  }

  // --- What is written is read ---------------------------------------------------------------------

  lemma LeafRead(d: Doc, depth: nat, rest: seq<byte>)
    requires Proper(d) && depth <= MAX_DEPTH && !d.List? && !d.Dictionary?
    ensures ParseItem(Written(d) + rest, depth) == Some((Meaning(d), rest))
  {
    hide Head, Argument, Major, Extra;
    match d
    case Number(negative, width, n) => HeadRead(if negative then 1 else 0, width, n, rest);
    case String(text, width, octets) =>
      var major: byte := if text then 3 else 2;
      HeadRead(major, width, |octets|, octets + rest);
      assert Written(d) + rest == Head(major, width, |octets|) + (octets + rest);
      assert (octets + rest)[..|octets|] == octets && (octets + rest)[|octets|..] == rest;
    case Flag(b) => BoolReadsBack(b);
  }

  lemma {:induction false} DocRead(d: Doc, depth: nat, rest: seq<byte>)
    requires Proper(d) && WithinDepth(d, depth)
    ensures ParseItem(Written(d) + rest, depth) == Some((Meaning(d), rest))
    decreases d
  {
    hide Head, Argument, Major, Extra;
    if d.List? {
      var body := WrittenAll(d.items);
      HeadRead(4, d.width, |d.items|, body + rest);
      assert Written(d) + rest == Head(4, d.width, |d.items|) + (body + rest);
      DocsRead(d.items, depth + 1, rest);
    } else if d.Dictionary? {
      var body := WrittenAll(d.items);
      HeadRead(5, d.width, |d.items| / 2, body + rest);
      assert Written(d) + rest == Head(5, d.width, |d.items| / 2) + (body + rest);
      EntriesRead(d.items, |d.items| / 2, depth + 1, rest);
    } else {
      LeafRead(d, depth, rest);
    }
  }

  lemma {:induction false} DocsRead(items: seq<Doc>, depth: nat, rest: seq<byte>)
    requires AllGood(items, depth)
    ensures ParseItems(WrittenAll(items) + rest, depth, |items|) == Some((Meanings(items), rest))
    decreases items
  {
    hide Written, ParseItem, Meaning, Proper;
    if items == [] {
      assert [] + rest == rest;
    } else {
      var after := WrittenAll(items[1..]) + rest;
      DocRead(items[0], depth, after);
      assert WrittenAll(items) + rest == Written(items[0]) + after;
      DocsRead(items[1..], depth, rest);
    }
  }

  lemma {:induction false} EntriesRead(items: seq<Doc>, count: nat, depth: nat, rest: seq<byte>)
    requires |items| == 2 * count && AllGood(items, depth) && TextKeys(items)
    ensures ParsePairs(WrittenAll(items) + rest, depth, count) == Some((Meanings(items), rest))
    decreases items
  {
    hide Written, WrittenAll, Meaning, Meanings, ParseItem, Proper, WithinDepth, AllGood, TextKeys, IsText;
    if count == 0 {
      NothingWritten();
      assert [] + rest == rest;
    } else {
      var tail := items[2..];
      KeyAhead(items);
      GoodBehind(items, depth);
      var after := WrittenAll(tail) + rest;
      var entry := Written(items[1]) + after;
      EntryAhead(items[0], items[1], tail, depth);
      assert items == [items[0], items[1]] + tail;
      DocRead(items[0], depth, entry);
      DocRead(items[1], depth, after);
      TextMeant(items[0]);
      assert WrittenAll(items) + rest == Written(items[0]) + entry;
      EntriesRead(tail, count - 1, depth, rest);
    }
  }

  lemma GoodBehind(items: seq<Doc>, depth: nat)
    requires |items| >= 2 && AllGood(items, depth)
    ensures AllGood(items[2..], depth) && AllProper(items[2..])
    ensures Proper(items[0]) && WithinDepth(items[0], depth) && Proper(items[1]) && WithinDepth(items[1], depth)
  {
    hide Proper, WithinDepth;
  }

  lemma TextMeant(d: Doc)
    requires IsText(d)
    ensures Meaning(d).Text?
  {
  }

  /** A dictionary begins with a key, and is a dictionary without its first entry. */
  lemma KeyAhead(items: seq<Doc>)
    requires |items| >= 2 && TextKeys(items)
    ensures IsText(items[0]) && TextKeys(items[2..])
  {
    assert Even(0);
    forall k | 0 <= k < |items[2..]| && Even(k)
      ensures IsText(items[2..][k])
    {
      SameParity(k + 2);
      assert items[2..][k] == items[k + 2];
    }
  }

  // --- What is read was written --------------------------------------------------------------------

  /** Octets come back from their number. */
  lemma {:induction false} NumberWritten(s: seq<byte>)
    ensures BeValue(s) < Pow256(|s|) && BeOctets(BeValue(s), |s|) == s
    decreases |s|
  {
    if s == [] {
    } else {
      var n := |s| - 1;
      NumberWritten(s[..n]);
      LastOctetBack(BeValue(s[..n]), s[n]);
      hide LowOctet;
      assert Pow256(n + 1) == 256 * Pow256(n);
      assert BeValue(s) == 256 * BeValue(s[..n]) + s[n] as int;
      assert BeOctets(BeValue(s), n + 1) == BeOctets(BeValue(s[..n]), n) + [s[n]];
      assert s == s[..n] + [s[n]];
    }
  }

  lemma LastOctetBack(high: nat, octet: byte)
    ensures (256 * high + octet as int) / 256 == high && LowOctet(256 * high + octet as int) == octet
  {
    var n := 256 * high + octet as int;
    assert n % 256 == octet as int;
  }

  /** Whatever argument is read, it was written in one of the widths. */
  lemma HeadFound(s: seq<byte>) returns (width: nat)
    requires s != [] && Argument(Extra(s[0]), s[1..]).Some?
    ensures var (n, rest) := Argument(Extra(s[0]), s[1..]).value;
            Fits(width, n) && s == Head(Major(s[0]), width, n) + rest
  {
    hide Initial, Major, Extra, First, Head, BeOctets, BeValue, Fits;
    var extra := Extra(s[0]);
    width := Width(extra).value;
    if width == 0 {
      ShortHead(s);
    } else {
      LongHead(s, width);
    }
  }

  lemma ShortHead(s: seq<byte>)
    requires s != [] && Extra(s[0]) < 24
    ensures var n := Extra(s[0]) as int; Fits(0, n) && s == Head(Major(s[0]), 0, n) + s[1..][0..]
  {
    hide Initial, Major, Extra, First;
    PartsOfInitial(s[0]);
    SmallExtra(Extra(s[0]));
    FirstIsInitial(Major(s[0]), 0, Extra(s[0]) as int);
  }

  lemma LongHead(s: seq<byte>, width: nat)
    requires s != [] && Extra(s[0]) >= 24 && Width(Extra(s[0])) == Some(width) && width <= |s| - 1
    ensures var n := BeValue(s[1..][..width]); Fits(width, n) && s == Head(Major(s[0]), width, n) + s[1..][width..]
  {
    hide Initial, Major, Extra, First, BeOctets, BeValue;
    PartsOfInitial(s[0]);
    NumberWritten(s[1..][..width]);
    PowerOf(width);
    FirstIsInitial(Major(s[0]), width, BeValue(s[1..][..width]));
    assert s == [s[0]] + s[1..][..width] + s[1..][width..];
  }

  lemma SmallExtra(extra: byte)
    requires extra < 24
    ensures extra as int < 24 && (extra as int) as byte == extra
  {
  }

  lemma PowerOf(width: nat)
    requires width == 1 || width == 2 || width == 4 || width == 8
    ensures Pow256(width) == match width case 1 => 0x100 case 2 => 0x1_0000 case 4 => 0x1_0000_0000 case _ => TWO_64
  {
    assert Pow256(1) == 0x100;
    assert Pow256(2) == 0x1_0000;
    assert Pow256(4) == 0x100_0000 * 0x100;
    assert Pow256(8) == 0x1_0000_0000 * Pow256(4);
  }

  lemma {:induction false} ReadWasWritten(s: seq<byte>, depth: nat) returns (d: Doc)
    requires ParseItem(s, depth).Some?
    ensures Proper(d) && WithinDepth(d, depth)
    ensures Meaning(d) == ParseItem(s, depth).value.0 && s == Written(d) + ParseItem(s, depth).value.1
    decreases |s|, 0, 0
  {
    hide Head, Argument, Fits;
    var major, extra := Major(s[0]), Extra(s[0]);
    if major == 7 {
      d := Flag(extra == 21);
      FlagOctet(s[0]);
      assert s == [s[0]] + s[1..];
    } else {
      var width := HeadFound(s);
      var (n, rest) := Argument(extra, s[1..]).value;
      d := BodyWritten(major, width, n, rest, depth);
      MajorKnown(s[0]);
    }
  }

  lemma FlagOctet(octet: byte)
    requires Major(octet) == 7 && (Extra(octet) == 20 || Extra(octet) == 21)
    ensures octet == if Extra(octet) == 21 then 0xF5 else 0xF4
  {
  }

  lemma MajorKnown(octet: byte)
    ensures Major(octet) <= 7
  {
  }

  lemma {:induction false} BodyWritten(major: byte, width: nat, n: nat, rest: seq<byte>, depth: nat)
    returns (d: Doc)
    requires depth <= MAX_DEPTH && Fits(width, n) && ParseBody(major, n, rest, depth).Some?
    ensures Proper(d) && WithinDepth(d, depth)
    ensures var (v, left) := ParseBody(major, n, rest, depth).value;
            Meaning(d) == v && Head(major, width, n) + rest == Written(d) + left
    decreases |rest|, 2, 0
  {
    hide Head, Fits, ParseItems, ParsePairs, WrittenAll, Meanings;
    if major == 0 || major == 1 {
      d := Number(major == 1, width, n);
    } else if major == 2 || major == 3 {
      d := String(major == 3, width, rest[..n]);
      assert rest == rest[..n] + rest[n..];
    } else if major == 4 {
      var items := DocsWritten(rest, depth + 1, n);
      d := List(width, items);
    } else {
      var items := EntriesWritten(rest, depth + 1, n);
      d := Dictionary(width, items);
    }
  }

  lemma {:induction false} DocsWritten(s: seq<byte>, depth: nat, count: nat) returns (items: seq<Doc>)
    requires ParseItems(s, depth, count).Some?
    ensures |items| == count && AllGood(items, depth)
    ensures var (values, left) := ParseItems(s, depth, count).value;
            Meanings(items) == values && s == WrittenAll(items) + left
    decreases |s|, 1, count
  {
    hide Written, WrittenAll, Meaning, Meanings, Proper, WithinDepth, AllGood, ParseItem;
    if count == 0 {
      items := [];
      NothingWritten();
    } else {
      var first := ReadWasWritten(s, depth);
      var rest := DocsWritten(ParseItem(s, depth).value.1, depth, count - 1);
      items := [first] + rest;
      OneGoodAhead(first, rest, depth);
      WrittenAhead(first, rest);
    }
  }

  lemma OneGoodAhead(d: Doc, rest: seq<Doc>, depth: nat)
    requires Proper(d) && WithinDepth(d, depth) && AllGood(rest, depth)
    ensures AllGood([d] + rest, depth) && AllProper(rest)
  {
    hide Proper, WithinDepth;
  }

  lemma {:induction false} EntriesWritten(s: seq<byte>, depth: nat, count: nat) returns (items: seq<Doc>)
    requires ParsePairs(s, depth, count).Some?
    ensures |items| == 2 * count && AllGood(items, depth) && TextKeys(items)
    ensures var (values, left) := ParsePairs(s, depth, count).value;
            Meanings(items) == values && s == WrittenAll(items) + left
    decreases |s|, 1, count
  {
    hide Written, WrittenAll, Meaning, Meanings, Proper, WithinDepth, ParseItem;
    if count == 0 {
      items := [];
      NothingWritten();
    } else {
      var key := ReadWasWritten(s, depth);
      var afterKey := ParseItem(s, depth).value.1;
      var entry := ReadWasWritten(afterKey, depth);
      var rest := EntriesWritten(ParseItem(afterKey, depth).value.1, depth, count - 1);
      TextKey(key);
      items := [key, entry] + rest;
      EntryAhead(key, entry, rest, depth);
    }
  }

  lemma NothingWritten()
    ensures WrittenAll([]) == [] && Meanings([]) == [] && TextKeys([]) && forall depth :: AllGood([], depth)
  {
  }

  lemma TextKey(d: Doc)
    requires Meaning(d).Text?
    ensures IsText(d)
  {
  }

  /** One more entry ahead of the others. */
  lemma EntryAhead(key: Doc, entry: Doc, rest: seq<Doc>, depth: nat)
    requires Proper(key) && WithinDepth(key, depth) && IsText(key)
    requires Proper(entry) && WithinDepth(entry, depth) && AllGood(rest, depth) && TextKeys(rest)
    ensures var items := [key, entry] + rest;
            && AllGood(items, depth) && TextKeys(items)
            && WrittenAll(items) == Written(key) + (Written(entry) + WrittenAll(rest))
            && Meanings(items) == [Meaning(key), Meaning(entry)] + Meanings(rest)
  {
    GoodAhead(key, entry, rest, depth);
    KeysAhead(key, entry, rest);
    hide Written, Meaning, Proper, WithinDepth, WrittenAll, Meanings, TextKeys, AllGood, AllProper;
    assert [key, entry] + rest == [key] + ([entry] + rest);
    WrittenAhead(key, [entry] + rest);
    WrittenAhead(entry, rest);
  }

  lemma GoodAhead(key: Doc, entry: Doc, rest: seq<Doc>, depth: nat)
    requires Proper(key) && WithinDepth(key, depth)
    requires Proper(entry) && WithinDepth(entry, depth) && AllGood(rest, depth)
    ensures AllGood([key, entry] + rest, depth) && AllProper([entry] + rest) && AllProper(rest)
  {
    hide Proper, WithinDepth;
  }

  lemma KeysAhead(key: Doc, entry: Doc, rest: seq<Doc>)
    requires IsText(key) && TextKeys(rest)
    ensures TextKeys([key, entry] + rest)
  {
    hide IsText, Even;
    var items := [key, entry] + rest;
    forall k | 0 <= k < |items| && Even(k)
      ensures IsText(items[k])
    {
      OddOne();
      if k >= 2 {
        SameParity(k);
        assert items[k] == rest[k - 2];
      }
    }
  }

  lemma OddOne()
    ensures !Even(1)
  {
  }

  lemma SameParity(k: nat)
    requires k >= 2
    ensures Even(k - 2) <==> Even(k)
  {
  }

  lemma WrittenAhead(d: Doc, rest: seq<Doc>)
    requires Proper(d) && AllProper(rest)
    ensures AllProper([d] + rest)
    ensures WrittenAll([d] + rest) == Written(d) + WrittenAll(rest)
    ensures Meanings([d] + rest) == [Meaning(d)] + Meanings(rest)
  {
    hide Written, Meaning, Proper;
    assert ([d] + rest)[1..] == rest;
  }

  /** The parser accepts an input as a value exactly if it is a proper item, within the depth, that means it. */
  lemma ParsesExactly(s: seq<byte>, v: Value)
    ensures Parse(s) == Some(v) <==>
            exists d :: Proper(d) && WithinDepth(d, 0) && Written(d) == s && Meaning(d) == v
  {
    hide ParseItem, Proper, WithinDepth, Written, Meaning;
    if Parse(s) == Some(v) {
      var d := ReadWasWritten(s, 0);
      assert Written(d) + [] == Written(d);
    }
    forall d | Proper(d) && WithinDepth(d, 0) && Written(d) == s && Meaning(d) == v
      ensures Parse(s) == Some(v)
    {
      DocRead(d, 0, []);
      assert Written(d) + [] == Written(d);
    }
  }
}
