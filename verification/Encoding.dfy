/**
  internal/core/encoding.go: the length-prefixed encoder behind transaction and block hashes.

  Encoded bytes are a sequence of atoms. A digest is a free constructor applied to the bytes it was
  computed from, so two digests are equal only when their preimages are. A digest occupies 32 bytes when
  it is written raw and 64 when it is written as hexadecimal text. Network stands for the eighteen bytes
  of the network identifier "entropy-mainnet-v1".
 */
module Encoding {
  import opened Common

  datatype Atom = Byte(value: uint8) | Raw(digest: Hash) | Hex(digest: Hash) | Network

  datatype Hash = Sha(preimage: seq<Atom>) | Literal(value: nat)

  /** A Go string or byte slice. */
  type Text = seq<Atom>

  function AtomWidth(a: Atom): (w: nat)
    ensures w >= 1
  {
    match a
    case Byte(_) => 1
    case Raw(_) => 32
    case Hex(_) => 64
    case Network => 18
  }

  /** Length in bytes. */
  function Width(s: Text): nat {
    if |s| == 0 then 0 else AtomWidth(s[0]) + Width(s[1..])
  }

  lemma {:induction false} WidthConcat(a: Text, b: Text)
    ensures Width(a + b) == Width(a) + Width(b)
  {
    if |a| == 0 {
      assert a + b == b;
    } else {
      assert (a + b)[0] == a[0] && (a + b)[1..] == a[1..] + b;
      WidthConcat(a[1..], b);
    }
  }

  lemma Assoc(a: Text, b: Text, c: Text)
    ensures (a + b) + c == a + (b + c)
  {
  }

  function HashHex(preimage: seq<Atom>): Text {
    [Hex(Sha(preimage))]
  }

  /** Accepts exactly the texts that are one 64-digit hexadecimal digest. */
  function DecodeHash(value: Text): Option<Hash> {
    if |value| == 1 && value[0].Hex? then Some(value[0].digest) else None
  }

  function Pow256(n: nat): (r: nat)
    ensures r >= 1
  {
    if n == 0 then 1 else 256 * Pow256(n - 1)
  }

  function BigEndian(value: nat, width: nat): (r: seq<Atom>)
    ensures |r| == width
    ensures forall i | 0 <= i < |r| :: r[i].Byte?
  {
    if width == 0 then [] else BigEndian(value / 256, width - 1) + [Byte(value % 256)]
  }

  /** Reads the first `width` atoms as a big-endian number. */
  function ReadBigEndian(s: seq<Atom>, width: nat): Option<nat> {
    if width == 0 then Some(0)
    else if |s| < width || !s[width - 1].Byte? then None
    else match ReadBigEndian(s, width - 1)
         case None => None
         case Some(high) => Some(256 * high + s[width - 1].value)
  }

  lemma {:induction false} BigEndianRoundTrip(value: nat, width: nat, rest: seq<Atom>)
    requires value < Pow256(width)
    ensures ReadBigEndian(BigEndian(value, width) + rest, width) == Some(value)
  {
    if width > 0 {
      var high := BigEndian(value / 256, width - 1);
      var tail := [Byte(value % 256)] + rest;
      assert BigEndian(value, width) + rest == high + tail;
      BigEndianRoundTrip(value / 256, width - 1, tail);
    }
  }

  lemma {:induction false} BigEndianWidth(value: nat, width: nat)
    ensures Width(BigEndian(value, width)) == width
  {
    if width > 0 {
      BigEndianWidth(value / 256, width - 1);
      WidthConcat(BigEndian(value / 256, width - 1), [Byte(value % 256)]);
      assert Width([Byte(value % 256)]) == 1 + Width([]);
    }
  }

  function EncodeUint32(value: uint32): seq<Atom> { BigEndian(value, 4) }

  function EncodeUint64(value: uint64): seq<Atom> { BigEndian(value, 8) }

  function EncodeInt64(value: int64): seq<Atom> { BigEndian(value % 0x1_0000_0000_0000_0000, 8) }

  function EncodeBool(value: bool): seq<Atom> { [Byte(if value then 1 else 0)] }

  /** A length Go can hold in an int; every Go slice satisfies it. */
  predicate Sliceable(n: nat) { n <= MAX_INT64 }

  function EncodeText(value: Text): seq<Atom> {
    BigEndian(Width(value), 8) + value
  }

  /** What the decoder returns: a value and the atoms it did not consume. */
  datatype Parsed<+T> = Parsed(value: T, rest: seq<Atom>) | Malformed

  function ParseNumber(s: seq<Atom>, width: nat): Parsed<nat> {
    match ReadBigEndian(s, width)
    case None => Malformed
    case Some(value) => if |s| < width then Malformed else Parsed(value, s[width..])
  }

  function ParseBool(s: seq<Atom>): Parsed<bool> {
    match ParseNumber(s, 1)
    case Malformed => Malformed
    case Parsed(value, rest) => if value > 1 then Malformed else Parsed(value == 1, rest)
  }

  /** Takes atoms until exactly `width` bytes are consumed. */
  function TakeWidth(s: seq<Atom>, width: nat): Parsed<Text> {
    if width == 0 then Parsed([], s)
    else if |s| == 0 || AtomWidth(s[0]) > width then Malformed
    else match TakeWidth(s[1..], width - AtomWidth(s[0]))
         case Malformed => Malformed
         case Parsed(tail, rest) => Parsed([s[0]] + tail, rest)
  }

  function ParseText(s: seq<Atom>): Parsed<Text> {
    match ParseNumber(s, 8)
    case Malformed => Malformed
    case Parsed(width, rest) => TakeWidth(rest, width)
  }

  lemma {:induction false} NumberRoundTrip(value: nat, width: nat, rest: seq<Atom>)
    requires value < Pow256(width)
    ensures ParseNumber(BigEndian(value, width) + rest, width) == Parsed(value, rest)
  {
    BigEndianRoundTrip(value, width, rest);
    assert (BigEndian(value, width) + rest)[width..] == rest;
  }

  lemma Pow256Values()
    ensures Pow256(1) == 0x100 && Pow256(4) == 0x1_0000_0000 && Pow256(8) == 0x1_0000_0000_0000_0000
  {
  }

  lemma {:induction false} TakeWidthRoundTrip(value: Text, rest: seq<Atom>)
    ensures TakeWidth(value + rest, Width(value)) == Parsed(value, rest)
  {
    if |value| == 0 {
      assert value + rest == rest;
    } else {
      assert (value + rest)[0] == value[0] && (value + rest)[1..] == value[1..] + rest;
      TakeWidthRoundTrip(value[1..], rest);
      assert [value[0]] + value[1..] == value;
    }
  }

  lemma TextRoundTrip(value: Text, rest: seq<Atom>)
    requires Sliceable(Width(value))
    ensures ParseText(EncodeText(value) + rest) == Parsed(value, rest)
  {
    Pow256Values();
    assert EncodeText(value) + rest == BigEndian(Width(value), 8) + (value + rest);
    NumberRoundTrip(Width(value), 8, value + rest);
    TakeWidthRoundTrip(value, rest);
  }

  lemma BoolRoundTrip(value: bool, rest: seq<Atom>)
    ensures ParseBool(EncodeBool(value) + rest) == Parsed(value, rest)
  {
    var n := if value then 1 else 0;
    Pow256Values();
    assert BigEndian(n, 1) == BigEndian(0, 0) + [Byte(n)] == EncodeBool(value);
    NumberRoundTrip(n, 1, rest);
  }

  /** Two texts written one after the other are told apart by the first text alone. */
  lemma TextInjective(a: Text, b: Text, restA: seq<Atom>, restB: seq<Atom>)
    requires Sliceable(Width(a)) && Sliceable(Width(b))
    requires EncodeText(a) + restA == EncodeText(b) + restB
    ensures a == b && restA == restB
  {
    TextRoundTrip(a, restA);
    TextRoundTrip(b, restB);
  }

  lemma NumberInjective(a: nat, b: nat, width: nat, restA: seq<Atom>, restB: seq<Atom>)
    requires a < Pow256(width) && b < Pow256(width)
    requires BigEndian(a, width) + restA == BigEndian(b, width) + restB
    ensures a == b && restA == restB
  {
    NumberRoundTrip(a, width, restA);
    NumberRoundTrip(b, width, restB);
  }

  /** The encoder of the source: an append-only buffer. */
  class Encoder {
    var buffer: seq<Atom>

    constructor ()
      ensures buffer == []
    {
      buffer := [];
    }

    method WriteUint8(value: uint8)
      modifies this
      ensures buffer == old(buffer) + [Byte(value)]
    {
      buffer := buffer + [Byte(value)];
    }

    method WriteBool(value: bool)
      modifies this
      ensures buffer == old(buffer) + EncodeBool(value)
    {
      if value {
        WriteUint8(1);
        return;
      }
      WriteUint8(0);
    }

    /** binary.Write of a fixed-width big-endian number, most significant byte first. */
    method WriteNumber(value: nat, width: nat)
      modifies this
      ensures buffer == old(buffer) + BigEndian(value, width)
    {
      var bytes: seq<Atom> := [];
      var rest: nat := value;
      var left: nat := width;
      while left > 0
        invariant left <= width
        invariant BigEndian(value, width) == BigEndian(rest, left) + bytes
        invariant buffer == old(buffer)
      {
        bytes := [Byte(rest % 256)] + bytes;
        rest := rest / 256;
        left := left - 1;
      }
      buffer := buffer + bytes;
    }

    method WriteUint32(value: uint32)
      modifies this
      ensures buffer == old(buffer) + EncodeUint32(value)
    {
      WriteNumber(value, 4);
    }

    method WriteUint64(value: uint64)
      modifies this
      ensures buffer == old(buffer) + EncodeUint64(value)
    {
      WriteNumber(value, 8);
    }

    method WriteText(value: Text)
      modifies this
      ensures buffer == old(buffer) + EncodeText(value)
    {
      WriteNumber(Width(value), 8);
      buffer := buffer + value;
    }
  }
}
