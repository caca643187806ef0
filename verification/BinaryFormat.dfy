/**
 CAF's binary wire format as functions on byte sequences: big-endian integers, varbyte sizes, packed
 bools, length-prefixed strings and the headers of optional and variant fields.

 Sizes are cast to 32 bits before they are written, so the functions encode the size modulo 2^32.
 */
module BinaryFormat {
  import opened Basics

  type byte = x: int | 0 <= x < 256

  const TWO_32: nat := 0x1_0000_0000

  datatype Decoded<+T> =
    | Ok(value: T, rest: seq<byte>)
    | EndOfStream
    | InvalidFieldType
    | Undefined  // a shift by at least the width of the type, undefined behavior in C++

  // -- Types and values --------------------------------------------------------------------

  datatype Width = W8 | W16 | W32 | W64

  datatype Type =
    | Bool | Unsigned(width: Width) | Signed(width: Width)
    | String8 | String16 | String32 | Bits
    | OptionalField                   // begin_field(name, is_present)
    | VariantField(types: nat)        // begin_field(name, types, index)
    | OptionalVariant(types: nat)     // begin_field(name, is_present, types, index)

  datatype Value =
    | Flag(b: bool) | Number(x: int) | Text(chars: seq<int>) | BitVector(bits: seq<bool>)
    | Index(i: nat) | Absent

  function Size(w: Width): (k: nat) {
    match w case W8 => 1 case W16 => 2 case W32 => 4 case W64 => 8
  }

  function Modulus(w: Width): (m: nat)
    ensures m > 1
  {
    match w case W8 => 0x100 case W16 => 0x1_0000 case W32 => TWO_32 case W64 => 0x1_0000_0000_0000_0000
  }

  /** The integer that carries an index into n types; -1 stands for an absent value. */
  function IndexWidth(n: nat): (w: Width) {
    if n < 0x7f then W8 else if n < 0x7fff then W16 else if n < 0x7fff_ffff then W32 else W64
  }

  function CharWidth(t: Type): (w: Width) {
    if t == String8 then W8 else if t == String16 then W16 else W32
  }

  predicate HasType(v: Value, t: Type) {
    match t
    case Bool => v.Flag?
    case OptionalField => v.Flag?
    case Unsigned(w) => v.Number? && 0 <= v.x < Modulus(w)
    case Signed(w) => v.Number? && -(Modulus(w) / 2) <= v.x < Modulus(w) / 2
    case Bits => v.BitVector?
    case VariantField(n) => v.Index? && v.i < n <= 0x7fff_ffff_ffff_ffff
    case OptionalVariant(n) => n <= 0x7fff_ffff_ffff_ffff && (v.Absent? || (v.Index? && v.i < n))
    case _ => v.Text? && forall k :: 0 <= k < |v.chars| ==> 0 <= v.chars[k] < Modulus(CharWidth(t))
  }

  /** The size that is cast to 32 bits. */
  function SizeOf(v: Value): (n: nat) {
    match v case Text(chars) => |chars| case BitVector(bits) => |bits| case _ => 0
  }

  // -- Integers ------------------------------------------------------------------------------

  function BigEndian(k: nat, x: nat): (r: seq<byte>)
    ensures |r| == k
  {
    if k == 0 then [] else BigEndian(k - 1, x / 256) + [x % 256]
  }

  function FromBigEndian(bytes: seq<byte>): (x: nat) {
    if bytes == [] then 0 else 256 * FromBigEndian(bytes[..|bytes| - 1]) + bytes[|bytes| - 1]
  }

  /** memcpy from the read position, after the range check. */
  function Take(n: nat, bytes: seq<byte>): (r: Decoded<seq<byte>>) {
    if n <= |bytes| then Ok(bytes[..n], bytes[n..]) else EndOfStream
  }

  /** Two's complement: the cast to the unsigned type and back. */
  function Wrap(w: Width, x: int): (u: nat) {
    x % Modulus(w)
  }

  function Unwrap(w: Width, u: nat): (x: int) {
    if u >= Modulus(w) / 2 then u - Modulus(w) else u
  }

  function EncodeInt(w: Width, x: int): (r: seq<byte>)
    ensures |r| == Size(w)
  {
    BigEndian(Size(w), Wrap(w, x))
  }

  function DecodeUnsigned(w: Width, bytes: seq<byte>): (r: Decoded<nat>) {
    match Take(Size(w), bytes)
    case Ok(b, rest) => Ok(FromBigEndian(b), rest)
    case _ => EndOfStream
  }

  // -- Varbyte sizes ---------------------------------------------------------------------------

  function EncodeSize(x: nat): (r: seq<byte>)
    ensures r != []
  {
    if x > 0x7f then [x % 128 + 128] + EncodeSize(x / 128) else [x]
  }

  /** x shifted left by 7 * n bits. */
  function Shifted(x: nat, n: nat): (p: nat) {
    if n == 0 then x else 128 * Shifted(x, n - 1)
  }

  /**
   The loop of begin_sequence in round n. The accumulator is below 128^n, so adding the shifted bits
   is the bitwise or; the shift drops what exceeds 32 bits and is undefined from n = 5 on.
   */
  function DecodeSizeFrom(bytes: seq<byte>, n: nat, acc: nat): (r: Decoded<nat>)
    decreases |bytes|
  {
    if bytes == [] then EndOfStream
    else if n >= 5 then Undefined
    else
      var acc' := acc + Shifted(bytes[0] % 128, n) % TWO_32;
      if bytes[0] >= 128 then DecodeSizeFrom(bytes[1..], n + 1, acc') else Ok(acc', bytes[1..])
  }

  function DecodeSize(bytes: seq<byte>): (r: Decoded<nat>) {
    DecodeSizeFrom(bytes, 0, 0)
  }

  // -- Strings and bools --------------------------------------------------------------------------

  function EncodeChars(w: Width, chars: seq<int>): (r: seq<byte>) {
    if chars == [] then [] else EncodeChars(w, chars[..|chars| - 1]) + EncodeInt(w, chars[|chars| - 1])
  }

  /** n * sizeof(char) */
  function Bytes(w: Width, n: nat): (k: nat) {
    if n == 0 then 0 else Bytes(w, n - 1) + Size(w)
  }

  /** The loop of unchecked reads behind the range check. */
  function DecodeChars(w: Width, n: nat, bytes: seq<byte>): (r: seq<int>)
    requires |bytes| == Bytes(w, n)
    ensures |r| == n
  {
    if n == 0 then []
    else DecodeChars(w, n - 1, bytes[..Bytes(w, n - 1)]) + [FromBigEndian(bytes[Bytes(w, n - 1)..])]
  }

  /** Most significant bit first; a trailing block of k bools uses the k low bits. */
  function Pack(bits: seq<bool>): (x: nat) {
    if bits == [] then 0 else 2 * Pack(bits[..|bits| - 1]) + if bits[|bits| - 1] then 1 else 0
  }

  function Unpack(k: nat, x: nat): (bits: seq<bool>)
    ensures |bits| == k
  {
    if k == 0 then [] else Unpack(k - 1, x / 2) + [x % 2 == 1]
  }

  lemma {:induction false} PackBound(bits: seq<bool>)
    requires |bits| <= 8
    ensures Pack(bits) < 256
    ensures |bits| <= 7 ==> Pack(bits) < 128
    ensures |bits| <= 6 ==> Pack(bits) < 64
    ensures |bits| <= 5 ==> Pack(bits) < 32
    ensures |bits| <= 4 ==> Pack(bits) < 16
    ensures |bits| <= 3 ==> Pack(bits) < 8
    ensures |bits| <= 2 ==> Pack(bits) < 4
    ensures |bits| <= 1 ==> Pack(bits) < 2
  {
    if bits != [] {
      PackBound(bits[..|bits| - 1]);
    }
  }

  function PackByte(bits: seq<bool>): (x: byte)
    requires |bits| <= 8
    ensures x == Pack(bits)
  {
    PackBound(bits);
    Pack(bits)
  }

  /** How many of n remaining bools the next byte holds. */
  function Block(n: nat): (k: nat)
    ensures k <= n && k <= 8 && (n > 0 ==> k > 0)
  {
    if n < 8 then n else 8
  }

  function EncodeBits(bits: seq<bool>): (r: seq<byte>)
    decreases |bits|
  {
    if bits == [] then []
    else
      var k := Block(|bits|);
      [PackByte(bits[..k])] + EncodeBits(bits[k..])
  }

  function DecodeBits(n: nat, bytes: seq<byte>): (r: Decoded<seq<bool>>)
    decreases n
  {
    if n == 0 then Ok([], bytes)
    else if bytes == [] then EndOfStream
    else match DecodeBits(n - Block(n), bytes[1..])
      case Ok(bits, rest) => Ok(Unpack(Block(n), bytes[0]) + bits, rest)
      case _ => EndOfStream
  }

  // -- Values -----------------------------------------------------------------------------------------

  function Encode(t: Type, v: Value): (r: seq<byte>)
    requires HasType(v, t)
  {
    match t
    case Bool => [if v.b then 1 else 0]
    case OptionalField => [if v.b then 1 else 0]
    case Unsigned(w) => EncodeInt(w, v.x)
    case Signed(w) => EncodeInt(w, v.x)
    case Bits => EncodeSize(|v.bits| % TWO_32) + EncodeBits(v.bits)
    case VariantField(n) => EncodeInt(IndexWidth(n), v.i)
    case OptionalVariant(n) => EncodeInt(IndexWidth(n), if v.Absent? then -1 else v.i)
    case _ => EncodeSize(|v.chars| % TWO_32) + EncodeChars(CharWidth(t), v.chars)
  }

  /** n characters behind the size. */
  function DecodeBody(w: Width, n: nat, bytes: seq<byte>): (r: Decoded<Value>) {
    if Bytes(w, n) <= |bytes| then Ok(Text(DecodeChars(w, n, bytes[..Bytes(w, n)])), bytes[Bytes(w, n)..])
    else EndOfStream
  }

  function DecodeText(w: Width, bytes: seq<byte>): (r: Decoded<Value>) {
    match DecodeSize(bytes)
    case Ok(n, rest) => DecodeBody(w, n, rest)
    case EndOfStream => EndOfStream
    case _ => Undefined
  }

  function DecodeBitVector(bytes: seq<byte>): (r: Decoded<Value>) {
    match DecodeSize(bytes)
    case Ok(n, rest) =>
      (match DecodeBits(n, rest)
       case Ok(bits, rest') => Ok(BitVector(bits), rest')
       case _ => EndOfStream)
    case EndOfStream => EndOfStream
    case _ => Undefined
  }

  function DecodeIndex(n: nat, optional: bool, bytes: seq<byte>): (r: Decoded<Value>) {
    match DecodeUnsigned(IndexWidth(n), bytes)
    case Ok(u, rest) =>
      var i := Unwrap(IndexWidth(n), u);
      if optional && i < 0 then Ok(Absent, rest)
      else if i < 0 || i >= n then InvalidFieldType
      else Ok(Index(i), rest)
    case _ => EndOfStream
  }

  function Decode(t: Type, bytes: seq<byte>): (r: Decoded<Value>) {
    match t
    case Bool => if bytes == [] then EndOfStream else Ok(Flag(bytes[0] != 0), bytes[1..])
    case OptionalField => if bytes == [] then EndOfStream else Ok(Flag(bytes[0] != 0), bytes[1..])
    case Unsigned(w) =>
      (match DecodeUnsigned(w, bytes)
       case Ok(u, rest) => Ok(Number(u), rest)
       case _ => EndOfStream)
    case Signed(w) =>
      (match DecodeUnsigned(w, bytes)
       case Ok(u, rest) => Ok(Number(Unwrap(w, u)), rest)
       case _ => EndOfStream)
    case Bits => DecodeBitVector(bytes)
    case VariantField(n) => DecodeIndex(n, false, bytes)
    case OptionalVariant(n) => DecodeIndex(n, true, bytes)
    case _ => DecodeText(CharWidth(t), bytes)
  }

  // -- Sequences --------------------------------------------------------------------------------------

  lemma ConsTail<T>(x: T, s: seq<T>, rest: seq<T>)
    ensures [x] + s + rest != []
    ensures ([x] + s + rest)[0] == x && ([x] + s + rest)[1..] == s + rest
  {
  }

  lemma Fits(n: nat)
    ensures n % TWO_32 == n <==> n < TWO_32
  {
  }

  // -- Round trips of the parts ----------------------------------------------------------------------------

  function Pow256(k: nat): (p: nat)
    ensures p > 0
  {
    if k == 0 then 1 else 256 * Pow256(k - 1)
  }

  lemma SizePow(w: Width)
    ensures Pow256(Size(w)) == Modulus(w)
  {
    assert Pow256(1) == 0x100;
    assert Pow256(2) == 0x1_0000;
    assert Pow256(3) == 0x100_0000;
    assert Pow256(4) == TWO_32;
    assert Pow256(5) == 0x100_0000_0000;
    assert Pow256(6) == 0x1_0000_0000_0000;
    assert Pow256(7) == 0x100_0000_0000_0000;
  }

  lemma {:induction false} BigEndianRoundTrip(k: nat, x: nat)
    requires x < Pow256(k)
    ensures FromBigEndian(BigEndian(k, x)) == x
  {
    if k > 0 {
      BigEndianRoundTrip(k - 1, x / 256);
      var b := BigEndian(k, x);
      assert b[..|b| - 1] == BigEndian(k - 1, x / 256);
    }
  }

  lemma IntRoundTrip(w: Width, x: int, rest: seq<byte>)
    ensures DecodeUnsigned(w, EncodeInt(w, x) + rest) == Ok(Wrap(w, x), rest)
  {
    var b := EncodeInt(w, x);
    assert (b + rest)[..Size(w)] == b && (b + rest)[Size(w)..] == rest;
    SizePow(w);
    BigEndianRoundTrip(Size(w), Wrap(w, x));
  }

  lemma UnwrapWrap(w: Width, x: int)
    requires -(Modulus(w) / 2) <= x < Modulus(w) / 2
    ensures Unwrap(w, Wrap(w, x)) == x
  {
    if x < 0 {
      assert x + Modulus(w) == Wrap(w, x);
    }
  }

  lemma {:induction false} ShiftedSum(high: nat, low: nat, n: nat)
    ensures Shifted(128 * high + low, n) == Shifted(high, n + 1) + Shifted(low, n)
  {
    if n > 0 {
      ShiftedSum(high, low, n - 1);
    }
  }

  lemma {:induction false} ShiftedGrows(x: nat, y: nat, n: nat)
    requires x <= y
    ensures Shifted(x, n) <= Shifted(y, n)
  {
    if n > 0 {
      ShiftedGrows(x, y, n - 1);
    }
  }

  /** A sixth group needs a value of at least 2^35. */
  lemma ShiftedLimit(high: nat, n: nat)
    requires n <= 4 && high > 0 && Shifted(high, n + 1) < TWO_32
    ensures n < 4
  {
    ShiftedGrows(1, high, n + 1);
    assert Shifted(1, 1) == 128 && Shifted(1, 2) == 0x4000 && Shifted(1, 3) == 0x20_0000;
    assert Shifted(1, 4) == 0x1000_0000 && Shifted(1, 5) == 0x8_0000_0000;
  }

  lemma DecodeSizeCons(b: byte, tail: seq<byte>, n: nat, acc: nat)
    requires n <= 4
    ensures var acc' := acc + Shifted(b % 128, n) % TWO_32;
            DecodeSizeFrom([b] + tail, n, acc) == if b >= 128 then DecodeSizeFrom(tail, n + 1, acc') else Ok(acc', tail)
  {
    assert ([b] + tail)[1..] == tail;
  }

  lemma SizeStep(low: nat, high: nat, tail: seq<byte>, n: nat, acc: nat, rest: seq<byte>)
    requires low < 128 && n <= 4 && Shifted(low, n) < TWO_32
    requires DecodeSizeFrom(tail + rest, n + 1, acc + Shifted(low, n)) ==
               Ok(acc + Shifted(low, n) + Shifted(high, n + 1), rest)
    ensures DecodeSizeFrom([low + 128] + tail + rest, n, acc) == Ok(acc + Shifted(128 * high + low, n), rest)
  {
    Assoc([low + 128], tail, rest);
    DecodeSizeCons(low + 128, tail + rest, n, acc);
    ShiftedSum(high, low, n);
  }

  lemma {:induction false} SizeRoundTripFrom(x: nat, n: nat, acc: nat, rest: seq<byte>)
    requires n <= 4 && acc + Shifted(x, n) < TWO_32
    ensures DecodeSizeFrom(EncodeSize(x) + rest, n, acc) == Ok(acc + Shifted(x, n), rest)
    decreases x
  {
    if x > 0x7f {
      var low, high := x % 128, x / 128;
      ShiftedSum(high, low, n);
      ShiftedLimit(high, n);
      SizeRoundTripFrom(high, n + 1, acc + Shifted(low, n), rest);
      SizeStep(low, high, EncodeSize(high), n, acc, rest);
    } else {
      DecodeSizeCons(x, rest, n, acc);
    }
  }

  lemma SizeRoundTrip(x: nat, rest: seq<byte>)
    requires x < TWO_32
    ensures DecodeSize(EncodeSize(x) + rest) == Ok(x, rest)
  {
    SizeRoundTripFrom(x, 0, 0, rest);
  }

  lemma DecodeSnoc(w: Width, n: nat, bytes: seq<byte>, last: seq<byte>)
    requires |bytes| == Bytes(w, n) && |last| == Size(w)
    ensures |bytes + last| == Bytes(w, n + 1)
    ensures DecodeChars(w, n + 1, bytes + last) == DecodeChars(w, n, bytes) + [FromBigEndian(last)]
  {
    assert Bytes(w, n + 1) == Bytes(w, n) + Size(w);
    var all := bytes + last;
    assert all[..|bytes|] == bytes && all[|bytes|..] == last;
  }

  lemma WrapSmall(w: Width, x: int)
    requires 0 <= x < Modulus(w)
    ensures Wrap(w, x) == x
  {
    match w
    case W8 =>
    case W16 =>
    case W32 =>
    case W64 =>
  }

  lemma CharRoundTrip(w: Width, c: int)
    requires 0 <= c < Modulus(w)
    ensures FromBigEndian(EncodeInt(w, c)) == c
  {
    SizePow(w);
    WrapSmall(w, c);
    BigEndianRoundTrip(Size(w), c);
  }

  lemma CharsStep(w: Width, front: seq<int>, bytes: seq<byte>, last: int, lastBytes: seq<byte>)
    requires |bytes| == Bytes(w, |front|) && DecodeChars(w, |front|, bytes) == front
    requires |lastBytes| == Size(w) && FromBigEndian(lastBytes) == last
    ensures |bytes + lastBytes| == Bytes(w, |front + [last]|)
    ensures DecodeChars(w, |front + [last]|, bytes + lastBytes) == front + [last]
  {
    DecodeSnoc(w, |front|, bytes, lastBytes);
  }

  lemma {:induction false} CharsRoundTrip(w: Width, chars: seq<int>)
    requires forall k :: 0 <= k < |chars| ==> 0 <= chars[k] < Modulus(w)
    ensures |EncodeChars(w, chars)| == Bytes(w, |chars|)
    ensures DecodeChars(w, |chars|, EncodeChars(w, chars)) == chars
  {
    if chars != [] {
      var front, last := chars[..|chars| - 1], chars[|chars| - 1];
      CharsRoundTrip(w, front);
      CharRoundTrip(w, last);
      CharsStep(w, front, EncodeChars(w, front), last, EncodeInt(w, last));
      assert front + [last] == chars;
    }
  }

  lemma {:induction false} PackRoundTrip(bits: seq<bool>)
    ensures Unpack(|bits|, Pack(bits)) == bits
  {
    if bits != [] {
      PackRoundTrip(bits[..|bits| - 1]);
    }
  }

  lemma {:induction false} BitsRoundTrip(bits: seq<bool>, rest: seq<byte>)
    ensures DecodeBits(|bits|, EncodeBits(bits) + rest) == Ok(bits, rest)
    decreases |bits|
  {
    if bits == [] {
      assert EncodeBits(bits) + rest == rest;
    } else {
      var k := Block(|bits|);
      var block, more := bits[..k], bits[k..];
      PackRoundTrip(block);
      BitsRoundTrip(more, rest);
      ConsTail(PackByte(block), EncodeBits(more), rest);
      assert block + more == bits;
    }
  }

  // -- Sizes are unsigned LEB128 (section 7.6 of the DWARF 5 standard) ---------------------------------

  /** Little-endian groups of seven bits; the high bit of a byte says that another byte follows. */
  ghost predicate IsLeb128(bytes: seq<byte>, x: nat) {
    && bytes != [] && bytes[|bytes| - 1] < 128
    && (forall i :: 0 <= i < |bytes| - 1 ==> bytes[i] >= 128)
    && LebValue(bytes) == x
  }

  function LebValue(bytes: seq<byte>): (x: nat) {
    if bytes == [] then 0 else bytes[0] % 128 + 128 * LebValue(bytes[1..])
  }

  lemma LebCons(low: nat, high: nat, tail: seq<byte>)
    requires low < 128 && IsLeb128(tail, high)
    ensures IsLeb128([low + 128] + tail, 128 * high + low)
  {
    var b := [low + 128] + tail;
    assert b[1..] == tail;
    assert forall i :: 1 <= i < |b| ==> b[i] == tail[i - 1];
  }

  lemma {:induction false} SizeIsLeb128(x: nat)
    ensures IsLeb128(EncodeSize(x), x)
  {
    if x > 0x7f {
      SizeIsLeb128(x / 128);
      LebCons(x % 128, x / 128, EncodeSize(x / 128));
    }
  }

  /** The encoding is the shortest one: at most n bytes exactly if n groups of seven bits suffice. */
  lemma {:induction false} SizeLength(x: nat, n: nat)
    requires n > 0
    ensures |EncodeSize(x)| <= n <==> x < Shifted(1, n)
  {
    assert Shifted(1, n) == 128 * Shifted(1, n - 1);
    if x > 0x7f {
      if n > 1 {
        SizeLength(x / 128, n - 1);
      }
    } else {
      ShiftedPositive(n - 1);
    }
  }

  lemma {:induction false} ShiftedPositive(n: nat)
    ensures Shifted(1, n) > 0
  {
    if n > 0 {
      ShiftedPositive(n - 1);
    }
  }

  lemma SizeTakesFiveBytes(x: nat)
    requires x < TWO_32
    ensures |EncodeSize(x)| <= 5
  {
    assert Shifted(1, 1) == 128 && Shifted(1, 2) == 0x4000 && Shifted(1, 3) == 0x20_0000;
    assert Shifted(1, 4) == 0x1000_0000 && Shifted(1, 5) == 0x8_0000_0000;
    SizeLength(x, 5);
  }

  // -- Round trip of a value ---------------------------------------------------------------------------

  lemma TextDecodes(w: Width, n: nat, body: seq<byte>, rest: seq<byte>)
    requires n < TWO_32
    ensures var r := DecodeText(w, EncodeSize(n) + (body + rest));
            && (r.Ok? ==> r.value.Text? && |r.value.chars| == n)
            && (|body| == Bytes(w, n) ==> r == Ok(Text(DecodeChars(w, n, body)), rest))
  {
    SizeRoundTrip(n, body + rest);
    if |body| == Bytes(w, n) {
      assert (body + rest)[..|body|] == body && (body + rest)[|body|..] == rest;
    }
  }

  lemma TextFits(w: Width, n: nat, chars: seq<int>, rest: seq<byte>)
    requires forall k :: 0 <= k < |chars| ==> 0 <= chars[k] < Modulus(w)
    requires n == |chars| < TWO_32
    ensures DecodeText(w, EncodeSize(n) + (EncodeChars(w, chars) + rest)) == Ok(Text(chars), rest)
  {
    CharsRoundTrip(w, chars);
    TextDecodes(w, n, EncodeChars(w, chars), rest);
  }

  lemma TextTruncated(w: Width, n: nat, chars: seq<int>, rest: seq<byte>)
    requires n < TWO_32 && n != |chars|
    ensures DecodeText(w, EncodeSize(n) + (EncodeChars(w, chars) + rest)) != Ok(Text(chars), rest)
  {
    TextDecodes(w, n, EncodeChars(w, chars), rest);
  }

  lemma TextRoundTrip(w: Width, chars: seq<int>, rest: seq<byte>)
    requires forall k :: 0 <= k < |chars| ==> 0 <= chars[k] < Modulus(w)
    ensures |chars| < TWO_32 <==>
            DecodeText(w, EncodeSize(|chars| % TWO_32) + EncodeChars(w, chars) + rest) == Ok(Text(chars), rest)
  {
    var n := |chars| % TWO_32;
    Assoc(EncodeSize(n), EncodeChars(w, chars), rest);
    if |chars| < TWO_32 {
      TextFits(w, n, chars, rest);
    } else {
      TextTruncated(w, n, chars, rest);
    }
  }

  lemma BitVectorDecodes(n: nat, bits: seq<bool>, rest: seq<byte>)
    requires n < TWO_32
    ensures n == |bits| <==> DecodeBitVector(EncodeSize(n) + (EncodeBits(bits) + rest)) == Ok(BitVector(bits), rest)
  {
    SizeRoundTrip(n, EncodeBits(bits) + rest);
    if n == |bits| {
      BitsRoundTrip(bits, rest);
    } else {
      BitsLength(n, EncodeBits(bits) + rest);
    }
  }

  lemma BitVectorRoundTrip(bits: seq<bool>, rest: seq<byte>)
    ensures |bits| < TWO_32 <==>
            DecodeBitVector(EncodeSize(|bits| % TWO_32) + EncodeBits(bits) + rest) == Ok(BitVector(bits), rest)
  {
    var n := |bits| % TWO_32;
    Fits(|bits|);
    Assoc(EncodeSize(n), EncodeBits(bits), rest);
    BitVectorDecodes(n, bits, rest);
  }

  lemma {:induction false} BitsLength(n: nat, bytes: seq<byte>)
    ensures DecodeBits(n, bytes).Ok? ==> |DecodeBits(n, bytes).value| == n
    decreases n
  {
    if n > 0 && bytes != [] {
      BitsLength(n - Block(n), bytes[1..]);
    }
  }

  lemma IndexRoundTrip(n: nat, optional: bool, v: Value, rest: seq<byte>)
    requires HasType(v, if optional then OptionalVariant(n) else VariantField(n))
    ensures DecodeIndex(n, optional, EncodeInt(IndexWidth(n), if v.Absent? then -1 else v.i) + rest) == Ok(v, rest)
  {
    var x := if v.Absent? then -1 else v.i;
    IntRoundTrip(IndexWidth(n), x, rest);
    UnwrapWrap(IndexWidth(n), x);
  }

  lemma ScalarRoundTrip(t: Type, v: Value, rest: seq<byte>)
    requires HasType(v, t) && (t.Bool? || t.OptionalField? || t.Unsigned? || t.Signed?)
    ensures Decode(t, Encode(t, v) + rest) == Ok(v, rest)
  {
    match t
    case Bool => assert (Encode(t, v) + rest)[1..] == rest;
    case OptionalField => assert (Encode(t, v) + rest)[1..] == rest;
    case Unsigned(w) =>
      IntRoundTrip(w, v.x, rest);
      WrapSmall(w, v.x);
    case Signed(w) =>
      IntRoundTrip(w, v.x, rest);
      UnwrapWrap(w, v.x);
  }

  /** Decoding an encoded value gives it back and leaves the rest, exactly if its size fits 32 bits. */
  lemma RoundTrip(t: Type, v: Value, rest: seq<byte>)
    requires HasType(v, t)
    ensures Decode(t, Encode(t, v) + rest) == Ok(v, rest) <==> SizeOf(v) < TWO_32
  {
    match t
    case Bits => BitVectorRoundTrip(v.bits, rest);
    case VariantField(n) => IndexRoundTrip(n, false, v, rest);
    case OptionalVariant(n) => IndexRoundTrip(n, true, v, rest);
    case String8 => TextRoundTrip(W8, v.chars, rest);
    case String16 => TextRoundTrip(W16, v.chars, rest);
    case String32 => TextRoundTrip(W32, v.chars, rest);
    case _ => ScalarRoundTrip(t, v, rest);
  }

  // -- Sequences of values ------------------------------------------------------------------------------

  ghost predicate HaveTypes(ts: seq<Type>, vs: seq<Value>) {
    |ts| == |vs| && forall i :: 0 <= i < |ts| ==> HasType(vs[i], ts[i])
  }

  ghost function EncodeAll(ts: seq<Type>, vs: seq<Value>): (r: seq<byte>)
    requires HaveTypes(ts, vs)
  {
    if ts == [] then [] else Encode(ts[0], vs[0]) + EncodeAll(ts[1..], vs[1..])
  }

  function DecodeAll(ts: seq<Type>, bytes: seq<byte>): (r: Decoded<seq<Value>>) {
    if ts == [] then Ok([], bytes)
    else match Decode(ts[0], bytes)
      case Ok(v, rest) =>
        (match DecodeAll(ts[1..], rest)
         case Ok(vs, rest') => Ok([v] + vs, rest')
         case EndOfStream => EndOfStream
         case InvalidFieldType => InvalidFieldType
         case Undefined => Undefined)
      case EndOfStream => EndOfStream
      case InvalidFieldType => InvalidFieldType
      case Undefined => Undefined
  }

  /** A size that was cut off makes another value of what follows, if it makes one at all. */
  lemma TruncatedDiffers(t: Type, v: Value, rest: seq<byte>)
    requires HasType(v, t) && SizeOf(v) >= TWO_32
    ensures var r := Decode(t, Encode(t, v) + rest); r.Ok? ==> r.value != v
  {
    if t == Bits {
      var n := |v.bits| % TWO_32;
      Assoc(EncodeSize(n), EncodeBits(v.bits), rest);
      SizeRoundTrip(n, EncodeBits(v.bits) + rest);
      BitsLength(n, EncodeBits(v.bits) + rest);
    } else {
      var n, w := |v.chars| % TWO_32, CharWidth(t);
      Assoc(EncodeSize(n), EncodeChars(w, v.chars), rest);
      TextDecodes(w, n, EncodeChars(w, v.chars), rest);
    }
  }

  ghost predicate AllFit(vs: seq<Value>) {
    forall i :: 0 <= i < |vs| ==> SizeOf(vs[i]) < TWO_32
  }

  lemma DecodeAllCons(ts: seq<Type>, v: Value, bytes: seq<byte>, tail: seq<byte>)
    requires ts != [] && Decode(ts[0], bytes) == Ok(v, tail)
    ensures match DecodeAll(ts[1..], tail)
            case Ok(vs, rest) => DecodeAll(ts, bytes) == Ok([v] + vs, rest)
            case _ => !DecodeAll(ts, bytes).Ok?
  {
  }

  /** Decoding an encoded sequence gives it back and leaves the rest, exactly if all sizes fit 32 bits. */
  lemma {:induction false} RoundTripAll(ts: seq<Type>, vs: seq<Value>, rest: seq<byte>)
    requires HaveTypes(ts, vs)
    ensures DecodeAll(ts, EncodeAll(ts, vs) + rest) == Ok(vs, rest) <==> AllFit(vs)
  {
    if ts == [] {
      assert EncodeAll(ts, vs) + rest == rest;
    } else {
      var tail := EncodeAll(ts[1..], vs[1..]);
      Assoc(Encode(ts[0], vs[0]), tail, rest);
      assert [vs[0]] + vs[1..] == vs;
      if SizeOf(vs[0]) < TWO_32 {
        RoundTrip(ts[0], vs[0], tail + rest);
        RoundTripAll(ts[1..], vs[1..], rest);
        DecodeAllCons(ts, vs[0], EncodeAll(ts, vs) + rest, tail + rest);
        assert AllFit(vs) <==> AllFit(vs[1..]);
      } else {
        TruncatedDiffers(ts[0], vs[0], tail + rest);
      }
    }
  }

  // -- A decoder sees only what it reads ---------------------------------------------------------------------

  lemma {:induction false} SizeExtends(bytes: seq<byte>, n: nat, acc: nat, more: seq<byte>)
    requires DecodeSizeFrom(bytes, n, acc).Ok?
    ensures DecodeSizeFrom(bytes + more, n, acc) ==
              Ok(DecodeSizeFrom(bytes, n, acc).value, DecodeSizeFrom(bytes, n, acc).rest + more)
    decreases |bytes|
  {
    assert (bytes + more)[1..] == bytes[1..] + more;
    if bytes[0] >= 128 {
      SizeExtends(bytes[1..], n + 1, acc + Shifted(bytes[0] % 128, n) % TWO_32, more);
    }
  }

  /** The reader runs into the undefined shift exactly on six bytes of which the first five continue. */
  lemma {:induction false} SizeUndefinedIff(bytes: seq<byte>, n: nat, acc: nat)
    requires n <= 5
    ensures DecodeSizeFrom(bytes, n, acc) == Undefined <==>
            |bytes| > 5 - n && forall i :: 0 <= i < 5 - n ==> bytes[i] >= 128
    decreases |bytes|
  {
    if bytes != [] && n < 5 && bytes[0] >= 128 {
      SizeUndefinedIff(bytes[1..], n + 1, acc + Shifted(bytes[0] % 128, n) % TWO_32);
      assert forall i :: 0 <= i < |bytes| - 1 ==> bytes[1..][i] == bytes[i + 1];
      assert forall i :: 1 <= i < |bytes| ==> bytes[i] == bytes[1..][i - 1];
    }
  }

  lemma {:induction false} BitsExtend(n: nat, bytes: seq<byte>, more: seq<byte>)
    requires DecodeBits(n, bytes).Ok?
    ensures DecodeBits(n, bytes + more) == Ok(DecodeBits(n, bytes).value, DecodeBits(n, bytes).rest + more)
    decreases n
  {
    if n > 0 {
      assert (bytes + more)[1..] == bytes[1..] + more;
      BitsExtend(n - Block(n), bytes[1..], more);
    }
  }

  lemma TakeExtends(n: nat, bytes: seq<byte>, more: seq<byte>)
    requires n <= |bytes|
    ensures (bytes + more)[..n] == bytes[..n] && (bytes + more)[n..] == bytes[n..] + more
  {
  }

  /** A successful decode is unchanged by bytes behind it. */
  lemma DecodeExtends(t: Type, bytes: seq<byte>, more: seq<byte>)
    requires Decode(t, bytes).Ok?
    ensures Decode(t, bytes + more) == Ok(Decode(t, bytes).value, Decode(t, bytes).rest + more)
  {
    match t
    case Bool => TakeExtends(1, bytes, more);
    case OptionalField => TakeExtends(1, bytes, more);
    case Unsigned(w) => TakeExtends(Size(w), bytes, more);
    case Signed(w) => TakeExtends(Size(w), bytes, more);
    case VariantField(n) => TakeExtends(Size(IndexWidth(n)), bytes, more);
    case OptionalVariant(n) => TakeExtends(Size(IndexWidth(n)), bytes, more);
    case Bits =>
      SizeExtends(bytes, 0, 0, more);
      BitsExtend(DecodeSize(bytes).value, DecodeSize(bytes).rest, more);
    case _ =>
      SizeExtends(bytes, 0, 0, more);
      TakeExtends(Bytes(CharWidth(t), DecodeSize(bytes).value), DecodeSize(bytes).rest, more);
  }

  lemma {:induction false} DecodeAllExtends(ts: seq<Type>, bytes: seq<byte>, more: seq<byte>)
    requires DecodeAll(ts, bytes).Ok?
    ensures DecodeAll(ts, bytes + more) == Ok(DecodeAll(ts, bytes).value, DecodeAll(ts, bytes).rest + more)
  {
    if ts != [] {
      DecodeExtends(ts[0], bytes, more);
      DecodeAllExtends(ts[1..], Decode(ts[0], bytes).rest, more);
    }
  }

  lemma NoPrefixDecodes(ts: seq<Type>, bytes: seq<byte>, n: nat)
    requires DecodeAll(ts, bytes).Ok? && DecodeAll(ts, bytes).rest == [] && n < |bytes|
    ensures !DecodeAll(ts, bytes[..n]).Ok?
  {
    assert bytes[..n] + bytes[n..] == bytes;
    if DecodeAll(ts, bytes[..n]).Ok? {
      DecodeAllExtends(ts, bytes[..n], bytes[n..]);
    }
  }

  lemma {:induction false} SizePrefix(bytes: seq<byte>, n: nat, acc: nat, more: seq<byte>)
    requires DecodeSizeFrom(bytes + more, n, acc).Ok?
    ensures DecodeSizeFrom(bytes, n, acc).Ok? || DecodeSizeFrom(bytes, n, acc) == EndOfStream
    decreases |bytes|
  {
    if bytes != [] {
      assert (bytes + more)[0] == bytes[0] && (bytes + more)[1..] == bytes[1..] + more;
      if bytes[0] >= 128 {
        SizePrefix(bytes[1..], n + 1, acc + Shifted(bytes[0] % 128, n) % TWO_32, more);
      }
    }
  }

  lemma IndexPrefix(n: nat, optional: bool, bytes: seq<byte>, more: seq<byte>)
    requires DecodeIndex(n, optional, bytes + more).Ok?
    ensures DecodeIndex(n, optional, bytes).Ok? || DecodeIndex(n, optional, bytes) == EndOfStream
  {
    var k := Size(IndexWidth(n));
    if k <= |bytes| {
      TakeExtends(k, bytes, more);
    }
  }

  /** Where a longer input decodes, a shorter one decodes as well or ends too early. */
  lemma DecodePrefix(t: Type, bytes: seq<byte>, more: seq<byte>)
    requires Decode(t, bytes + more).Ok?
    ensures Decode(t, bytes).Ok? || Decode(t, bytes) == EndOfStream
  {
    match t
    case VariantField(n) => IndexPrefix(n, false, bytes, more);
    case OptionalVariant(n) => IndexPrefix(n, true, bytes, more);
    case Bool =>
    case OptionalField =>
    case Unsigned(_) =>
    case Signed(_) =>
    case _ => SizePrefix(bytes, 0, 0, more);
  }

  lemma {:induction false} DecodeAllPrefix(ts: seq<Type>, bytes: seq<byte>, more: seq<byte>)
    requires DecodeAll(ts, bytes + more).Ok?
    ensures DecodeAll(ts, bytes).Ok? || DecodeAll(ts, bytes) == EndOfStream
  {
    if ts != [] {
      DecodePrefix(ts[0], bytes, more);
      if Decode(ts[0], bytes).Ok? {
        DecodeExtends(ts[0], bytes, more);
        DecodeAllPrefix(ts[1..], Decode(ts[0], bytes).rest, more);
      }
    }
  }

  /** Decoding a strict prefix of an encoding always runs into the end of the stream. */
  lemma StrictPrefixFails(ts: seq<Type>, vs: seq<Value>, n: nat)
    requires HaveTypes(ts, vs) && AllFit(vs) && n < |EncodeAll(ts, vs)|
    ensures DecodeAll(ts, EncodeAll(ts, vs)[..n]) == EndOfStream
  {
    var all := EncodeAll(ts, vs);
    RoundTripAll(ts, vs, []);
    assert all + [] == all && all[..n] + all[n..] == all;
    NoPrefixDecodes(ts, all, n);
    DecodeAllPrefix(ts, all[..n], all[n..]);
  }
}
