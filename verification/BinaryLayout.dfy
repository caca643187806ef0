/**
 The wire format byte by byte: what each byte and bit of an encoding is, and what the decoders make of
 arbitrary bytes, in terms of division and remainder only.
 */
module BinaryLayout {
  import opened Basics
  import opened Arithmetic
  import opened BinaryFormat

  // -- Powers of two -------------------------------------------------------------------------

  function Pow2(n: nat): (p: nat)
    ensures p > 0
  {
    if n == 0 then 1 else 2 * Pow2(n - 1)
  }

  // -- Integers -----------------------------------------------------------------------------------

  /** Big-endian: the first byte is the most significant one. */
  lemma {:induction false} BigEndianByte(k: nat, x: nat, i: nat)
    requires i < k
    ensures BigEndian(k, x)[i] == x / Pow256(k - 1 - i) % 256
  {
    if i < k - 1 {
      BigEndianByte(k - 1, x / 256, i);
      DivDiv(x, 256, Pow256(k - 2 - i));
      assert Pow256(k - 1 - i) == 256 * Pow256(k - 2 - i);
    }
  }

  /** Reading big-endian bytes loses nothing. */
  lemma {:induction false} FromBigEndianInverse(bytes: seq<byte>)
    ensures BigEndian(|bytes|, FromBigEndian(bytes)) == bytes
  {
    if bytes != [] {
      var front := bytes[..|bytes| - 1];
      FromBigEndianInverse(front);
      DivUnique(FromBigEndian(bytes), 256, FromBigEndian(front), bytes[|bytes| - 1]);
    }
  }

  /** Integers take their width, and negative ones are in two's complement. */
  lemma IntegerBytes(w: Width, x: int, i: nat)
    requires -(Modulus(w) / 2) <= x < Modulus(w)
    requires i < |EncodeInt(w, x)|
    ensures |EncodeInt(w, x)| == match w case W8 => 1 case W16 => 2 case W32 => 4 case W64 => 8
    ensures Modulus(w) == match w
                          case W8 => 256 case W16 => 65536 case W32 => 4294967296 case W64 => 18446744073709551616
    ensures EncodeInt(w, x)[i] == (if x < 0 then x + Modulus(w) else x) / Pow256(|EncodeInt(w, x)| - 1 - i) % 256
  {
    BigEndianByte(Size(w), Wrap(w, x), i);
    match w
    case W8 => assert Wrap(w, x) == if x < 0 then x + 256 else x;
    case W16 => assert Wrap(w, x) == if x < 0 then x + 65536 else x;
    case W32 => assert Wrap(w, x) == if x < 0 then x + 4294967296 else x;
    case W64 => assert Wrap(w, x) == if x < 0 then x + 18446744073709551616 else x;
  }

  lemma BoolBytes(b: bool, first: byte, rest: seq<byte>)
    ensures Encode(Bool, Flag(b)) == Encode(OptionalField, Flag(b)) == [if b then 1 else 0]
    ensures Decode(Bool, [first] + rest) == Decode(OptionalField, [first] + rest) == Ok(Flag(first != 0), rest)
  {
    assert ([first] + rest)[1..] == rest;
  }

  // -- Field headers ---------------------------------------------------------------------------------

  /** How many bytes an index into n types takes. */
  lemma IndexBytes(n: nat, i: nat)
    requires i < n <= 0x7fff_ffff_ffff_ffff
    ensures |Encode(VariantField(n), Index(i))| == |Encode(OptionalVariant(n), Index(i))|
            == |Encode(OptionalVariant(n), Absent)|
            == if n < 127 then 1 else if n < 32767 then 2 else if n < 2147483647 then 4 else 8
  {
  }

  lemma {:induction false} AllOnes(k: nat, i: nat)
    requires i < k
    ensures BigEndian(k, Pow256(k) - 1)[i] == 255
  {
    DivUnique(Pow256(k) - 1, 256, Pow256(k - 1) - 1, 255);
    if i < k - 1 {
      AllOnes(k - 1, i);
    }
  }

  /** An absent value has all bits set; a present one looks as in a field that is not optional. */
  lemma AbsentBytes(n: nat, i: nat, j: nat)
    requires n <= 0x7fff_ffff_ffff_ffff
    ensures j < |Encode(OptionalVariant(n), Absent)| ==> Encode(OptionalVariant(n), Absent)[j] == 255
    ensures i < n ==> Encode(OptionalVariant(n), Index(i)) == Encode(VariantField(n), Index(i))
  {
    var w := IndexWidth(n);
    SizePow(w);
    if j < Size(w) {
      AllOnes(Size(w), j);
    }
    assert Wrap(w, -1) == Modulus(w) - 1;
  }

  /** What a header of arbitrary bytes means: the top bit is the sign. */
  lemma HeaderOutcome(n: nat, optional: bool, bytes: seq<byte>)
    ensures var k := if n < 127 then 1 else if n < 32767 then 2 else if n < 2147483647 then 4 else 8;
            var r := DecodeIndex(n, optional, bytes);
            if |bytes| < k then r == EndOfStream
            else
              var x, negative := FromBigEndian(bytes[..k]), bytes[0] >= 128;
              r == if negative then (if optional then Ok(Absent, bytes[k..]) else InvalidFieldType)
                   else if x < n then Ok(Index(x), bytes[k..])
                   else InvalidFieldType
  {
    var w := IndexWidth(n);
    if Size(w) <= |bytes| {
      SizePow(w);
      TopBit(bytes[..Size(w)]);
    }
  }

  lemma {:induction false} FromBigEndianBound(bytes: seq<byte>)
    ensures FromBigEndian(bytes) < Pow256(|bytes|)
  {
    if bytes != [] {
      FromBigEndianBound(bytes[..|bytes| - 1]);
    }
  }

  lemma {:induction false} TopBit(bytes: seq<byte>)
    requires bytes != []
    ensures bytes[0] >= 128 <==> 2 * FromBigEndian(bytes) >= Pow256(|bytes|)
    ensures FromBigEndian(bytes) < Pow256(|bytes|)
  {
    FromBigEndianBound(bytes);
    if |bytes| == 1 {
      assert bytes[..0] == [] && Pow256(1) == 256;
    } else {
      TopBit(bytes[..|bytes| - 1]);
      TopStep(FromBigEndian(bytes[..|bytes| - 1]), Pow256(|bytes| - 1), bytes[|bytes| - 1]);
    }
  }

  lemma TopStep(x: nat, p: nat, b: byte)
    requires p % 2 == 0
    ensures 2 * x >= p <==> 2 * (256 * x + b) >= 256 * p
  {
  }

  // -- Bools ----------------------------------------------------------------------------------------

  /** In a block, the first bool is the most significant bit of the used ones. */
  lemma {:induction false} PackBit(bits: seq<bool>, j: nat)
    requires j < |bits|
    ensures Pack(bits) / Pow2(|bits| - 1 - j) % 2 == 1 <==> bits[j]
  {
    var n := |bits| - 1;
    var front := bits[..n];
    if j < n {
      PackBit(front, j);
      DivDiv(Pack(bits), 2, Pow2(n - 1 - j));
      assert Pow2(n - j) == 2 * Pow2(n - 1 - j) && Pack(bits) / 2 == Pack(front);
    } else {
      assert Pow2(0) == 1;
    }
  }

  lemma {:induction false} PackLimit(bits: seq<bool>)
    ensures Pack(bits) < Pow2(|bits|)
  {
    if bits != [] {
      PackLimit(bits[..|bits| - 1]);
    }
  }

  /** The exponent of bool i of n: full blocks of eight come first, a trailing block uses its low bits. */
  function Exponent(n: nat, i: nat): (e: nat)
    requires i < n
  {
    if i / 8 < n / 8 then 7 - i % 8 else n % 8 - 1 - i % 8
  }

  lemma EncodeBitsStep(bits: seq<bool>)
    requires bits != []
    ensures var k := if |bits| < 8 then |bits| else 8;
            EncodeBits(bits) == [PackByte(bits[..k])] + EncodeBits(bits[k..])
  {
  }

  /** Eight bools take one byte, and each bool is its bit. */
  lemma {:induction false} EncodeBitsAt(bits: seq<bool>, i: nat)
    requires i < |bits|
    ensures |EncodeBits(bits)| == (|bits| + 7) / 8
    ensures EncodeBits(bits)[i / 8] / Pow2(Exponent(|bits|, i)) % 2 == 1 <==> bits[i]
    decreases |bits|
  {
    var k := if |bits| < 8 then |bits| else 8;
    EncodeBitsStep(bits);
    EncodeBitsLength(bits);
    ExponentStep(|bits|, i);
    if i < k {
      PackBit(bits[..k], i);
    } else {
      EncodeBitsAt(bits[8..], i - 8);
    }
  }

  lemma {:induction false} EncodeBitsLength(bits: seq<bool>)
    ensures |EncodeBits(bits)| == (|bits| + 7) / 8
    decreases |bits|
  {
    if bits != [] {
      EncodeBitsStep(bits);
      EncodeBitsLength(bits[if |bits| < 8 then |bits| else 8..]);
    }
  }

  /** The unused high bits of a trailing block are zero. */
  lemma {:induction false} TrailingBlock(bits: seq<bool>)
    requires |bits| % 8 != 0
    ensures |EncodeBits(bits)| == (|bits| + 7) / 8
    ensures EncodeBits(bits)[|bits| / 8] < Pow2(|bits| % 8)
    decreases |bits|
  {
    EncodeBitsStep(bits);
    EncodeBitsLength(bits);
    if |bits| < 8 {
      PackLimit(bits[..|bits|]);
    } else {
      TrailingBlock(bits[8..]);
      assert (|bits| - 8) / 8 == |bits| / 8 - 1 && (|bits| - 8) % 8 == |bits| % 8;
    }
  }

  lemma {:induction false} UnpackBit(k: nat, x: nat, j: nat)
    requires j < k
    ensures Unpack(k, x)[j] <==> x / Pow2(k - 1 - j) % 2 == 1
  {
    if j < k - 1 {
      UnpackBit(k - 1, x / 2, j);
      DivDiv(x, 2, Pow2(k - 2 - j));
      assert Pow2(k - 1 - j) == 2 * Pow2(k - 2 - j);
    } else {
      assert Pow2(0) == 1;
    }
  }

  /** Decoding bools from arbitrary bytes: enough bytes suffice, unused bits do not matter. */
  lemma {:induction false} DecodeBitsOutcome(n: nat, bytes: seq<byte>)
    ensures DecodeBits(n, bytes).Ok? <==> |bytes| >= (n + 7) / 8
    ensures DecodeBits(n, bytes).Ok? ==>
              |DecodeBits(n, bytes).value| == n && DecodeBits(n, bytes).rest == bytes[(n + 7) / 8..]
    decreases n
  {
    if n > 0 && bytes != [] {
      DecodeBitsOutcome(n - Block(n), bytes[1..]);
      var k := Block(n);
      assert k == if n < 8 then n else 8;
      assert (n - k + 7) / 8 == (n + 7) / 8 - 1;
    }
  }

  lemma DecodeBitsStep(n: nat, bytes: seq<byte>)
    requires n > 0 && |bytes| >= (n + 7) / 8
    ensures var k := if n < 8 then n else 8;
            && |bytes| > 0 && |bytes[1..]| >= (n - k + 7) / 8
            && DecodeBits(n, bytes).Ok? && DecodeBits(n - k, bytes[1..]).Ok?
            && DecodeBits(n, bytes).value == Unpack(k, bytes[0]) + DecodeBits(n - k, bytes[1..]).value
  {
    var k := if n < 8 then n else 8;
    assert Block(n) == k && (n - k + 7) / 8 == (n + 7) / 8 - 1;
    DecodeBitsOutcome(n, bytes);
    DecodeBitsOutcome(n - k, bytes[1..]);
  }

  lemma ExponentStep(n: nat, i: nat)
    requires i < n
    ensures i < 8 ==> i / 8 == 0 && Exponent(n, i) == (if n < 8 then n else 8) - 1 - i
    ensures i >= 8 ==> (i - 8) / 8 == i / 8 - 1 && Exponent(n - 8, i - 8) == Exponent(n, i)
  {
  }

  lemma {:induction false} DecodeBitsAt(n: nat, bytes: seq<byte>, i: nat)
    requires i < n && |bytes| >= (n + 7) / 8
    ensures DecodeBits(n, bytes).Ok? && |DecodeBits(n, bytes).value| == n
    ensures DecodeBits(n, bytes).value[i] <==> bytes[i / 8] / Pow2(Exponent(n, i)) % 2 == 1
    decreases n
  {
    DecodeBitsOutcome(n, bytes);
    DecodeBitsStep(n, bytes);
    ExponentStep(n, i);
    if i < 8 {
      UnpackBit(if n < 8 then n else 8, bytes[0], i);
    } else {
      DecodeBitsAt(n - 8, bytes[1..], i - 8);
    }
  }

  // -- Strings ----------------------------------------------------------------------------------------

  lemma {:induction false} BytesIs(w: Width, n: nat)
    ensures Bytes(w, n) == n * Size(w)
  {
    if n > 0 {
      BytesIs(w, n - 1);
      assert n * Size(w) == (n - 1) * Size(w) + Size(w);
    }
  }

  /** Behind the size, character i takes the bytes from i times the width on, as an integer. */
  lemma {:induction false} CharAt(w: Width, chars: seq<int>, i: nat)
    requires i < |chars|
    ensures |EncodeChars(w, chars)| == |chars| * Size(w) && i * Size(w) + Size(w) <= |chars| * Size(w)
    ensures EncodeChars(w, chars)[i * Size(w)..i * Size(w) + Size(w)] == EncodeInt(w, chars[i])
  {
    var n := |chars| - 1;
    var front := chars[..n];
    CharsLength(w, chars);
    CharsLength(w, front);
    MulLe(i, n, Size(w));
    var from, k := i * Size(w), Size(w);
    if i < n {
      CharAt(w, front, i);
      SliceOfSum(EncodeChars(w, front), EncodeInt(w, chars[n]), from, from + k);
    } else {
      SliceOfSum(EncodeChars(w, front), EncodeInt(w, chars[n]), from, from);
    }
  }

  lemma SliceOfSum(a: seq<byte>, b: seq<byte>, from: nat, to: nat)
    requires from <= to <= |a|
    ensures (a + b)[from..to] == a[from..to] && (a + b)[|a|..|a| + |b|] == b
  {
  }

  lemma {:induction false} CharsLength(w: Width, chars: seq<int>)
    ensures |EncodeChars(w, chars)| == |chars| * Size(w)
  {
    if chars != [] {
      CharsLength(w, chars[..|chars| - 1]);
      assert |chars| * Size(w) == (|chars| - 1) * Size(w) + Size(w);
    }
  }

  lemma MulLe(i: nat, n: nat, k: nat)
    requires i <= n
    ensures i * k <= n * k && (n + 1) * k == n * k + k && (i < n ==> i * k + k <= n * k)
  {
    if i < n {
      MulStep(k, i, n);
    }
  }

  lemma TextBytes(t: Type, v: Value)
    requires HasType(v, t) && (t == String8 || t == String16 || t == String32)
    ensures Encode(t, v) == EncodeSize(|v.chars| % TWO_32) +
              EncodeChars(if t == String8 then W8 else if t == String16 then W16 else W32, v.chars)
  {
  }

  /** Decoding characters from arbitrary bytes. */
  lemma {:induction false} DecodeCharsAt(w: Width, n: nat, bytes: seq<byte>, i: nat)
    requires |bytes| == Bytes(w, n) && i < n
    ensures i * Size(w) + Size(w) <= |bytes|
    ensures DecodeChars(w, n, bytes)[i] == FromBigEndian(bytes[i * Size(w)..i * Size(w) + Size(w)])
  {
    BytesIs(w, n);
    BytesIs(w, n - 1);
    MulLe(i, n - 1, Size(w));
    if i < n - 1 {
      var front := bytes[..Bytes(w, n - 1)];
      DecodeCharsAt(w, n - 1, front, i);
      assert front[i * Size(w)..i * Size(w) + Size(w)] == bytes[i * Size(w)..i * Size(w) + Size(w)];
    } else {
      assert bytes[Bytes(w, n - 1)..] == bytes[i * Size(w)..i * Size(w) + Size(w)];
    }
  }

  // -- Sizes from arbitrary bytes --------------------------------------------------------------------------

  /** The bytes of a size: all but the last have the continuation bit. */
  ghost predicate IsGroup(bytes: seq<byte>, k: nat) {
    0 < k <= |bytes| && bytes[k - 1] < 128 && forall i :: 0 <= i < k - 1 ==> bytes[i] >= 128
  }

  lemma ShiftedSmall(low: nat, n: nat)
    requires low < 128 && n <= 4
    ensures n < 4 ==> Shifted(low, n) < TWO_32
    ensures Shifted(low, n) == low * match n case 0 => 1 case 1 => 0x80 case 2 => 0x4000 case 3 => 0x20_0000 case 4 => 0x1000_0000
    ensures Shifted(1, 1) == 0x80 && Shifted(1, 2) == 0x4000 && Shifted(1, 3) == 0x20_0000 && Shifted(1, 4) == 0x1000_0000
    ensures n < 4 ==> Shifted(1, n + 1) == 128 * Shifted(1, n)
  {
    assert Shifted(low, 1) == 128 * low;
    assert Shifted(low, 2) == 128 * Shifted(low, 1);
    assert Shifted(low, 3) == 128 * Shifted(low, 2);
    assert Shifted(low, 4) == 128 * Shifted(low, 3);
  }

  /** Adding a group does not disturb the lower ones; only the fifth group can exceed 32 bits. */
  lemma AddGroup(acc: nat, low: nat, n: nat)
    requires acc < Shifted(1, n) && low < 128 && n <= 4
    ensures acc + Shifted(low, n) % TWO_32 == (acc + Shifted(low, n)) % TWO_32
    ensures n < 4 ==> Shifted(low, n) < TWO_32 && acc + Shifted(low, n) < Shifted(1, n + 1)
  {
    ShiftedSmall(low, n);
    if n == 4 {
      assert low == 16 * (low / 16) + low % 16;
      assert Shifted(low, n) == TWO_32 * (low / 16) + 0x1000_0000 * (low % 16);
    }
  }

  lemma OneGroup(bytes: seq<byte>, n: nat, acc: nat)
    requires bytes != [] && n <= 4 && acc < Shifted(1, n)
    ensures var acc' := acc + Shifted(bytes[0] % 128, n);
            && (bytes[0] < 128 ==> DecodeSizeFrom(bytes, n, acc) == Ok(acc' % TWO_32, bytes[1..]))
            && (bytes[0] >= 128 && n < 4 ==>
                  acc' < Shifted(1, n + 1) && DecodeSizeFrom(bytes, n, acc) == DecodeSizeFrom(bytes[1..], n + 1, acc'))
  {
    AddGroup(acc, bytes[0] % 128, n);
  }

  lemma LebStep(bytes: seq<byte>, k: nat, n: nat)
    requires IsGroup(bytes, k)
    ensures k == 1 ==> Shifted(LebValue(bytes[..k]), n) == Shifted(bytes[0] % 128, n)
    ensures k > 1 ==> IsGroup(bytes[1..], k - 1) && bytes[1..][k - 1..] == bytes[k..]
    ensures k > 1 ==> Shifted(LebValue(bytes[..k]), n) ==
                        Shifted(bytes[0] % 128, n) + Shifted(LebValue(bytes[1..][..k - 1]), n + 1)
  {
    var used := bytes[..k];
    assert LebValue(used) == used[0] % 128 + 128 * LebValue(used[1..]);
    if k == 1 {
      assert used[1..] == [];
    } else {
      assert used[1..] == bytes[1..][..k - 1];
      ShiftedSum(LebValue(used[1..]), bytes[0] % 128, n);
    }
  }

  lemma {:induction false} SizeFromGroup(bytes: seq<byte>, n: nat, acc: nat, k: nat)
    requires IsGroup(bytes, k) && n + k <= 5 && acc < Shifted(1, n)
    ensures DecodeSizeFrom(bytes, n, acc) == Ok((acc + Shifted(LebValue(bytes[..k]), n)) % TWO_32, bytes[k..])
    decreases k
  {
    OneGroup(bytes, n, acc);
    LebStep(bytes, k, n);
    if k > 1 {
      SizeFromGroup(bytes[1..], n + 1, acc + Shifted(bytes[0] % 128, n), k - 1);
    }
  }

  /** Any LEB128 group of at most five bytes decodes to its value modulo 2^32, canonical or not. */
  lemma SizeOutcome(bytes: seq<byte>, k: nat)
    requires IsGroup(bytes, k)
    ensures k <= 5 ==> DecodeSize(bytes) == Ok(LebValue(bytes[..k]) % TWO_32, bytes[k..])
    ensures k > 5 ==> DecodeSize(bytes) == Undefined
  {
    if k <= 5 {
      SizeFromGroup(bytes, 0, 0, k);
    } else {
      SizeUndefinedIff(bytes, 0, 0);
    }
  }

  /** Without the end of a group, five continuation bytes and one more are undefined, fewer are too few. */
  lemma {:induction false} SizeWithoutEnd(bytes: seq<byte>, n: nat, acc: nat)
    requires n <= 5 && forall i :: 0 <= i < |bytes| ==> bytes[i] >= 128
    ensures DecodeSizeFrom(bytes, n, acc) == if |bytes| + n > 5 then Undefined else EndOfStream
    decreases |bytes|
  {
    if bytes != [] && n < 5 {
      SizeWithoutEnd(bytes[1..], n + 1, acc + Shifted(bytes[0] % 128, n) % TWO_32);
    }
  }
}
