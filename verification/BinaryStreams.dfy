/**
 The two stream objects of the binary format: a serializer with an overwriting write cursor and a
 deserializer with a read cursor. Their loops are proved against the functions of BinaryFormat.
 */
module BinaryStreams {
  import opened Basics
  import opened BinaryFormat

  // -- The buffer behind the write cursor -----------------------------------------------------

  datatype Buffer = Buffer(bytes: seq<byte>, pos: nat)

  /** Overwrites in place and extends at the end. */
  function Splice(bytes: seq<byte>, pos: nat, x: seq<byte>): (r: seq<byte>)
    requires pos <= |bytes|
    ensures |r| == if pos + |x| <= |bytes| then |bytes| else pos + |x|
  {
    bytes[..pos] + x + if pos + |x| <= |bytes| then bytes[pos + |x|..] else []
  }

  /** Two writes in a row are one write. */
  lemma SpliceSplice(bytes: seq<byte>, pos: nat, x: seq<byte>, y: seq<byte>)
    requires pos <= |bytes|
    ensures Splice(Splice(bytes, pos, x), pos + |x|, y) == Splice(bytes, pos, x + y)
  {
    var once := Splice(bytes, pos, x);
    assert once[..pos + |x|] == bytes[..pos] + x;
    assert pos + |x| + |y| <= |bytes| ==> once[pos + |x| + |y|..] == bytes[pos + |x| + |y|..];
  }

  lemma SpliceNothing(bytes: seq<byte>, pos: nat)
    requires pos <= |bytes|
    ensures Splice(bytes, pos, []) == bytes
  {
  }

  function Zeros(n: nat): (r: seq<byte>)
    ensures |r| == n && forall i :: 0 <= i < n ==> r[i] == 0
  {
    seq(n, _ => 0)
  }

  datatype WriteOp = Seek(offset: nat) | Skip(count: nat) | Write(x: seq<byte>)

  /** seek demands an offset within the buffer; other calls are not part of a run. */
  function Apply(b: Buffer, op: WriteOp): (b': Buffer)
    requires b.pos <= |b.bytes|
    ensures b'.pos <= |b'.bytes| && |b.bytes| <= |b'.bytes|
  {
    match op
    case Seek(offset) => if offset <= |b.bytes| then b.(pos := offset) else b
    case Skip(count) =>
      var missing := if b.pos + count <= |b.bytes| then 0 else b.pos + count - |b.bytes|;
      Buffer(b.bytes + Zeros(missing), b.pos + count)
    case Write(x) => Buffer(Splice(b.bytes, b.pos, x), b.pos + |x|)
  }

  function ApplyAll(b: Buffer, ops: seq<WriteOp>): (b': Buffer)
    requires b.pos <= |b.bytes|
    ensures b'.pos <= |b'.bytes| && |b.bytes| <= |b'.bytes|
  {
    if ops == [] then b else Apply(ApplyAll(b, ops[..|ops| - 1]), ops[|ops| - 1])
  }

  /** What position i holds: the last write that covered it, else the original byte, else zero. */
  function LastWrite(b: Buffer, ops: seq<WriteOp>, i: nat): (r: byte)
    requires b.pos <= |b.bytes|
  {
    if ops == [] then (if i < |b.bytes| then b.bytes[i] else 0)
    else
      var front, op := ops[..|ops| - 1], ops[|ops| - 1];
      var pos := ApplyAll(b, front).pos;
      if op.Write? && pos <= i < pos + |op.x| then op.x[i - pos] else LastWrite(b, front, i)
  }

  lemma {:induction false} Unwritten(b: Buffer, ops: seq<WriteOp>, i: nat)
    requires b.pos <= |b.bytes| && i >= |ApplyAll(b, ops).bytes|
    ensures LastWrite(b, ops, i) == 0
  {
    if ops != [] {
      Unwritten(b, ops[..|ops| - 1], i);
    }
  }

  /** Any run of seeks, skips and writes leaves in every cell what was written there last. */
  lemma {:induction false} LastWriteWins(b: Buffer, ops: seq<WriteOp>, i: nat)
    requires b.pos <= |b.bytes| && i < |ApplyAll(b, ops).bytes|
    ensures ApplyAll(b, ops).bytes[i] == LastWrite(b, ops, i)
  {
    if ops != [] {
      var front, op := ops[..|ops| - 1], ops[|ops| - 1];
      var mid := ApplyAll(b, front);
      if i < |mid.bytes| {
        LastWriteWins(b, front, i);
      } else {
        Unwritten(b, front, i);
      }
    }
  }

  // -- The serializer ---------------------------------------------------------------------------

  lemma {:induction false} CharsOfBytes(chars: seq<int>)
    requires forall k :: 0 <= k < |chars| ==> 0 <= chars[k] < 256
    ensures EncodeChars(W8, chars) == chars
  {
    if chars != [] {
      CharsOfBytes(chars[..|chars| - 1]);
      var last := chars[|chars| - 1];
      assert BigEndian(0, last / 256) == [];
      assert EncodeInt(W8, last) == [last];
    }
  }

  lemma NextBlock(bits: seq<bool>, pos: nat, done: seq<byte>)
    requires pos < |bits|
    ensures var next := pos + Block(|bits| - pos);
            done + EncodeBits(bits[pos..]) == done + [PackByte(bits[pos..next])] + EncodeBits(bits[next..])
  {
    var k := Block(|bits| - pos);
    var here := bits[pos..];
    assert here[..k] == bits[pos..pos + k] && here[k..] == bits[pos + k..];
    Assoc(done, [PackByte(bits[pos..pos + k])], EncodeBits(bits[pos + k..]));
  }

  lemma NextEncoded(w: Width, chars: seq<int>, i: nat)
    requires i < |chars|
    ensures EncodeChars(w, chars[..i + 1]) == EncodeChars(w, chars[..i]) + EncodeInt(w, chars[i])
  {
    assert chars[..i + 1][..i] == chars[..i];
  }

  lemma EncodeCons(ts: seq<Type>, vs: seq<Value>) returns (x: seq<byte>, y: seq<byte>)
    requires HaveTypes(ts, vs) && ts != []
    ensures x == Encode(ts[0], vs[0]) && HaveTypes(ts[1..], vs[1..]) && y == EncodeAll(ts[1..], vs[1..])
    ensures EncodeAll(ts, vs) == x + y
  {
    x, y := Encode(ts[0], vs[0]), EncodeAll(ts[1..], vs[1..]);
  }

  class BinarySerializer {
    var buf: seq<byte>
    var writePos: nat

    ghost predicate Valid()
      reads this
    {
      writePos <= |buf|
    }

    function View(): Buffer
      reads this
    {
      Buffer(buf, writePos)
    }

    /** The given bytes were written at the cursor. */
    twostate predicate Wrote(x: seq<byte>)
      reads this
    {
      old(Valid()) && buf == Splice(old(buf), old(writePos), x) && writePos == old(writePos) + |x|
    }

    constructor (buf: seq<byte>)
      ensures Valid() && View() == Buffer(buf, |buf|)
    {
      this.buf, writePos := buf, |buf|;
    }

    method Seek(offset: nat)
      requires offset <= |buf|
      modifies this
      ensures Valid() && View() == Apply(Buffer(old(buf), 0), WriteOp.Seek(offset))
      ensures writePos == offset && buf == old(buf)
    {
      writePos := offset;
    }

    method Skip(count: nat)
      requires Valid()
      modifies this
      ensures Valid() && View() == Apply(old(View()), WriteOp.Skip(count))
      ensures writePos == old(writePos) + count && old(buf) <= buf
      ensures |buf| == (if writePos <= |old(buf)| then |old(buf)| else writePos)
      ensures forall i :: |old(buf)| <= i < |buf| ==> buf[i] == 0
    {
      var remaining := |buf| - writePos;
      if remaining < count {
        buf := buf + Zeros(count - remaining);
      } else {
        assert buf + Zeros(0) == buf;
      }
      writePos := writePos + count;
    }

    method WriteSpan(x: seq<byte>)
      requires Valid()
      modifies this
      ensures Valid() && Wrote(x) && View() == Apply(old(View()), Write(x))
      ensures writePos == old(writePos) + |x| && buf[old(writePos)..writePos] == x
      ensures buf[..old(writePos)] == old(buf[..writePos])
      ensures if writePos <= |old(buf)| then buf[writePos..] == old(buf)[writePos..] else |buf| == writePos
    {
      var size := |buf|;
      if writePos == size {
        buf := buf + x;
      } else if writePos + |x| <= size {
        buf := buf[..writePos] + x + buf[writePos + |x|..];
      } else {
        var remaining := size - writePos;
        buf := buf[..writePos] + x[..remaining];
        buf := buf + x[remaining..];
        assert x[..remaining] + x[remaining..] == x;
      }
      writePos := writePos + |x|;
    }

    method WriteByte(x: byte)
      requires Valid()
      modifies this
      ensures Valid() && Wrote([x]) && View() == Apply(old(View()), Write([x]))
    {
      if writePos == |buf| {
        buf := buf + [x];
      } else {
        buf := buf[writePos := x];
      }
      writePos := writePos + 1;
    }

    method BeginSequence(size: nat)
      requires Valid()
      modifies this
      ensures Valid() && Wrote(EncodeSize(size % TWO_32))
    {
      var scratch: seq<byte> := [];
      var x: nat := size % TWO_32;
      while x > 0x7f
        invariant View() == old(View())
        invariant scratch + EncodeSize(x) == EncodeSize(size % TWO_32)
      {
        Assoc(scratch, [x % 128 + 128], EncodeSize(x / 128));
        scratch := scratch + [x % 128 + 128];
        x := x / 128;
      }
      scratch := scratch + [x];
      WriteSpan(scratch);
    }

    method WriteInt(w: Width, x: int)
      requires Valid()
      modifies this
      ensures Valid() && Wrote(EncodeInt(w, x))
    {
      WriteSpan(EncodeInt(w, x));
    }

    method WriteChars(w: Width, chars: seq<int>)
      requires Valid()
      modifies this
      ensures Valid() && Wrote(EncodeChars(w, chars))
    {
      SpliceNothing(buf, writePos);
      for i := 0 to |chars|
        invariant Valid() && Wrote(EncodeChars(w, chars[..i]))
      {
        NextEncoded(w, chars, i);
        SpliceSplice(old(buf), old(writePos), EncodeChars(w, chars[..i]), EncodeInt(w, chars[i]));
        WriteInt(w, chars[i]);
      }
      assert chars[..|chars|] == chars;
    }

    method WriteText(w: Width, chars: seq<int>)
      requires Valid() && forall k :: 0 <= k < |chars| ==> 0 <= chars[k] < Modulus(w)
      modifies this
      ensures Valid() && Wrote(EncodeSize(|chars| % TWO_32) + EncodeChars(w, chars))
    {
      SpliceSplice(buf, writePos, EncodeSize(|chars| % TWO_32), EncodeChars(w, chars));
      BeginSequence(|chars|);
      if w == W8 {
        CharsOfBytes(chars);
        WriteSpan(chars);
      } else {
        WriteChars(w, chars);
      }
    }

    /** The value of one block of bools, most significant bit first. */
    method PackBlock(bits: seq<bool>) returns (tmp: nat)
      ensures tmp == Pack(bits)
    {
      tmp := 0;
      for i := 0 to |bits|
        invariant tmp == Pack(bits[..i])
      {
        assert bits[..i + 1][..i] == bits[..i];
        tmp := 2 * tmp + if bits[i] then 1 else 0;
      }
      assert bits[..|bits|] == bits;
    }

    /** Writes one block behind what was written since the buffer was b and the cursor at p. */
    method WriteBlock(bits: seq<bool>, ghost b: seq<byte>, ghost p: nat, ghost done: seq<byte>)
      requires |bits| <= 8 && p <= |b| && buf == Splice(b, p, done) && writePos == p + |done|
      modifies this
      ensures buf == Splice(b, p, done + [PackByte(bits)]) && writePos == p + |done| + 1
    {
      var tmp := PackBlock(bits);
      PackBound(bits);
      SpliceSplice(b, p, done, [PackByte(bits)]);
      WriteByte(tmp);
    }

    method WriteBits(bits: seq<bool>)
      requires Valid()
      modifies this
      ensures Valid() && Wrote(EncodeBits(bits))
    {
      var pos := 0;
      SpliceNothing(buf, writePos);
      ghost var done: seq<byte> := [];
      while pos < |bits|
        invariant pos <= |bits| && Valid() && Wrote(done)
        invariant done + EncodeBits(bits[pos..]) == EncodeBits(bits)
      {
        var k := Block(|bits| - pos);
        ghost var x := [PackByte(bits[pos..pos + k])];
        NextBlock(bits, pos, done);
        WriteBlock(bits[pos..pos + k], old(buf), old(writePos), done);
        done, pos := done + x, pos + k;
      }
    }

    method WriteBitVector(bits: seq<bool>)
      requires Valid()
      modifies this
      ensures Valid() && Wrote(EncodeSize(|bits| % TWO_32) + EncodeBits(bits))
    {
      SpliceSplice(buf, writePos, EncodeSize(|bits| % TWO_32), EncodeBits(bits));
      BeginSequence(|bits|);
      WriteBits(bits);
    }

    method WriteValue(t: Type, v: Value)
      requires Valid() && HasType(v, t)
      modifies this
      ensures Valid() && Wrote(Encode(t, v))
    {
      match t
      case Bool => WriteByte(if v.b then 1 else 0);
      case OptionalField => WriteByte(if v.b then 1 else 0);
      case Unsigned(w) => WriteInt(w, v.x);
      case Signed(w) => WriteInt(w, v.x);
      case Bits => WriteBitVector(v.bits);
      case VariantField(n) => WriteInt(IndexWidth(n), v.i);
      case OptionalVariant(n) => WriteInt(IndexWidth(n), if v.Absent? then -1 else v.i);
      case _ => WriteText(CharWidth(t), v.chars);
    }

    method WriteFirst(ts: seq<Type>, vs: seq<Value>, ghost x: seq<byte>)
      requires Valid() && HaveTypes(ts, vs) && ts != [] && x == Encode(ts[0], vs[0])
      modifies this
      ensures Valid() && Wrote(x)
    {
      WriteValue(ts[0], vs[0]);
    }

    method WriteRest(ts: seq<Type>, vs: seq<Value>, ghost y: seq<byte>)
      requires Valid() && HaveTypes(ts, vs) && ts != [] && y == EncodeAll(ts[1..], vs[1..])
      modifies this
      ensures Valid() && Wrote(y)
      decreases |ts|, 0
    {
      WriteAll(ts[1..], vs[1..]);
    }

    method WriteAll(ts: seq<Type>, vs: seq<Value>)
      requires Valid() && HaveTypes(ts, vs)
      modifies this
      ensures Valid() && Wrote(EncodeAll(ts, vs))
      decreases |ts|, 1
    {
      if ts == [] {
        SpliceNothing(buf, writePos);
      } else {
        ghost var x, y := EncodeCons(ts, vs);
        SpliceSplice(buf, writePos, x, y);
        WriteFirst(ts, vs, x);
        WriteRest(ts, vs, y);
      }
    }
  }

  // -- The deserializer ---------------------------------------------------------------------------

  class BinaryDeserializer {
    const input: seq<byte>
    var current: nat

    ghost predicate Valid()
      reads this
    {
      current <= |input|
    }

    function Remainder(): seq<byte>
      requires current <= |input|
      reads this
    {
      input[current..]
    }

    /** The method returned what the function decodes, and moved the cursor behind it on success. */
    ghost predicate Read<T>(r: Decoded<T>, expected: Decoded<T>)
      reads this
    {
      current <= |input| && r == expected && (r.Ok? ==> r.rest == Remainder())
    }

    constructor (input: seq<byte>)
      ensures Valid() && this.input == input && Remainder() == input
    {
      this.input, current := input, 0;
    }

    method ReadSpan(n: nat) returns (r: Decoded<seq<byte>>)
      requires Valid()
      modifies this
      ensures Read(r, Take(n, old(Remainder())))
    {
      if current + n > |input| {
        return EndOfStream;
      }
      assert input[current..][..n] == input[current..current + n];
      assert input[current..][n..] == input[current + n..];
      r := Ok(input[current..current + n], input[current + n..]);
      current := current + n;
    }

    method BeginSequence() returns (r: Decoded<nat>)
      requires Valid()
      modifies this
      ensures Read(r, DecodeSize(old(Remainder())))
    {
      var x: nat, n: nat := 0, 0;
      while true
        invariant old(current) <= current <= |input|
        invariant DecodeSizeFrom(Remainder(), n, x) == DecodeSize(old(Remainder()))
        decreases |input| - current
      {
        if current == |input| {
          return EndOfStream;
        }
        var low7 := input[current];
        assert input[current..][1..] == input[current + 1..];
        current := current + 1;
        if n >= 5 {
          return Undefined;
        }
        x, n := x + Shifted(low7 % 128, n) % TWO_32, n + 1;
        if low7 < 128 {
          return Ok(x, input[current..]);
        }
      }
    }

    method ReadUnsigned(w: Width) returns (r: Decoded<nat>)
      requires Valid()
      modifies this
      ensures Read(r, DecodeUnsigned(w, old(Remainder())))
    {
      var b := ReadSpan(Size(w));
      if b.Ok? {
        r := Ok(FromBigEndian(b.value), b.rest);
      } else {
        r := EndOfStream;
      }
    }

    method ReadChars(w: Width, n: nat) returns (chars: seq<int>)
      requires current + Bytes(w, n) <= |input|
      modifies this
      ensures current == old(current) + Bytes(w, n) <= |input|
      ensures chars == DecodeChars(w, n, input[old(current)..current])
    {
      ghost var start := current;
      chars := [];
      assert input[start..start] == [];
      for i := 0 to n
        invariant current == start + Bytes(w, i) <= |input|
        invariant chars == DecodeChars(w, i, input[start..current])
      {
        BytesGrow(w, i + 1, n);
        var c := ReadChar(w, i, start);
        chars := chars + [c];
      }
    }

    /** The unchecked read of one character, the i-th behind start. */
    method ReadChar(w: Width, ghost i: nat, ghost start: nat) returns (c: nat)
      requires current == start + Bytes(w, i) && start + Bytes(w, i + 1) <= |input|
      modifies this
      ensures old(current) <= current == start + Bytes(w, i + 1)
      ensures DecodeChars(w, i + 1, input[start..current]) == DecodeChars(w, i, input[start..old(current)]) + [c]
    {
      NextChar(w, i, input, start);
      var next := current + Size(w);
      c := FromBigEndian(input[current..next]);
      current := next;
    }

    method ReadText(w: Width) returns (r: Decoded<Value>)
      requires Valid()
      modifies this
      ensures Read(r, DecodeText(w, old(Remainder())))
    {
      var size := BeginSequence();
      if !size.Ok? {
        return if size == EndOfStream then EndOfStream else Undefined;
      }
      r := ReadBody(w, size.value);
    }

    /** The range check and the loop behind it. */
    method ReadBody(w: Width, n: nat) returns (r: Decoded<Value>)
      requires Valid()
      modifies this
      ensures Read(r, DecodeBody(w, n, old(Remainder())))
    {
      if current + Bytes(w, n) > |input| {
        return EndOfStream;
      }
      TextAt(w, n, input, current);
      var chars := ReadChars(w, n);
      r := Ok(Text(chars), input[current..]);
    }

    method ReadBits(n: nat) returns (r: Decoded<seq<bool>>)
      requires Valid()
      modifies this
      ensures Read(r, DecodeBits(n, old(Remainder())))
    {
      var bits: seq<bool> := [];
      var left := n;
      assert match DecodeBits(n, Remainder()) case Ok(more, _) => bits + more == more case _ => true;
      while left > 0
        invariant old(current) <= current <= |input|
        invariant match DecodeBits(left, Remainder())
                  case Ok(more, rest) => DecodeBits(n, old(Remainder())) == Ok(bits + more, rest)
                  case _ => DecodeBits(n, old(Remainder())) == EndOfStream
      {
        if current == |input| {
          return EndOfStream;
        }
        var k := Block(left);
        assert input[current..][1..] == input[current + 1..];
        ghost var tail := DecodeBits(left - k, input[current + 1..]);
        if tail.Ok? {
          Assoc(bits, Unpack(k, input[current]), tail.value);
        }
        bits := bits + Unpack(k, input[current]);
        current, left := current + 1, left - k;
      }
      assert bits + [] == bits;
      r := Ok(bits, input[current..]);
    }

    method ReadBitVector() returns (r: Decoded<Value>)
      requires Valid()
      modifies this
      ensures Read(r, DecodeBitVector(old(Remainder())))
    {
      var size := BeginSequence();
      if !size.Ok? {
        return if size == EndOfStream then EndOfStream else Undefined;
      }
      var bits := ReadBits(size.value);
      if bits.Ok? {
        r := Ok(BitVector(bits.value), bits.rest);
      } else {
        r := EndOfStream;
      }
    }

    method ReadIndex(n: nat, optional: bool) returns (r: Decoded<Value>)
      requires Valid()
      modifies this
      ensures Read(r, DecodeIndex(n, optional, old(Remainder())))
    {
      var u := ReadUnsigned(IndexWidth(n));
      if !u.Ok? {
        return EndOfStream;
      }
      var tmp := Unwrap(IndexWidth(n), u.value);
      if optional && tmp < 0 {
        return Ok(Absent, u.rest);
      }
      if tmp < 0 || tmp >= n {
        return InvalidFieldType;
      }
      r := Ok(Index(tmp), u.rest);
    }

    method ReadValue(t: Type) returns (r: Decoded<Value>)
      requires Valid()
      modifies this
      ensures Read(r, Decode(t, old(Remainder())))
    {
      match t
      case Bits => r := ReadBitVector();
      case VariantField(n) => r := ReadIndex(n, false);
      case OptionalVariant(n) => r := ReadIndex(n, true);
      case Unsigned(w) =>
        var u := ReadUnsigned(w);
        r := if u.Ok? then Ok(Number(u.value), u.rest) else EndOfStream;
      case Signed(w) =>
        var u := ReadUnsigned(w);
        r := if u.Ok? then Ok(Number(Unwrap(w, u.value)), u.rest) else EndOfStream;
      case String8 => r := ReadText(W8);
      case String16 => r := ReadText(W16);
      case String32 => r := ReadText(W32);
      case _ =>
        var b := ReadSpan(1);
        r := if b.Ok? then Ok(Flag(b.value[0] != 0), b.rest) else EndOfStream;
    }

    /** Stops at the first failure. */
    method ReadAll(ts: seq<Type>) returns (r: Decoded<seq<Value>>)
      requires Valid()
      modifies this
      ensures Read(r, DecodeAll(ts, old(Remainder())))
      decreases |ts|
    {
      if ts == [] {
        return Ok([], Remainder());
      }
      var v := ReadValue(ts[0]);
      match v {
        case EndOfStream => return EndOfStream;
        case InvalidFieldType => return InvalidFieldType;
        case Undefined => return Undefined;
        case Ok(x, _) =>
          r := ReadAll(ts[1..]);
          if r.Ok? {
            r := Ok([x] + r.value, r.rest);
          }
      }
    }
  }

  /** Values written behind some bytes are read back from there, and nothing is left over. */
  method Transfer(header: seq<byte>, ts: seq<Type>, vs: seq<Value>) returns (r: Decoded<seq<Value>>, kept: seq<byte>)
    requires HaveTypes(ts, vs)
    ensures r == Ok(vs, []) <==> AllFit(vs)
    ensures kept == header
  {
    ghost var all := EncodeAll(ts, vs);
    Behind(header, all);
    RoundTripAll(ts, vs, []);
    var sink := new BinarySerializer(header);
    sink.WriteAll(ts, vs);
    kept := sink.buf[..|header|];
    var source := new BinaryDeserializer(sink.buf[|header|..]);
    r := source.ReadAll(ts);
  }

  lemma Behind(header: seq<byte>, x: seq<byte>)
    ensures Splice(header, |header|, x)[..|header|] == header
    ensures Splice(header, |header|, x)[|header|..] == x + []
  {
  }

  lemma TextAt(w: Width, n: nat, input: seq<byte>, start: nat)
    requires start + Bytes(w, n) <= |input|
    ensures input[start..][..Bytes(w, n)] == input[start..start + Bytes(w, n)]
    ensures input[start..][Bytes(w, n)..] == input[start + Bytes(w, n)..]
  {
  }

  lemma NextChar(w: Width, i: nat, input: seq<byte>, start: nat)
    requires start + Bytes(w, i + 1) <= |input|
    ensures var mid, next := start + Bytes(w, i), start + Bytes(w, i + 1);
            && next == mid + Size(w)
            && DecodeChars(w, i + 1, input[start..next]) ==
                 DecodeChars(w, i, input[start..mid]) + [FromBigEndian(input[mid..next])]
  {
    assert Bytes(w, i + 1) == Bytes(w, i) + Size(w);
    var mid, next := start + Bytes(w, i), start + Bytes(w, i + 1);
    DecodeSnoc(w, i, input[start..mid], input[mid..next]);
    assert input[start..mid] + input[mid..next] == input[start..next];
  }

  lemma {:induction false} BytesGrow(w: Width, i: nat, n: nat)
    requires i <= n
    ensures Bytes(w, i) <= Bytes(w, n)
    decreases n - i
  {
    if i < n {
      BytesGrow(w, i + 1, n);
    }
  }
}
