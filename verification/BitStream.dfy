/** Bit streams: section 3.1.1 of RFC 1951 packs bits into bytes starting with the least significant bit. */
module BitStream {
  import opened Arith

  type byte = b: nat | b < 256

  type Bytes = seq<byte>

  datatype Error =
    | EndOfData
    | InvalidCompressionMethod
    | InvalidCompressionInfo
    | HeaderChecksum
    | PresetDictionary
    | InvalidBlockType
    | NoSymbol
    | InvalidLengthSymbol
    | InvalidDistanceSymbol
    | DistanceTooLarge
    | NoPreviousLength
    | InvalidSymbol

  // What a reader yields at a bit position: a value and the next position, an error, or an aborted program
  // (the source unwraps a child that is not there).
  datatype Parsed<+T> = Ok(value: T, next: nat) | Err(error: Error) | Panic {
    predicate IsFailure() { !Ok? }
    function PropagateFailure<U>(): Parsed<U>
      requires !Ok?
    {
      if Err? then Err(error) else Panic
    }
    function Extract(): (T, nat)
      requires Ok?
    {
      (value, next)
    }
  }

  // The number written by `bits`, least significant bit first.
  function Value(bits: seq<bool>): nat {
    if bits == [] then 0
    else Value(bits[..|bits| - 1]) + if bits[|bits| - 1] then Pow2(|bits| - 1) else 0
  }

  // The n low bits of v, least significant bit first.
  function Lsb(v: nat, n: nat): (bits: seq<bool>)
    ensures |bits| == n
  {
    seq(n, i requires 0 <= i < n => (v / Pow2(i)) % 2 == 1)
  }

  // All bits of a byte string in stream order.
  function BitsOf(mem: Bytes): (bits: seq<bool>)
    ensures |bits| == 8 * |mem|
  {
    seq(8 * |mem|, i requires 0 <= i < 8 * |mem| => (mem[i / 8] / Pow2(i % 8)) % 2 == 1)
  }

  // The byte string with the given bits; the last byte is filled up with zero bits.
  function Pack(bits: seq<bool>): Bytes {
    if bits == [] then []
    else if |bits| < 8 then (ValueBound(bits); Pow2Mono(|bits|, 8); [Value(bits)])
    else (ValueBound(bits[..8]); [Value(bits[..8])] + Pack(bits[8..]))
  }

  // `code` stands at position p of `bits`.
  predicate At<T(==)>(bits: seq<T>, p: nat, code: seq<T>) {
    p + |code| <= |bits| && bits[p..p + |code|] == code
  }

  function Align(p: nat): (q: nat)
    ensures p <= q < p + 8 && q % 8 == 0
  {
    (p + 7) / 8 * 8
  }

  function ReadBit(bits: seq<bool>, p: nat): Parsed<nat> {
    if p < |bits| then Ok(if bits[p] then 1 else 0, p + 1) else Err(EndOfData)
  }

  function ReadBits(bits: seq<bool>, p: nat, n: nat): Parsed<nat> {
    if p + n <= |bits| then Ok(Value(bits[p..p + n]), p + n) else Err(EndOfData)
  }

  // n whole bytes, little-endian, from the next byte boundary on.
  function ReadBytes(bits: seq<bool>, p: nat, n: nat): Parsed<nat> {
    if n == 0 then Ok(0, p) else ReadBits(bits, Align(p), 8 * n)
  }

  lemma {:induction false} ValueBound(bits: seq<bool>)
    ensures Value(bits) < Pow2(|bits|)
  {
    if bits != [] {
      ValueBound(bits[..|bits| - 1]);
    }
  }

  lemma ValueNext(bits: seq<bool>, b: bool)
    ensures Value(bits + [b]) == Value(bits) + if b then Pow2(|bits|) else 0
  {
    assert (bits + [b])[..|bits|] == bits;
  }

  lemma {:induction false} ValueConcat(a: seq<bool>, b: seq<bool>)
    ensures Value(a + b) == Value(a) + Pow2(|a|) * Value(b)
  {
    if b == [] {
      assert a + b == a;
    } else {
      var b' := b[..|b| - 1];
      assert (a + b)[..|a + b| - 1] == a + b';
      ValueConcat(a, b');
      Pow2Add(|a|, |b'|);
      var last := if b[|b| - 1] then Pow2(|b'|) else 0;
      assert Pow2(|a|) * (Value(b') + last) == Pow2(|a|) * Value(b') + Pow2(|a|) * last;
    }
  }

  // Writing n bits of v and reading them back gives v modulo 2^n.
  lemma {:induction false} ValueOfLsb(v: nat, n: nat)
    ensures Value(Lsb(v, n)) == v % Pow2(n)
  {
    if n != 0 {
      ValueOfLsb(v, n - 1);
      assert Lsb(v, n)[..n - 1] == Lsb(v, n - 1);
      ModStep(v, n - 1);
    }
  }

  lemma {:induction false} LsbOfValue(bits: seq<bool>)
    ensures Lsb(Value(bits), |bits|) == bits
  {
    if bits != [] {
      var n := |bits| - 1;
      var init, v := bits[..n], Value(bits[..n]);
      LsbOfValue(init);
      ValueBound(init);
      LsbTop(v, bits[n], n);
      assert bits == init + [bits[n]];
    }
  }

  // The bits of a number below 2^n, with bit n put on top.
  lemma LsbTop(v: nat, top: bool, n: nat)
    requires v < Pow2(n)
    ensures Lsb(v + if top then Pow2(n) else 0, n + 1) == Lsb(v, n) + [top]
  {
    hide Pow2;
    var k := if top then 1 else 0;
    forall i | 0 <= i < n ensures Lsb(v + k * Pow2(n), n + 1)[i] == Lsb(v, n)[i] {
      BitBelow(v, k, n, i);
    }
    DivUnique(v + k * Pow2(n), Pow2(n), k, v);
  }

  // Adding a multiple of 2^n leaves bit i < n alone.
  lemma BitBelow(v: nat, k: nat, n: nat, i: nat)
    requires i < n
    ensures ((v + k * Pow2(n)) / Pow2(i)) % 2 == (v / Pow2(i)) % 2
  {
    Pow2Add(n - i, i);
    AddEvenMultiple(v, Pow2(i), k, Pow2(n - 1 - i));
  }

  // The byte at index k of memory is what the eight bits from 8k on say.
  lemma ByteAt(mem: Bytes, k: nat)
    requires k < |mem|
    ensures BitsOf(mem)[8 * k..8 * k + 8] == Lsb(mem[k], 8)
    ensures Value(BitsOf(mem)[8 * k..8 * k + 8]) == mem[k]
  {
    ValueOfLsb(mem[k], 8);
    assert Pow2(8) == 256;
    hide BitsOf, Lsb, Value, Pow2;
    forall i | 0 <= i < 8 ensures BitsOf(mem)[8 * k + i] == Lsb(mem[k], 8)[i] {
      BitAt(mem, k, i);
    }
    assert BitsOf(mem)[8 * k..8 * k + 8] == Lsb(mem[k], 8);
  }

  lemma BitAt(mem: Bytes, k: nat, i: nat)
    requires k < |mem| && i < 8
    ensures BitsOf(mem)[8 * k + i] == Lsb(mem[k], 8)[i]
  {
    assert (8 * k + i) / 8 == k && (8 * k + i) % 8 == i;
    hide Pow2;
  }

  lemma BitsOfConcat(a: Bytes, b: Bytes)
    ensures BitsOf(a + b) == BitsOf(a) + BitsOf(b)
  {
    forall i | 0 <= i < 8 * |a + b| ensures BitsOf(a + b)[i] == (BitsOf(a) + BitsOf(b))[i] {
      if i >= 8 * |a| {
        assert (i - 8 * |a|) / 8 == i / 8 - |a| && (i - 8 * |a|) % 8 == i % 8;
      }
    }
  }

  lemma LsbPrefix(v: nat, m: nat, n: nat)
    requires m <= n
    ensures Lsb(v, n)[..m] == Lsb(v, m)
  {
  }

  // Eight bits, or fewer at the end, in a byte.
  lemma BitsOfByte(bits: seq<bool>, b: byte)
    requires |bits| <= 8 && b == Value(bits)
    ensures BitsOf([b])[..|bits|] == bits
  {
    ByteAt([b], 0);
    assert BitsOf([b]) == BitsOf([b])[8 * 0..8 * 0 + 8] == Lsb(b, 8);
    LsbPrefix(b, |bits|, 8);
    LsbOfValue(bits);
  }

  // Every bit string is the start of the bits of its packing, and the packing is as short as possible.
  lemma {:induction false} BitsOfPack(bits: seq<bool>)
    ensures |Pack(bits)| == Align(|bits|) / 8
    ensures At(BitsOf(Pack(bits)), 0, bits)
  {
    if bits == [] {
    } else if |bits| < 8 {
      BitsOfByte(bits, Pack(bits)[0]);
    } else {
      var head, tail := bits[..8], bits[8..];
      var first: byte := Pack(bits)[0];
      BitsOfPack(tail);
      BitsOfByte(head, first);
      BitsOfConcat([first], Pack(tail));
      assert BitsOf(Pack(bits)) == head + BitsOf(Pack(tail));
      assert (head + BitsOf(Pack(tail)))[..|bits|] == head + BitsOf(Pack(tail))[..|tail|];
      assert bits == head + tail;
    }
  }

  lemma AtSplit<T>(bits: seq<T>, p: nat, a: seq<T>, b: seq<T>)
    requires At(bits, p, a + b)
    ensures At(bits, p, a) && At(bits, p + |a|, b)
  {
    assert bits[p..p + |a|] == bits[p..p + |a + b|][..|a|];
    assert bits[p + |a|..p + |a| + |b|] == bits[p..p + |a + b|][|a|..];
  }

  lemma AtEnd<T>(bits: seq<T>, p: nat, code: seq<T>)
    requires At(bits, p, code)
    ensures p + |code| <= |bits|
  {
  }

  // What was written in n bits is what n bits read.
  lemma ReadBack(bits: seq<bool>, p: nat, v: nat, n: nat)
    requires v < Pow2(n) && At(bits, p, Lsb(v, n))
    ensures ReadBits(bits, p, n) == Ok(v, p + n)
  {
    ValueOfLsb(v, n);
    DivUnique(v, Pow2(n), 0, v);
  }
}
