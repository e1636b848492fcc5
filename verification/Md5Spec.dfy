/** RFC 1321, with the table of section 3.4 as a parameter. */
module Md5Spec {
  import Arith
  import opened BitStream
  import opened Collections
  import opened Wire

  type Word = bv32

  datatype Registers = Registers(a: Word, b: Word, c: Word, d: Word)

  // ----- Sections 3.1 and 3.2: padding

  // How many zero bytes follow the byte 128.
  function ZeroCount(length: nat): nat {
    (119 - length % 64) % 64
  }

  function Padded(message: Bytes): Bytes {
    message + [128] + Repeat(0, ZeroCount(|message|)) + Le(8 * |message|, 8)
  }

  // The byte 128 and k zero bytes leave room for eight bytes in the last block.
  predicate LeavesEight(length: nat, k: nat) {
    (length + 1 + k) % 64 == 56
  }

  // Padding fills the last block, with as few zero bytes as possible.
  lemma PaddingFills(message: Bytes)
    ensures |Padded(message)| % 64 == 0
    ensures LeavesEight(|message|, ZeroCount(|message|))
    ensures forall k: nat :: LeavesEight(|message|, k) ==> ZeroCount(|message|) <= k
  {
    hide Le, LeavesEight, ZeroCount;
    ZerosFill(|message|);
    forall k: nat | LeavesEight(|message|, k) ensures ZeroCount(|message|) <= k {
      FewestZeros(|message|, k);
    }
  }

  lemma ZerosFill(length: nat)
    ensures LeavesEight(length, ZeroCount(length)) && (length + 1 + ZeroCount(length) + 8) % 64 == 0
  {
    var q, r := length / 64, length % 64;
    assert length == 64 * q + r;
    var filled := if r <= 55 then q else q + 1;
    assert length + 1 + ZeroCount(length) == 64 * filled + 56;
  }

  lemma FewestZeros(length: nat, k: nat)
    requires LeavesEight(length, k)
    ensures k % 64 == ZeroCount(length) && ZeroCount(length) <= k
  {
    var r, t := length % 64, k % 64;
    assert length + 1 + k == 64 * (length / 64 + k / 64) + (r + 1 + t);
    assert r + 1 + t == 56 || r + 1 + t == 120;
  }

  // The message whose length the last eight bytes give in bits.
  function Unpadded(padded: Bytes): Bytes {
    if |padded| < 8 then []
    else
      var length := FromLe(padded[|padded| - 8..]) / 8;
      if length <= |padded| then padded[..length] else []
  }

  // A padded message can be told from its padding exactly if its length in bits fits 64 bits.
  lemma UnpaddedIff(message: Bytes)
    ensures Unpadded(Padded(message)) == message <==> |message| < 2305843009213693952
  {
    hide Padded, FromLe;
    LengthField(message);
    PaddedStarts(message);
    var length := |message| % 2305843009213693952;
    assert length == |message| <==> |message| < 2305843009213693952;
  }

  lemma PaddedStarts(message: Bytes)
    ensures |Padded(message)| >= |message| + 8 && Padded(message)[..|message|] == message
  {
    hide Le;
  }

  // The last eight bytes give the length modulo 2^61.
  lemma LengthField(message: Bytes)
    ensures var padded := Padded(message);
            FromLe(padded[|padded| - 8..]) / 8 == |message| % 2305843009213693952
  {
    var padded := Padded(message);
    FromLeOfLe(8 * |message|, 8);
    Widths();
    hide Le, FromLe, Pow256, ZeroCount;
    assert padded[|padded| - 8..] == Le(8 * |message|, 8);
    ModLength(|message|, 2305843009213693952);
  }

  lemma ModLength(n: nat, limit: nat)
    requires limit == 2305843009213693952
    ensures ((8 * n) % (8 * limit)) / 8 == n % limit
  {
    var q := n / limit;
    assert 8 * n == q * (8 * limit) + 8 * (n % limit);
    Arith.DivUnique(8 * n, 8 * limit, q, 8 * (n % limit));
  }

  // ----- Section 3.4: the four auxiliary functions and the 64 steps

  function F(x: Word, y: Word, z: Word): Word { (x & y) | (!x & z) }
  function G(x: Word, y: Word, z: Word): Word { (x & z) | (y & !z) }
  function H(x: Word, y: Word, z: Word): Word { x ^ y ^ z }
  function I(x: Word, y: Word, z: Word): Word { y ^ (x | !z) }

  // F picks y where x is set and z elsewhere; G is F with z as the condition.
  lemma FIsChoice(x: Word, y: Word, z: Word)
    ensures F(x, y, z) & x == y & x && F(x, y, z) & !x == z & !x
    ensures G(x, y, z) == F(z, x, y)
  {
  }

  // H is the parity of its arguments.
  lemma HIsParity(x: Word, y: Word, z: Word)
    ensures H(x, y, z) & (x & y) == z & (x & y) && H(x, y, z) & (!x & !y) == z & (!x & !y)
    ensures H(x, y, z) & (x & !y) == !z & (x & !y) && H(x, y, z) & (!x & y) == !z & (!x & y)
  {
    BothSet(x, y, z);
    BothClear(x, y, z);
    OneSet(x, y, z);
    OtherSet(x, y, z);
    hide H;
  }

  lemma BothSet(x: Word, y: Word, z: Word)
    ensures H(x, y, z) & (x & y) == z & (x & y)
  {
  }

  lemma BothClear(x: Word, y: Word, z: Word)
    ensures H(x, y, z) & (!x & !y) == z & (!x & !y)
  {
  }

  lemma OneSet(x: Word, y: Word, z: Word)
    ensures H(x, y, z) & (x & !y) == !z & (x & !y)
  {
  }

  lemma OtherSet(x: Word, y: Word, z: Word)
    ensures H(x, y, z) & (!x & y) == !z & (!x & y)
  {
  }

  // I compares x and y where z is set, and turns y over elsewhere.
  lemma IIsChoice(x: Word, y: Word, z: Word)
    ensures I(x, y, z) & z == (x ^ y) & z && I(x, y, z) & !z == !y & !z
  {
  }

  function Aux(round: nat, x: Word, y: Word, z: Word): Word {
    match round
    case 0 => F(x, y, z)
    case 1 => G(x, y, z)
    case 2 => H(x, y, z)
    case _ => I(x, y, z)
  }

  // b plus the rotated sum of a, the auxiliary value, a word of the block and a word of the table.
  function Mix(round: nat, a: Word, b: Word, c: Word, d: Word, xk: Word, s: nat, ti: Word): Word
    requires s < 32
  {
    b + (a + Aux(round, b, c, d) + xk + ti).RotateLeft(s)
  }

  // The word of the block that step i uses.
  function Index(i: nat): (k: nat)
    ensures k < 16
  {
    if i < 16 then i else if i < 32 then (5 * i + 1) % 16 else if i < 48 then (3 * i + 5) % 16 else (7 * i) % 16
  }

  function Shift(i: nat): (s: nat)
    ensures s < 32
  {
    var column := i % 4;
    match i / 16
    case 0 => 7 + 5 * column
    case 1 => if column == 0 then 5 else if column == 1 then 9 else if column == 2 then 14 else 20
    case 2 => if column == 0 then 4 else if column == 1 then 11 else if column == 2 then 16 else 23
    case _ => if column == 0 then 6 else if column == 1 then 10 else if column == 2 then 15 else 21
  }

  // Step i replaces the first register and turns the four of them round by one place.
  function StepAt(i: nat, r: Registers, x: seq<Word>, table: seq<Word>): Registers
    requires |x| == 16 && |table| == 65 && i < 64
  {
    Registers(r.d, Mix(i / 16, r.a, r.b, r.c, r.d, x[Index(i)], Shift(i), table[i + 1]), r.b, r.c)
  }

  function Steps(i: nat, n: nat, r: Registers, x: seq<Word>, table: seq<Word>): Registers
    requires |x| == 16 && |table| == 65 && i + n <= 64
    decreases n
  {
    if n == 0 then r else Steps(i + 1, n - 1, StepAt(i, r, x, table), x, table)
  }

  lemma {:induction false} StepsThen(i: nat, n: nat, m: nat, r: Registers, x: seq<Word>, table: seq<Word>)
    requires |x| == 16 && |table| == 65 && i + n + m <= 64
    ensures Steps(i + n, m, Steps(i, n, r, x, table), x, table) == Steps(i, n + m, r, x, table)
    decreases n
  {
    hide StepAt;
    if n != 0 {
      StepsThen(i + 1, n - 1, m, StepAt(i, r, x, table), x, table);
    }
  }

  // After four steps every register is back in its place.
  lemma FourSteps(i: nat, r: Registers, x: seq<Word>, table: seq<Word>)
    requires |x| == 16 && |table| == 65 && i + 4 <= 64 && i % 4 == 0
    ensures var a := Mix(i / 16, r.a, r.b, r.c, r.d, x[Index(i)], Shift(i), table[i + 1]);
            var d := Mix(i / 16, r.d, a, r.b, r.c, x[Index(i + 1)], Shift(i + 1), table[i + 2]);
            var c := Mix(i / 16, r.c, d, a, r.b, x[Index(i + 2)], Shift(i + 2), table[i + 3]);
            var b := Mix(i / 16, r.b, c, d, a, x[Index(i + 3)], Shift(i + 3), table[i + 4]);
            Steps(i, 4, r, x, table) == Registers(a, b, c, d)
  {
    hide Mix, Index, Shift;
    var r1 := StepAt(i, r, x, table);
    var r2 := StepAt(i + 1, r1, x, table);
    var r3 := StepAt(i + 2, r2, x, table);
    var r4 := StepAt(i + 3, r3, x, table);
    assert Steps(i, 4, r, x, table) == Steps(i + 1, 3, r1, x, table) == Steps(i + 2, 2, r2, x, table)
        == Steps(i + 3, 1, r3, x, table) == Steps(i + 4, 0, r4, x, table) == r4;
  }

  function WrappingAdd(v: Word, w: Word): Word {
    v + w
  }

  function Added(r: Registers, q: Registers): Registers {
    Registers(WrappingAdd(r.a, q.a), WrappingAdd(r.b, q.b), WrappingAdd(r.c, q.c), WrappingAdd(r.d, q.d))
  }

  // ----- Section 2: words are made of four bytes, low-order byte first

  function AsWord(v: nat): Word
    requires v < WIDTH32
  {
    v as Word
  }

  function WordOf(bytes: Bytes): Word
    requires |bytes| == 4
  {
    LeOfFromLe(bytes);
    Widths();
    AsWord(FromLe(bytes))
  }

  function Words(block: Bytes): (words: seq<Word>)
    ensures |words| == |block| / 4
  {
    seq(|block| / 4, i requires 0 <= i < |block| / 4 => WordOf(block[4 * i..4 * i + 4]))
  }

  function Compress(r: Registers, block: Bytes, table: seq<Word>): Registers
    requires |block| == 64 && |table| == 65
  {
    Added(Steps(0, 64, r, Words(block), table), r)
  }

  const INITIAL := Registers(0x67452301, 0xefcdab89, 0x98badcfe, 0x10325476)

  // All whole blocks in order.
  function CompressAll(r: Registers, data: Bytes, table: seq<Word>): Registers
    requires |table| == 65
    decreases |data|
  {
    if |data| < 64 then r else CompressAll(Compress(r, data[..64], table), data[64..], table)
  }

  // ----- Section 3.5: the digest, low-order byte of a first, in hexadecimal

  function Digit(v: nat): char
    requires v < 16
  {
    if v < 10 then '0' + v as char else 'a' + (v - 10) as char
  }

  // The n hexadecimal digits of v, most significant first.
  function Hex(v: nat, n: nat): (digits: string)
    ensures |digits| == n
  {
    if n == 0 then "" else Hex(v / 16, n - 1) + [Digit(v % 16)]
  }

  function HexBytes(bytes: Bytes): string {
    if bytes == [] then "" else HexBytes(bytes[..|bytes| - 1]) + Hex(bytes[|bytes| - 1], 2)
  }

  function Reversed(bytes: Bytes): (turned: Bytes)
    ensures |turned| == |bytes|
  {
    if bytes == [] then [] else [bytes[|bytes| - 1]] + Reversed(bytes[..|bytes| - 1])
  }

  function AsNumber(w: Word): nat {
    w as nat
  }

  function WordBytes(w: Word): Bytes {
    Le(AsNumber(w), 4)
  }

  // The word with its four bytes in the opposite order.
  function SwapBytes(w: Word): nat {
    FromLe(Reversed(WordBytes(w)))
  }

  // Printing the swapped number prints the bytes in their own order.
  lemma {:induction false} SwappedPrints(bytes: Bytes)
    ensures Hex(FromLe(Reversed(bytes)), 2 * |bytes|) == HexBytes(bytes)
  {
    if bytes != [] {
      var n := |bytes| - 1;
      ReversedValue(bytes);
      hide FromLe, Reversed, Hex;
      SwappedPrints(bytes[..n]);
      TwoDigits(bytes[n], FromLe(Reversed(bytes[..n])), 2 * n);
    }
  }

  lemma ReversedValue(bytes: Bytes)
    requires bytes != []
    ensures var n := |bytes| - 1; FromLe(Reversed(bytes)) == bytes[n] + 256 * FromLe(Reversed(bytes[..n]))
  {
    assert Reversed(bytes)[1..] == Reversed(bytes[..|bytes| - 1]);
  }

  lemma TwoDigits(low: nat, v: nat, n: nat)
    requires low < 256
    ensures Hex(low + 256 * v, n + 2) == Hex(v, n) + Hex(low, 2)
  {
    assert (low + 256 * v) / 16 == low / 16 + 16 * v && (low + 256 * v) % 16 == low % 16;
    assert (low / 16 + 16 * v) / 16 == v && (low / 16 + 16 * v) % 16 == low / 16;
    assert Hex(low / 16, 1) == Hex(0, 0) + [Digit(low / 16)];
  }

  function DigestBytes(message: Bytes, table: seq<Word>): Bytes
    requires |table| == 65
  {
    var r := CompressAll(INITIAL, Padded(message), table);
    WordBytes(r.a) + WordBytes(r.b) + WordBytes(r.c) + WordBytes(r.d)
  }

  lemma {:induction false} HexConcat(a: Bytes, b: Bytes)
    ensures HexBytes(a + b) == HexBytes(a) + HexBytes(b)
  {
    if b == [] {
      assert a + b == a;
    } else {
      assert (a + b)[..|a + b| - 1] == a + b[..|b| - 1];
      HexConcat(a, b[..|b| - 1]);
    }
  }
}
