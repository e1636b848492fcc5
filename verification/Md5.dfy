/** The MD5 of md5.rs in its own form: unrolled steps and loops, proved equal to the indexed definition of RFC 1321. */
module Md5 {
  import opened BitStream
  import opened Collections
  import opened Md5Spec
  import opened Wire

  // ----- The four unrolled rounds

  lemma RoundOneSchedule()
    ensures Index(0) == 0 && Index(1) == 1 && Index(2) == 2 && Index(3) == 3
    ensures Shift(0) == 7 && Shift(1) == 12 && Shift(2) == 17 && Shift(3) == 22
    ensures Index(4) == 4 && Index(5) == 5 && Index(6) == 6 && Index(7) == 7
    ensures Shift(4) == 7 && Shift(5) == 12 && Shift(6) == 17 && Shift(7) == 22
    ensures Index(8) == 8 && Index(9) == 9 && Index(10) == 10 && Index(11) == 11
    ensures Shift(8) == 7 && Shift(9) == 12 && Shift(10) == 17 && Shift(11) == 22
    ensures Index(12) == 12 && Index(13) == 13 && Index(14) == 14 && Index(15) == 15
    ensures Shift(12) == 7 && Shift(13) == 12 && Shift(14) == 17 && Shift(15) == 22
  {
  }

  method RoundOneOperations(a0: Word, b0: Word, c0: Word, d0: Word, table: seq<Word>, x: seq<Word>)
    returns (a: Word, b: Word, c: Word, d: Word)
    requires |x| == 16 && |table| == 65
    ensures Registers(a, b, c, d) == Steps(0, 16, Registers(a0, b0, c0, d0), x, table)
  {
    RoundOneSchedule();
    hide Mix, Steps, Index, Shift;
    ghost var start := Registers(a0, b0, c0, d0);
    a, b, c, d := a0, b0, c0, d0;

    FourSteps(0, Registers(a, b, c, d), x, table);
    a := Mix(0, a, b, c, d, x[0], 7, table[1]);
    d := Mix(0, d, a, b, c, x[1], 12, table[2]);
    c := Mix(0, c, d, a, b, x[2], 17, table[3]);
    b := Mix(0, b, c, d, a, x[3], 22, table[4]);

    FourSteps(4, Registers(a, b, c, d), x, table);
    StepsThen(0, 4, 4, start, x, table);
    a := Mix(0, a, b, c, d, x[4], 7, table[5]);
    d := Mix(0, d, a, b, c, x[5], 12, table[6]);
    c := Mix(0, c, d, a, b, x[6], 17, table[7]);
    b := Mix(0, b, c, d, a, x[7], 22, table[8]);

    FourSteps(8, Registers(a, b, c, d), x, table);
    StepsThen(0, 8, 4, start, x, table);
    a := Mix(0, a, b, c, d, x[8], 7, table[9]);
    d := Mix(0, d, a, b, c, x[9], 12, table[10]);
    c := Mix(0, c, d, a, b, x[10], 17, table[11]);
    b := Mix(0, b, c, d, a, x[11], 22, table[12]);

    FourSteps(12, Registers(a, b, c, d), x, table);
    StepsThen(0, 12, 4, start, x, table);
    a := Mix(0, a, b, c, d, x[12], 7, table[13]);
    d := Mix(0, d, a, b, c, x[13], 12, table[14]);
    c := Mix(0, c, d, a, b, x[14], 17, table[15]);
    b := Mix(0, b, c, d, a, x[15], 22, table[16]);
  }

  lemma RoundTwoSchedule()
    ensures Index(16) == 1 && Index(17) == 6 && Index(18) == 11 && Index(19) == 0
    ensures Shift(16) == 5 && Shift(17) == 9 && Shift(18) == 14 && Shift(19) == 20
    ensures Index(20) == 5 && Index(21) == 10 && Index(22) == 15 && Index(23) == 4
    ensures Shift(20) == 5 && Shift(21) == 9 && Shift(22) == 14 && Shift(23) == 20
    ensures Index(24) == 9 && Index(25) == 14 && Index(26) == 3 && Index(27) == 8
    ensures Shift(24) == 5 && Shift(25) == 9 && Shift(26) == 14 && Shift(27) == 20
    ensures Index(28) == 13 && Index(29) == 2 && Index(30) == 7 && Index(31) == 12
    ensures Shift(28) == 5 && Shift(29) == 9 && Shift(30) == 14 && Shift(31) == 20
  {
  }

  method RoundTwoOperations(a0: Word, b0: Word, c0: Word, d0: Word, table: seq<Word>, x: seq<Word>)
    returns (a: Word, b: Word, c: Word, d: Word)
    requires |x| == 16 && |table| == 65
    ensures Registers(a, b, c, d) == Steps(16, 16, Registers(a0, b0, c0, d0), x, table)
  {
    RoundTwoSchedule();
    hide Mix, Steps, Index, Shift;
    ghost var start := Registers(a0, b0, c0, d0);
    a, b, c, d := a0, b0, c0, d0;

    FourSteps(16, Registers(a, b, c, d), x, table);
    a := Mix(1, a, b, c, d, x[1], 5, table[17]);
    d := Mix(1, d, a, b, c, x[6], 9, table[18]);
    c := Mix(1, c, d, a, b, x[11], 14, table[19]);
    b := Mix(1, b, c, d, a, x[0], 20, table[20]);

    FourSteps(20, Registers(a, b, c, d), x, table);
    StepsThen(16, 4, 4, start, x, table);
    a := Mix(1, a, b, c, d, x[5], 5, table[21]);
    d := Mix(1, d, a, b, c, x[10], 9, table[22]);
    c := Mix(1, c, d, a, b, x[15], 14, table[23]);
    b := Mix(1, b, c, d, a, x[4], 20, table[24]);

    FourSteps(24, Registers(a, b, c, d), x, table);
    StepsThen(16, 8, 4, start, x, table);
    a := Mix(1, a, b, c, d, x[9], 5, table[25]);
    d := Mix(1, d, a, b, c, x[14], 9, table[26]);
    c := Mix(1, c, d, a, b, x[3], 14, table[27]);
    b := Mix(1, b, c, d, a, x[8], 20, table[28]);

    FourSteps(28, Registers(a, b, c, d), x, table);
    StepsThen(16, 12, 4, start, x, table);
    a := Mix(1, a, b, c, d, x[13], 5, table[29]);
    d := Mix(1, d, a, b, c, x[2], 9, table[30]);
    c := Mix(1, c, d, a, b, x[7], 14, table[31]);
    b := Mix(1, b, c, d, a, x[12], 20, table[32]);
  }

  lemma RoundThreeSchedule()
    ensures Index(32) == 5 && Index(33) == 8 && Index(34) == 11 && Index(35) == 14
    ensures Shift(32) == 4 && Shift(33) == 11 && Shift(34) == 16 && Shift(35) == 23
    ensures Index(36) == 1 && Index(37) == 4 && Index(38) == 7 && Index(39) == 10
    ensures Shift(36) == 4 && Shift(37) == 11 && Shift(38) == 16 && Shift(39) == 23
    ensures Index(40) == 13 && Index(41) == 0 && Index(42) == 3 && Index(43) == 6
    ensures Shift(40) == 4 && Shift(41) == 11 && Shift(42) == 16 && Shift(43) == 23
    ensures Index(44) == 9 && Index(45) == 12 && Index(46) == 15 && Index(47) == 2
    ensures Shift(44) == 4 && Shift(45) == 11 && Shift(46) == 16 && Shift(47) == 23
  {
  }

  method RoundThreeOperations(a0: Word, b0: Word, c0: Word, d0: Word, table: seq<Word>, x: seq<Word>)
    returns (a: Word, b: Word, c: Word, d: Word)
    requires |x| == 16 && |table| == 65
    ensures Registers(a, b, c, d) == Steps(32, 16, Registers(a0, b0, c0, d0), x, table)
  {
    RoundThreeSchedule();
    hide Mix, Steps, Index, Shift;
    ghost var start := Registers(a0, b0, c0, d0);
    a, b, c, d := a0, b0, c0, d0;

    FourSteps(32, Registers(a, b, c, d), x, table);
    a := Mix(2, a, b, c, d, x[5], 4, table[33]);
    d := Mix(2, d, a, b, c, x[8], 11, table[34]);
    c := Mix(2, c, d, a, b, x[11], 16, table[35]);
    b := Mix(2, b, c, d, a, x[14], 23, table[36]);

    FourSteps(36, Registers(a, b, c, d), x, table);
    StepsThen(32, 4, 4, start, x, table);
    a := Mix(2, a, b, c, d, x[1], 4, table[37]);
    d := Mix(2, d, a, b, c, x[4], 11, table[38]);
    c := Mix(2, c, d, a, b, x[7], 16, table[39]);
    b := Mix(2, b, c, d, a, x[10], 23, table[40]);

    FourSteps(40, Registers(a, b, c, d), x, table);
    StepsThen(32, 8, 4, start, x, table);
    a := Mix(2, a, b, c, d, x[13], 4, table[41]);
    d := Mix(2, d, a, b, c, x[0], 11, table[42]);
    c := Mix(2, c, d, a, b, x[3], 16, table[43]);
    b := Mix(2, b, c, d, a, x[6], 23, table[44]);

    FourSteps(44, Registers(a, b, c, d), x, table);
    StepsThen(32, 12, 4, start, x, table);
    a := Mix(2, a, b, c, d, x[9], 4, table[45]);
    d := Mix(2, d, a, b, c, x[12], 11, table[46]);
    c := Mix(2, c, d, a, b, x[15], 16, table[47]);
    b := Mix(2, b, c, d, a, x[2], 23, table[48]);
  }

  lemma RoundFourSchedule()
    ensures Index(48) == 0 && Index(49) == 7 && Index(50) == 14 && Index(51) == 5
    ensures Shift(48) == 6 && Shift(49) == 10 && Shift(50) == 15 && Shift(51) == 21
    ensures Index(52) == 12 && Index(53) == 3 && Index(54) == 10 && Index(55) == 1
    ensures Shift(52) == 6 && Shift(53) == 10 && Shift(54) == 15 && Shift(55) == 21
    ensures Index(56) == 8 && Index(57) == 15 && Index(58) == 6 && Index(59) == 13
    ensures Shift(56) == 6 && Shift(57) == 10 && Shift(58) == 15 && Shift(59) == 21
    ensures Index(60) == 4 && Index(61) == 11 && Index(62) == 2 && Index(63) == 9
    ensures Shift(60) == 6 && Shift(61) == 10 && Shift(62) == 15 && Shift(63) == 21
  {
  }

  method RoundFourOperations(a0: Word, b0: Word, c0: Word, d0: Word, table: seq<Word>, x: seq<Word>)
    returns (a: Word, b: Word, c: Word, d: Word)
    requires |x| == 16 && |table| == 65
    ensures Registers(a, b, c, d) == Steps(48, 16, Registers(a0, b0, c0, d0), x, table)
  {
    RoundFourSchedule();
    hide Mix, Steps, Index, Shift;
    ghost var start := Registers(a0, b0, c0, d0);
    a, b, c, d := a0, b0, c0, d0;

    FourSteps(48, Registers(a, b, c, d), x, table);
    a := Mix(3, a, b, c, d, x[0], 6, table[49]);
    d := Mix(3, d, a, b, c, x[7], 10, table[50]);
    c := Mix(3, c, d, a, b, x[14], 15, table[51]);
    b := Mix(3, b, c, d, a, x[5], 21, table[52]);

    FourSteps(52, Registers(a, b, c, d), x, table);
    StepsThen(48, 4, 4, start, x, table);
    a := Mix(3, a, b, c, d, x[12], 6, table[53]);
    d := Mix(3, d, a, b, c, x[3], 10, table[54]);
    c := Mix(3, c, d, a, b, x[10], 15, table[55]);
    b := Mix(3, b, c, d, a, x[1], 21, table[56]);

    FourSteps(56, Registers(a, b, c, d), x, table);
    StepsThen(48, 8, 4, start, x, table);
    a := Mix(3, a, b, c, d, x[8], 6, table[57]);
    d := Mix(3, d, a, b, c, x[15], 10, table[58]);
    c := Mix(3, c, d, a, b, x[6], 15, table[59]);
    b := Mix(3, b, c, d, a, x[13], 21, table[60]);

    FourSteps(60, Registers(a, b, c, d), x, table);
    StepsThen(48, 12, 4, start, x, table);
    a := Mix(3, a, b, c, d, x[4], 6, table[61]);
    d := Mix(3, d, a, b, c, x[11], 10, table[62]);
    c := Mix(3, c, d, a, b, x[2], 15, table[63]);
    b := Mix(3, b, c, d, a, x[9], 21, table[64]);
  }

  // ----- Words, blocks and padding

  method ConvertChunk(chunk: Bytes) returns (x: seq<Word>)
    ensures x == Words(chunk)
  {
    x := [];
    var count := 0;
    var temporary: Bytes := [];
    ghost var n := 0;
    assert Words(chunk[..0]) == [];
    hide Words, WordOf;
    for i := 0 to |chunk|
      invariant 0 <= count < 4 && n % 4 == 0 && i == n + count
      invariant temporary == chunk[n..i] && x == Words(chunk[..n])
    {
      temporary := temporary + [chunk[i]];
      count := count + 1;
      assert temporary == chunk[n..n + count];
      if count == 4 {
        WordsNext(chunk, n);
        x := x + [WordOf(temporary)];
        count := 0;
        temporary := [];
        n := n + 4;
      }
    }
    WordsWhole(chunk, n);
  }

  lemma WordsNext(chunk: Bytes, n: nat)
    requires n % 4 == 0
    ensures n + 4 <= |chunk| ==> Words(chunk[..n + 4]) == Words(chunk[..n]) + [WordOf(chunk[n..n + 4])]
  {
    hide WordOf;
    if n + 4 <= |chunk| {
      forall k | 0 <= k < n / 4 ensures Words(chunk[..n + 4])[k] == Words(chunk[..n])[k] {
        SliceOfStart(chunk, n + 4, 4 * k, 4 * k + 4);
        SliceOfStart(chunk, n, 4 * k, 4 * k + 4);
      }
      SliceOfStart(chunk, n + 4, n, n + 4);
      assert 4 * (n / 4) == n && |Words(chunk[..n + 4])| == n / 4 + 1;
    }
  }

  lemma SliceOfStart(chunk: Bytes, n: nat, i: nat, j: nat)
    requires i <= j <= n <= |chunk|
    ensures chunk[..n][i..j] == chunk[i..j]
  {
  }

  // Bytes that do not fill a word are left out.
  lemma WordsWhole(chunk: Bytes, n: nat)
    requires n % 4 == 0 && n <= |chunk| < n + 4
    ensures Words(chunk[..n]) == Words(chunk)
  {
    hide WordOf;
    forall k | 0 <= k < n / 4 ensures Words(chunk[..n])[k] == Words(chunk)[k] {
      SliceOfStart(chunk, n, 4 * k, 4 * k + 4);
    }
  }

  method BitPadding(input: Bytes) returns (padded: Bytes)
    ensures padded == Padded(input)
  {
    var bitLength := 8 * |input| % (WIDTH32 * WIDTH32);
    padded := input + [128];
    ghost var zeros := 0;
    while 8 * |padded| % 512 != 448
      invariant padded == input + [128] + Repeat(0, zeros) && zeros <= ZeroCount(|input|)
      decreases ZeroCount(|input|) - zeros
    {
      MoreZeros(|input|, zeros);
      padded := padded + [0];
      zeros := zeros + 1;
    }
    EnoughZeros(|input|, zeros);
    LengthBytes(8 * |input|);
    padded := padded + Le(bitLength, 8);
  }

  lemma MoreZeros(length: nat, zeros: nat)
    requires zeros <= ZeroCount(length) && 8 * (length + 1 + zeros) % 512 != 448
    ensures zeros < ZeroCount(length)
  {
  }

  lemma EnoughZeros(length: nat, zeros: nat)
    requires zeros <= ZeroCount(length) && 8 * (length + 1 + zeros) % 512 == 448
    ensures zeros == ZeroCount(length)
  {
    EightTimes(length + 1 + zeros);
    FewestZeros(length, zeros);
    hide LeavesEight, ZeroCount;
  }

  lemma EightTimes(n: nat)
    ensures 8 * n % 512 == 8 * (n % 64)
  {
    assert 8 * n == 512 * (n / 64) + 8 * (n % 64);
  }

  // Eight bytes hold the low 64 bits.
  lemma LengthBytes(v: nat)
    ensures Le(v % (WIDTH32 * WIDTH32), 8) == Le(v, 8)
  {
    Widths();
    FromLeOfLe(v, 8);
    LeOfFromLe(Le(v, 8));
  }

  // One round of the loop over the blocks.
  method CompressBlock(aa: Word, bb: Word, cc: Word, dd: Word, block: Bytes, table: seq<Word>)
    returns (a: Word, b: Word, c: Word, d: Word)
    requires |block| == 64 && |table| == 65
    ensures Registers(a, b, c, d) == Compress(Registers(aa, bb, cc, dd), block, table)
  {
    hide Steps, Words, WrappingAdd;
    var x := ConvertChunk(block);
    a, b, c, d := FourRounds(aa, bb, cc, dd, table, x);
    a, b, c, d := WrappingAdd(a, aa), WrappingAdd(b, bb), WrappingAdd(c, cc), WrappingAdd(d, dd);
  }

  method FourRounds(a0: Word, b0: Word, c0: Word, d0: Word, table: seq<Word>, x: seq<Word>)
    returns (a: Word, b: Word, c: Word, d: Word)
    requires |x| == 16 && |table| == 65
    ensures Registers(a, b, c, d) == Steps(0, 64, Registers(a0, b0, c0, d0), x, table)
  {
    hide Steps;
    AllRounds(Registers(a0, b0, c0, d0), x, table);
    a, b, c, d := RoundOneOperations(a0, b0, c0, d0, table, x);
    a, b, c, d := RoundTwoOperations(a, b, c, d, table, x);
    a, b, c, d := RoundThreeOperations(a, b, c, d, table, x);
    a, b, c, d := RoundFourOperations(a, b, c, d, table, x);
  }

  lemma AllRounds(r: Registers, x: seq<Word>, table: seq<Word>)
    requires |x| == 16 && |table| == 65
    ensures Steps(48, 16, Steps(32, 16, Steps(16, 16, Steps(0, 16, r, x, table), x, table), x, table), x, table)
         == Steps(0, 64, r, x, table)
  {
    hide Steps;
    StepsThen(0, 16, 16, r, x, table);
    StepsThen(0, 32, 16, r, x, table);
    StepsThen(0, 48, 16, r, x, table);
  }

  method ComputeMd5Digest(v: Bytes, table: seq<Word>) returns (digest: string)
    requires |table| == 65
    ensures var r := CompressAll(INITIAL, v, table);
            digest == HexBytes(WordBytes(r.a) + WordBytes(r.b) + WordBytes(r.c) + WordBytes(r.d))
  {
    hide Compress, HexBytes, WordBytes, SwapBytes, Hex;
    var a: Word, b: Word, c: Word, d: Word := 0x67452301, 0xefcdab89, 0x98badcfe, 0x10325476;
    var rest := v;
    while |rest| >= 64
      invariant CompressAll(Registers(a, b, c, d), rest, table) == CompressAll(INITIAL, v, table)
      decreases |rest|
    {
      a, b, c, d := CompressBlock(a, b, c, d, rest[..64], table);
      rest := rest[64..];
    }
    digest := Hex(SwapBytes(a), 8) + Hex(SwapBytes(b), 8) + Hex(SwapBytes(c), 8) + Hex(SwapBytes(d), 8);
    DigestPrints(a, b, c, d);
  }

  lemma DigestPrints(a: Word, b: Word, c: Word, d: Word)
    ensures HexBytes(WordBytes(a) + WordBytes(b) + WordBytes(c) + WordBytes(d))
         == Hex(SwapBytes(a), 8) + Hex(SwapBytes(b), 8) + Hex(SwapBytes(c), 8) + Hex(SwapBytes(d), 8)
  {
    var p, q, r, s := WordBytes(a), WordBytes(b), WordBytes(c), WordBytes(d);
    HexConcat(p + q + r, s);
    HexConcat(p + q, r);
    HexConcat(p, q);
    SwappedPrints(p);
    SwappedPrints(q);
    SwappedPrints(r);
    SwappedPrints(s);
    hide HexBytes, Hex, FromLe, Reversed;
  }

  method ComputeMd5(input: Bytes, table: seq<Word>) returns (digest: string)
    requires |table| == 65
    ensures digest == HexBytes(DigestBytes(input, table))
  {
    var padded := BitPadding(input);
    digest := ComputeMd5Digest(padded, table);
  }
}
