/**
 The digest of the capital letters, the small letters and the digits, which md5.rs tests and section A.5 of RFC 1321
 lists: two blocks, of which the first has no word twice, computed by the specification.
 */
module Md5Vector {
  import opened BitStream
  import opened Collections
  import Md5
  import opened Md5Spec
  import opened Wire

  // ----- The table of section 3.4: entry i is the whole part of 2^32 times |sin(i)|

  predicate SinesOne(t: seq<Word>) {
    && |t| == 65
    && t[1] == 0xd76aa478 && t[2] == 0xe8c7b756 && t[3] == 0x242070db && t[4] == 0xc1bdceee
    && t[5] == 0xf57c0faf && t[6] == 0x4787c62a && t[7] == 0xa8304613 && t[8] == 0xfd469501
    && t[9] == 0x698098d8 && t[10] == 0x8b44f7af && t[11] == 0xffff5bb1 && t[12] == 0x895cd7be
    && t[13] == 0x6b901122 && t[14] == 0xfd987193 && t[15] == 0xa679438e && t[16] == 0x49b40821
  }

  predicate SinesTwo(t: seq<Word>) {
    && |t| == 65
    && t[17] == 0xf61e2562 && t[18] == 0xc040b340 && t[19] == 0x265e5a51 && t[20] == 0xe9b6c7aa
    && t[21] == 0xd62f105d && t[22] == 0x02441453 && t[23] == 0xd8a1e681 && t[24] == 0xe7d3fbc8
    && t[25] == 0x21e1cde6 && t[26] == 0xc33707d6 && t[27] == 0xf4d50d87 && t[28] == 0x455a14ed
    && t[29] == 0xa9e3e905 && t[30] == 0xfcefa3f8 && t[31] == 0x676f02d9 && t[32] == 0x8d2a4c8a
  }

  predicate SinesThree(t: seq<Word>) {
    && |t| == 65
    && t[33] == 0xfffa3942 && t[34] == 0x8771f681 && t[35] == 0x6d9d6122 && t[36] == 0xfde5380c
    && t[37] == 0xa4beea44 && t[38] == 0x4bdecfa9 && t[39] == 0xf6bb4b60 && t[40] == 0xbebfbc70
    && t[41] == 0x289b7ec6 && t[42] == 0xeaa127fa && t[43] == 0xd4ef3085 && t[44] == 0x04881d05
    && t[45] == 0xd9d4d039 && t[46] == 0xe6db99e5 && t[47] == 0x1fa27cf8 && t[48] == 0xc4ac5665
  }

  predicate SinesFour(t: seq<Word>) {
    && |t| == 65
    && t[49] == 0xf4292244 && t[50] == 0x432aff97 && t[51] == 0xab9423a7 && t[52] == 0xfc93a039
    && t[53] == 0x655b59c3 && t[54] == 0x8f0ccc92 && t[55] == 0xffeff47d && t[56] == 0x85845dd1
    && t[57] == 0x6fa87e4f && t[58] == 0xfe2ce6e0 && t[59] == 0xa3014314 && t[60] == 0x4e0811a1
    && t[61] == 0xf7537e82 && t[62] == 0xbd3af235 && t[63] == 0x2ad7d2bb && t[64] == 0xeb86d391
  }

  predicate SineTable(t: seq<Word>) {
    SinesOne(t) && SinesTwo(t) && SinesThree(t) && SinesFour(t)
  }

  // ----- The two blocks

  predicate FirstBlock(x: seq<Word>) {
    && |x| == 16
    && x[0] == 0x44434241 && x[1] == 0x48474645 && x[2] == 0x4c4b4a49 && x[3] == 0x504f4e4d
    && x[4] == 0x54535251 && x[5] == 0x58575655 && x[6] == 0x62615a59 && x[7] == 0x66656463
    && x[8] == 0x6a696867 && x[9] == 0x6e6d6c6b && x[10] == 0x7271706f && x[11] == 0x76757473
    && x[12] == 0x7a797877 && x[13] == 0x33323130 && x[14] == 0x37363534 && x[15] == 0x00803938
  }

  predicate SecondBlock(x: seq<Word>) {
    && |x| == 16
    && x[0] == 0x00000000 && x[1] == 0x00000000 && x[2] == 0x00000000 && x[3] == 0x00000000
    && x[4] == 0x00000000 && x[5] == 0x00000000 && x[6] == 0x00000000 && x[7] == 0x00000000
    && x[8] == 0x00000000 && x[9] == 0x00000000 && x[10] == 0x00000000 && x[11] == 0x00000000
    && x[12] == 0x00000000 && x[13] == 0x00000000 && x[14] == 0x000001f0 && x[15] == 0x00000000
  }

  // Four steps, given what the four registers become.
  lemma FourTo(i: nat, r: Registers, x: seq<Word>, t: seq<Word>, a: Word, d: Word, c: Word, b: Word)
    requires |x| == 16 && |t| == 65 && i + 4 <= 64 && i % 4 == 0
    requires Mix(i / 16, r.a, r.b, r.c, r.d, x[Index(i)], Shift(i), t[i + 1]) == a
    requires Mix(i / 16, r.d, a, r.b, r.c, x[Index(i + 1)], Shift(i + 1), t[i + 2]) == d
    requires Mix(i / 16, r.c, d, a, r.b, x[Index(i + 2)], Shift(i + 2), t[i + 3]) == c
    requires Mix(i / 16, r.b, c, d, a, x[Index(i + 3)], Shift(i + 3), t[i + 4]) == b
    ensures Steps(i, 4, r, x, t) == Registers(a, b, c, d)
  {
    FourSteps(i, r, x, t);
    hide Mix, Index, Shift, Steps;
  }

  lemma FourFours(i: nat, r: Registers, x: seq<Word>, t: seq<Word>)
    requires |x| == 16 && |t| == 65 && i + 16 <= 64
    ensures Steps(i, 16, r, x, t)
         == Steps(i + 12, 4, Steps(i + 8, 4, Steps(i + 4, 4, Steps(i, 4, r, x, t), x, t), x, t), x, t)
  {
    hide Steps;
    StepsThen(i, 4, 4, r, x, t);
    StepsThen(i, 8, 4, r, x, t);
    StepsThen(i, 12, 4, r, x, t);
  }

  // ----- The first block

  lemma FirstRoundOne(x: seq<Word>, t: seq<Word>)
    requires FirstBlock(x) && SinesOne(t)
    ensures Steps(0, 16, Registers(0x67452301, 0xefcdab89, 0x98badcfe, 0x10325476), x, t)
         == Registers(0x3cbdcd45, 0x5d38e690, 0xfa148c8a, 0xb8dec763)
  {
    Md5.RoundOneSchedule();
    hide Index, Shift, Steps;
    FourTo(0, Registers(0x67452301, 0xefcdab89, 0x98badcfe, 0x10325476), x, t,
           0xc6c10796, 0x99a09999, 0x11067980, 0x27bce07a);
    FourTo(4, Registers(0xc6c10796, 0x27bce07a, 0x11067980, 0x99a09999), x, t,
           0xf22e6c4e, 0xb4ac9218, 0xa95a2fc0, 0xa4799506);
    FourTo(8, Registers(0xf22e6c4e, 0xa4799506, 0xa95a2fc0, 0xb4ac9218), x, t,
           0x1eb3e7c1, 0xa6e70cfe, 0xca27520b, 0x8a7612ec);
    FourTo(12, Registers(0x1eb3e7c1, 0x8a7612ec, 0xca27520b, 0xa6e70cfe), x, t,
           0x3cbdcd45, 0xb8dec763, 0xfa148c8a, 0x5d38e690);
    FourFours(0, Registers(0x67452301, 0xefcdab89, 0x98badcfe, 0x10325476), x, t);
  }

  lemma FirstRoundTwo(x: seq<Word>, t: seq<Word>)
    requires FirstBlock(x) && SinesTwo(t)
    ensures Steps(16, 16, Registers(0x3cbdcd45, 0x5d38e690, 0xfa148c8a, 0xb8dec763), x, t)
         == Registers(0x9b085fa9, 0xdd789ecc, 0x5993248f, 0x4400a9bd)
  {
    Md5.RoundTwoSchedule();
    hide Index, Shift, Steps;
    FourTo(16, Registers(0x3cbdcd45, 0x5d38e690, 0xfa148c8a, 0xb8dec763), x, t,
           0x04b9d52a, 0x783002eb, 0xd3ee3ed1, 0x47ae7c81);
    FourTo(20, Registers(0x04b9d52a, 0x47ae7c81, 0xd3ee3ed1, 0x783002eb), x, t,
           0x2d7d8a3f, 0xd1210823, 0x4b534dc3, 0x75292030);
    FourTo(24, Registers(0x2d7d8a3f, 0x75292030, 0x4b534dc3, 0xd1210823), x, t,
           0x9d2a6e33, 0x0e8d2e44, 0xd473b564, 0xf2ff6ea0);
    FourTo(28, Registers(0x9d2a6e33, 0xf2ff6ea0, 0xd473b564, 0x0e8d2e44), x, t,
           0x9b085fa9, 0x4400a9bd, 0x5993248f, 0xdd789ecc);
    FourFours(16, Registers(0x3cbdcd45, 0x5d38e690, 0xfa148c8a, 0xb8dec763), x, t);
  }

  lemma FirstRoundThree(x: seq<Word>, t: seq<Word>)
    requires FirstBlock(x) && SinesThree(t)
    ensures Steps(32, 16, Registers(0x9b085fa9, 0xdd789ecc, 0x5993248f, 0x4400a9bd), x, t)
         == Registers(0x2dbee21d, 0xf166f514, 0xee46e961, 0xe95c3a43)
  {
    Md5.RoundThreeSchedule();
    hide Index, Shift, Steps;
    FourTo(32, Registers(0x9b085fa9, 0xdd789ecc, 0x5993248f, 0x4400a9bd), x, t,
           0x21c8d2b7, 0x1d55a18e, 0x056ec119, 0x1b9504f8);
    FourTo(36, Registers(0x21c8d2b7, 0x1b9504f8, 0x056ec119, 0x1d55a18e), x, t,
           0x436b7fe9, 0x075800c1, 0xf404c2f6, 0xcf0341ed);
    FourTo(40, Registers(0x436b7fe9, 0xcf0341ed, 0xf404c2f6, 0x075800c1), x, t,
           0x888e7d8a, 0xbbdaecd8, 0xce620273, 0x047b9419);
    FourTo(44, Registers(0x888e7d8a, 0x047b9419, 0xce620273, 0xbbdaecd8), x, t,
           0x2dbee21d, 0xe95c3a43, 0xee46e961, 0xf166f514);
    FourFours(32, Registers(0x9b085fa9, 0xdd789ecc, 0x5993248f, 0x4400a9bd), x, t);
  }

  lemma FirstRoundFour(x: seq<Word>, t: seq<Word>)
    requires FirstBlock(x) && SinesFour(t)
    ensures Steps(48, 16, Registers(0x2dbee21d, 0xf166f514, 0xee46e961, 0xe95c3a43), x, t)
         == Registers(0x1cb80f0a, 0xef2e3a46, 0x10f68731, 0xea3d3eb4)
  {
    Md5.RoundFourSchedule();
    hide Index, Shift, Steps;
    FourTo(48, Registers(0x2dbee21d, 0xf166f514, 0xee46e961, 0xe95c3a43), x, t,
           0xe47fd4f3, 0xfb887751, 0xf22aedcc, 0x7a13bc5c);
    FourTo(52, Registers(0xe47fd4f3, 0x7a13bc5c, 0xf22aedcc, 0xfb887751), x, t,
           0xa691d430, 0x528452f2, 0x3fc23df6, 0xefb0e72f);
    FourTo(56, Registers(0xa691d430, 0xefb0e72f, 0x3fc23df6, 0x528452f2), x, t,
           0x27145703, 0x21a11069, 0x374fbe79, 0x49d9a5b4);
    FourTo(60, Registers(0x27145703, 0x49d9a5b4, 0x374fbe79, 0x21a11069), x, t,
           0x1cb80f0a, 0xea3d3eb4, 0x10f68731, 0xef2e3a46);
    FourFours(48, Registers(0x2dbee21d, 0xf166f514, 0xee46e961, 0xe95c3a43), x, t);
  }

  lemma FirstCompressed(block: Bytes, t: seq<Word>)
    requires |block| == 64 && FirstBlock(Words(block)) && SineTable(t)
    ensures Compress(Registers(0x67452301, 0xefcdab89, 0x98badcfe, 0x10325476), block, t)
         == Registers(0x83fd320b, 0xdefbe5cf, 0xa9b1642f, 0xfa6f932a)
  {
    var x := Words(block);
    FirstRoundOne(x, t);
    FirstRoundTwo(x, t);
    FirstRoundThree(x, t);
    FirstRoundFour(x, t);
    Md5.AllRounds(Registers(0x67452301, 0xefcdab89, 0x98badcfe, 0x10325476), x, t);
    hide Steps, Words;
  }

  // ----- The second block

  lemma SecondRoundOne(x: seq<Word>, t: seq<Word>)
    requires SecondBlock(x) && SinesOne(t)
    ensures Steps(0, 16, Registers(0x83fd320b, 0xdefbe5cf, 0xa9b1642f, 0xfa6f932a), x, t)
         == Registers(0xa70737da, 0xa36f556f, 0x96f6586e, 0x5473f8a7)
  {
    Md5.RoundOneSchedule();
    hide Index, Shift, Steps;
    FourTo(0, Registers(0x83fd320b, 0xdefbe5cf, 0xa9b1642f, 0xfa6f932a), x, t,
           0xeda23ed1, 0x989939cf, 0x3c307338, 0xddcf0634);
    FourTo(4, Registers(0xeda23ed1, 0xddcf0634, 0x3c307338, 0x989939cf), x, t,
           0x75144433, 0xc8875807, 0xc783cb60, 0x99b6b699);
    FourTo(8, Registers(0x75144433, 0x99b6b699, 0xc783cb60, 0xc8875807), x, t,
           0xa60a3f69, 0xaa6630be, 0x64db26e9, 0x64cc7c5a);
    FourTo(12, Registers(0xa60a3f69, 0x64cc7c5a, 0x64db26e9, 0xaa6630be), x, t,
           0xa70737da, 0x5473f8a7, 0x96f6586e, 0xa36f556f);
    FourFours(0, Registers(0x83fd320b, 0xdefbe5cf, 0xa9b1642f, 0xfa6f932a), x, t);
  }

  lemma SecondRoundTwo(x: seq<Word>, t: seq<Word>)
    requires SecondBlock(x) && SinesTwo(t)
    ensures Steps(16, 16, Registers(0xa70737da, 0xa36f556f, 0x96f6586e, 0x5473f8a7), x, t)
         == Registers(0x24eba695, 0x9c03e2e8, 0x10c42a2f, 0x4bd0378b)
  {
    Md5.RoundTwoSchedule();
    hide Index, Shift, Steps;
    FourTo(16, Registers(0xa70737da, 0xa36f556f, 0x96f6586e, 0x5473f8a7), x, t,
           0xa5050ad3, 0x28776046, 0x27dcd8b4, 0x82b8827c);
    FourTo(20, Registers(0xa5050ad3, 0x82b8827c, 0x27dcd8b4, 0x28776046), x, t,
           0xe04f070c, 0x2f3cd2a2, 0xc0d22b61, 0xdf35cb56);
    FourTo(24, Registers(0xe04f070c, 0xdf35cb56, 0xc0d22b61, 0x2f3cd2a2), x, t,
           0x242dd210, 0x576ace33, 0x5c295967, 0x2291191a);
    FourTo(28, Registers(0x242dd210, 0x2291191a, 0x5c295967, 0x576ace33), x, t,
           0x24eba695, 0x4bd0378b, 0x10c42a2f, 0x9c03e2e8);
    FourFours(16, Registers(0xa70737da, 0xa36f556f, 0x96f6586e, 0x5473f8a7), x, t);
  }

  lemma SecondRoundThree(x: seq<Word>, t: seq<Word>)
    requires SecondBlock(x) && SinesThree(t)
    ensures Steps(32, 16, Registers(0x24eba695, 0x9c03e2e8, 0x10c42a2f, 0x4bd0378b), x, t)
         == Registers(0x54c9eb3a, 0x79c0710a, 0x2ec86f72, 0xd4d9c6ac)
  {
    Md5.RoundThreeSchedule();
    hide Index, Shift, Steps;
    FourTo(32, Registers(0x24eba695, 0x9c03e2e8, 0x10c42a2f, 0x4bd0378b), x, t,
           0x5be1d526, 0x9e414279, 0x9f4a1a7e, 0xa2448453);
    FourTo(36, Registers(0x5be1d526, 0xa2448453, 0x9f4a1a7e, 0x9e414279), x, t,
           0xe14e403d, 0xe8cfd670, 0x60cc183a, 0xfe314121);
    FourTo(40, Registers(0xe14e403d, 0xfe314121, 0x60cc183a, 0xe8cfd670), x, t,
           0xfff62809, 0xe37209ac, 0x8cb5221c, 0x7c7e974c);
    FourTo(44, Registers(0xfff62809, 0x7c7e974c, 0x8cb5221c, 0xe37209ac), x, t,
           0x54c9eb3a, 0xd4d9c6ac, 0x2ec86f72, 0x79c0710a);
    FourFours(32, Registers(0x24eba695, 0x9c03e2e8, 0x10c42a2f, 0x4bd0378b), x, t);
  }

  lemma SecondRoundFour(x: seq<Word>, t: seq<Word>)
    requires SecondBlock(x) && SinesFour(t)
    ensures Steps(48, 16, Registers(0x54c9eb3a, 0x79c0710a, 0x2ec86f72, 0xd4d9c6ac), x, t)
         == Registers(0x14ae42c6, 0x16dd9203, 0x826afd76, 0xa52dae75)
  {
    Md5.RoundFourSchedule();
    hide Index, Shift, Steps;
    FourTo(48, Registers(0x54c9eb3a, 0x79c0710a, 0x2ec86f72, 0xd4d9c6ac), x, t,
           0x02095af1, 0x13d245fd, 0xa8dcfe26, 0x2ba98e3f);
    FourTo(52, Registers(0x02095af1, 0x2ba98e3f, 0xa8dcfe26, 0x13d245fd), x, t,
           0xe126c1aa, 0x96b00fa7, 0x6f287ff5, 0xfb7bcee0);
    FourTo(56, Registers(0xe126c1aa, 0xfb7bcee0, 0x6f287ff5, 0x96b00fa7), x, t,
           0x452c1099, 0xca801ba6, 0xc197ea8e, 0x5ac74608);
    FourTo(60, Registers(0x452c1099, 0x5ac74608, 0xc197ea8e, 0xca801ba6), x, t,
           0x14ae42c6, 0xa52dae75, 0x826afd76, 0x16dd9203);
    FourFours(48, Registers(0x54c9eb3a, 0x79c0710a, 0x2ec86f72, 0xd4d9c6ac), x, t);
  }

  lemma SecondCompressed(block: Bytes, t: seq<Word>)
    requires |block| == 64 && SecondBlock(Words(block)) && SineTable(t)
    ensures Compress(Registers(0x83fd320b, 0xdefbe5cf, 0xa9b1642f, 0xfa6f932a), block, t)
         == Registers(0x98ab74d1, 0xf5d977d2, 0x2c1c61a5, 0x9f9d419f)
  {
    var x := Words(block);
    SecondRoundOne(x, t);
    SecondRoundTwo(x, t);
    SecondRoundThree(x, t);
    SecondRoundFour(x, t);
    Md5.AllRounds(Registers(0x83fd320b, 0xdefbe5cf, 0xa9b1642f, 0xfa6f932a), x, t);
    hide Steps, Words;
  }

  // ----- The message

  function Character(i: nat): byte
    requires i < 62
  {
    if i < 26 then 65 + i else if i < 52 then 71 + i else i - 4
  }

  function Message(): (message: Bytes)
    ensures |message| == 62
  {
    seq(62, i requires 0 <= i < 62 => Character(i))
  }

  // What stands in the padded message: behind the 62 bytes 128, and at the end the length of 496 bits.
  function PaddedByte(i: nat): byte
    requires i < 128
  {
    if i < 62 then Character(i) else if i == 62 then 128 else if i == 120 then 240 else if i == 121 then 1 else 0
  }

  lemma PaddedMessage()
    ensures |Padded(Message())| == 128
    ensures forall i | 0 <= i < 128 :: Padded(Message())[i] == PaddedByte(i)
  {
    assert ZeroCount(62) == 57;
    LengthBytes();
    hide Le;
  }

  lemma LengthBytes()
    ensures Le(496, 8) == [240, 1] + Repeat(0, 6)
  {
    assert 496 % 256 == 240 && 496 / 256 == 1 && 1 % 256 == 1 && 1 / 256 == 0;
    assert Le(496, 8) == [240] + Le(1, 7);
    assert Le(1, 7) == [1] + Le(0, 6);
    NoBytes(6);
    hide Le;
  }

  lemma {:induction false} NoBytes(n: nat)
    ensures Le(0, n) == Repeat(0, n)
  {
    if n != 0 {
      NoBytes(n - 1);
    }
  }

  // Four bytes as a number, low-order byte first.
  function Four(a: nat, b: nat, c: nat, d: nat): nat {
    a + 256 * b + 65536 * c + 16777216 * d
  }

  lemma FromLeFour(bytes: Bytes)
    requires |bytes| == 4
    ensures FromLe(bytes) == Four(bytes[0], bytes[1], bytes[2], bytes[3])
  {
    assert bytes[1..][1..] == bytes[2..] && bytes[2..][1..] == bytes[3..] && bytes[3..][1..] == [];
    assert FromLe(bytes[3..]) == bytes[3];
    assert FromLe(bytes[2..]) == Four(bytes[2], bytes[3], 0, 0);
  }

  lemma WordAt(block: Bytes, k: nat, base: nat, v: nat)
    requires |block| == 64 && k < 16 && base % 64 == 0 && base <= 64 && v < WIDTH32
    requires forall i | 0 <= i < 64 :: block[i] == PaddedByte(base + i)
    requires Four(PaddedByte(base + 4 * k), PaddedByte(base + 4 * k + 1), PaddedByte(base + 4 * k + 2),
                  PaddedByte(base + 4 * k + 3)) == v
    ensures Words(block)[k] == AsWord(v)
  {
    hide PaddedByte, Four, FromLe, AsWord;
    FromLeFour(block[4 * k..4 * k + 4]);
  }

  // ----- The words of the message

  lemma FirstLiteralsA()
    ensures AsWord(1145258561) == 0x44434241 && AsWord(1212630597) == 0x48474645
    ensures AsWord(1280002633) == 0x4c4b4a49 && AsWord(1347374669) == 0x504f4e4d
    ensures AsWord(1414746705) == 0x54535251 && AsWord(1482118741) == 0x58575655
    ensures AsWord(1650547289) == 0x62615a59 && AsWord(1717920867) == 0x66656463
  {
    assert 1145258561 as Word == 0x44434241 && 1212630597 as Word == 0x48474645;
    assert 1280002633 as Word == 0x4c4b4a49 && 1347374669 as Word == 0x504f4e4d;
    assert 1414746705 as Word == 0x54535251 && 1482118741 as Word == 0x58575655;
    assert 1650547289 as Word == 0x62615a59 && 1717920867 as Word == 0x66656463;
  }

  lemma FirstLiteralsB()
    ensures AsWord(1785292903) == 0x6a696867 && AsWord(1852664939) == 0x6e6d6c6b
    ensures AsWord(1920036975) == 0x7271706f && AsWord(1987409011) == 0x76757473
    ensures AsWord(2054781047) == 0x7a797877 && AsWord(858927408) == 0x33323130
    ensures AsWord(926299444) == 0x37363534 && AsWord(8403256) == 0x00803938
  {
    assert 1785292903 as Word == 0x6a696867 && 1852664939 as Word == 0x6e6d6c6b;
    assert 1920036975 as Word == 0x7271706f && 1987409011 as Word == 0x76757473;
    assert 2054781047 as Word == 0x7a797877 && 858927408 as Word == 0x33323130;
    assert 926299444 as Word == 0x37363534 && 8403256 as Word == 0x00803938;
  }

  lemma FirstHalf(block: Bytes)
    requires |block| == 64 && forall i | 0 <= i < 64 :: block[i] == PaddedByte(0 + i)
    ensures var w := Words(block);
            && w[0] == AsWord(1145258561) && w[1] == AsWord(1212630597)
            && w[2] == AsWord(1280002633) && w[3] == AsWord(1347374669)
    ensures var w := Words(block);
            && w[4] == AsWord(1414746705) && w[5] == AsWord(1482118741)
            && w[6] == AsWord(1650547289) && w[7] == AsWord(1717920867)
  {
    hide Words, AsWord;
    WordAt(block, 0, 0, 1145258561);
    WordAt(block, 1, 0, 1212630597);
    WordAt(block, 2, 0, 1280002633);
    WordAt(block, 3, 0, 1347374669);
    WordAt(block, 4, 0, 1414746705);
    WordAt(block, 5, 0, 1482118741);
    WordAt(block, 6, 0, 1650547289);
    WordAt(block, 7, 0, 1717920867);
  }

  lemma SecondHalf(block: Bytes)
    requires |block| == 64 && forall i | 0 <= i < 64 :: block[i] == PaddedByte(0 + i)
    ensures var w := Words(block);
            && w[8] == AsWord(1785292903) && w[9] == AsWord(1852664939)
            && w[10] == AsWord(1920036975) && w[11] == AsWord(1987409011)
    ensures var w := Words(block);
            && w[12] == AsWord(2054781047) && w[13] == AsWord(858927408)
            && w[14] == AsWord(926299444) && w[15] == AsWord(8403256)
  {
    hide Words, AsWord;
    WordAt(block, 8, 0, 1785292903);
    WordAt(block, 9, 0, 1852664939);
    WordAt(block, 10, 0, 1920036975);
    WordAt(block, 11, 0, 1987409011);
    WordAt(block, 12, 0, 2054781047);
    WordAt(block, 13, 0, 858927408);
    WordAt(block, 14, 0, 926299444);
    WordAt(block, 15, 0, 8403256);
  }

  lemma FirstWords(block: Bytes)
    requires |block| == 64 && forall i | 0 <= i < 64 :: block[i] == PaddedByte(0 + i)
    ensures FirstBlock(Words(block))
  {
    hide Words, AsWord;
    FirstLiteralsA();
    FirstLiteralsB();
    FirstHalf(block);
    SecondHalf(block);
  }

  lemma SecondLiterals()
    ensures AsWord(496) == 0x000001f0 && AsWord(0) == 0x00000000
  {
    assert 496 as Word == 0x000001f0 && 0 as Word == 0x00000000;
  }

  lemma SecondWords(block: Bytes)
    requires |block| == 64 && forall i | 0 <= i < 64 :: block[i] == PaddedByte(64 + i)
    ensures SecondBlock(Words(block))
  {
    hide Words, AsWord;
    SecondLiterals();
    forall k | 0 <= k < 14 || k == 15 ensures Words(block)[k] == AsWord(0) {
      WordAt(block, k, 64, 0);
    }
    WordAt(block, 14, 64, 496);
  }

  // ----- The digest

  lemma BothBlocks(t: seq<Word>)
    requires SineTable(t)
    ensures |t| == 65
    ensures CompressAll(INITIAL, Padded(Message()), t)
         == Registers(0x98ab74d1, 0xf5d977d2, 0x2c1c61a5, 0x9f9d419f)
  {
    Entries(t);
    hide Padded, Message, Compress, CompressAll, SineTable, FirstBlock, SecondBlock, Words;
    var first, second := Halves();
    FirstCompressed(first, t);
    SecondCompressed(second, t);
    TwoBlocks(Padded(Message()), first, second, t);
  }

  lemma Halves() returns (first: Bytes, second: Bytes)
    ensures Padded(Message()) == first + second && |first| == 64 && |second| == 64
    ensures FirstBlock(Words(first)) && SecondBlock(Words(second))
  {
    PaddedMessage();
    hide Padded, Message, PaddedByte, FirstBlock, SecondBlock, Words;
    var data := Padded(Message());
    first, second := data[..64], data[64..];
    assert data == first + second;
    FirstWords(first);
    SecondWords(second);
  }

  lemma NextBlock(r: Registers, data: Bytes, t: seq<Word>)
    requires |data| >= 64 && |t| == 65
    ensures CompressAll(r, data, t) == CompressAll(Compress(r, data[..64], t), data[64..], t)
  {
    hide Compress;
  }

  lemma NoBlock(r: Registers, t: seq<Word>)
    requires |t| == 65
    ensures CompressAll(r, [], t) == r
  {
  }

  lemma TwoBlocks(data: Bytes, first: Bytes, second: Bytes, t: seq<Word>)
    requires data == first + second && |first| == 64 && |second| == 64 && |t| == 65
    ensures CompressAll(INITIAL, data, t) == Compress(Compress(INITIAL, first, t), second, t)
  {
    hide Compress, CompressAll;
    var r := Compress(INITIAL, first, t);
    assert data[..64] == first && data[64..] == second;
    NextBlock(INITIAL, data, t);
    NextBlock(r, second, t);
    assert second[..64] == second && second[64..] == [];
    NoBlock(Compress(r, second, t), t);
  }

  // The hexadecimal digits of a word, low-order byte first.
  lemma PrintedWord(w: Word, v: nat, a: byte, b: byte, c: byte, d: byte)
    requires AsNumber(w) == v && v == Four(a, b, c, d)
    ensures HexBytes(WordBytes(w)) == Hex(a, 2) + Hex(b, 2) + Hex(c, 2) + Hex(d, 2)
  {
    LeFour(v, a, b, c, d);
    hide Hex, Le, Four;
    HexConcat([a] + [b] + [c], [d]);
    HexConcat([a] + [b], [c]);
    HexConcat([a], [b]);
    PrintedByte(a);
    PrintedByte(b);
    PrintedByte(c);
    PrintedByte(d);
    hide HexBytes;
  }

  lemma LeFour(v: nat, a: byte, b: byte, c: byte, d: byte)
    requires v == Four(a, b, c, d)
    ensures Le(v, 4) == [a] + [b] + [c] + [d]
  {
    LeNext(v, a, b + 256 * c + 65536 * d, 3);
    LeNext(b + 256 * c + 65536 * d, b, c + 256 * d, 2);
    LeNext(c + 256 * d, c, d, 1);
    LeNext(d, d, 0, 0);
    assert Le(0, 0) == [];
    hide Le;
  }

  // Section 3.3: the registers start with these bytes, low-order byte first.
  lemma InitialBytes()
    ensures WordBytes(INITIAL.a) == [0x01] + [0x23] + [0x45] + [0x67]
    ensures WordBytes(INITIAL.b) == [0x89] + [0xab] + [0xcd] + [0xef]
    ensures WordBytes(INITIAL.c) == [0xfe] + [0xdc] + [0xba] + [0x98]
    ensures WordBytes(INITIAL.d) == [0x76] + [0x54] + [0x32] + [0x10]
  {
    LeFour(0x67452301, 0x01, 0x23, 0x45, 0x67);
    LeFour(0xefcdab89, 0x89, 0xab, 0xcd, 0xef);
    LeFour(0x98badcfe, 0xfe, 0xdc, 0xba, 0x98);
    LeFour(0x10325476, 0x76, 0x54, 0x32, 0x10);
    hide Le, Four;
  }

  lemma LeNext(v: nat, low: byte, high: nat, n: nat)
    requires v == low + 256 * high
    ensures Le(v, n + 1) == [low] + Le(high, n)
  {
    assert v % 256 == low && v / 256 == high;
  }

  lemma ByteDigits(a: byte, high: char, low: char)
    requires Digit(a / 16) == high && Digit(a % 16) == low
    ensures Hex(a, 2) == [high, low]
  {
    assert Hex(a / 16, 1) == Hex(0, 0) + [high];
  }

  lemma PrintedByte(a: byte)
    ensures HexBytes([a]) == Hex(a, 2)
  {
    hide Hex;
    assert [a][..0] == [];
  }

  lemma NumberOne()
    ensures AsNumber(0x98ab74d1) == 2561373393 == Four(209, 116, 171, 152)
  {
  }

  lemma WordOnePrinted()
    ensures HexBytes(WordBytes(0x98ab74d1)) == "d174ab98"
  {
    hide HexBytes, WordBytes, AsNumber;
    NumberOne();
    PrintedWord(0x98ab74d1, 2561373393, 209, 116, 171, 152);
    ByteDigits(209, 'd', '1');
    ByteDigits(116, '7', '4');
    ByteDigits(171, 'a', 'b');
    ByteDigits(152, '9', '8');
  }

  lemma NumberTwo()
    ensures AsNumber(0xf5d977d2) == 4124669906 == Four(210, 119, 217, 245)
  {
  }

  lemma WordTwoPrinted()
    ensures HexBytes(WordBytes(0xf5d977d2)) == "d277d9f5"
  {
    hide HexBytes, WordBytes, AsNumber;
    NumberTwo();
    PrintedWord(0xf5d977d2, 4124669906, 210, 119, 217, 245);
    ByteDigits(210, 'd', '2');
    ByteDigits(119, '7', '7');
    ByteDigits(217, 'd', '9');
    ByteDigits(245, 'f', '5');
  }

  lemma NumberThree()
    ensures AsNumber(0x2c1c61a5) == 740057509 == Four(165, 97, 28, 44)
  {
  }

  lemma WordThreePrinted()
    ensures HexBytes(WordBytes(0x2c1c61a5)) == "a5611c2c"
  {
    hide HexBytes, WordBytes, AsNumber;
    NumberThree();
    PrintedWord(0x2c1c61a5, 740057509, 165, 97, 28, 44);
    ByteDigits(165, 'a', '5');
    ByteDigits(97, '6', '1');
    ByteDigits(28, '1', 'c');
    ByteDigits(44, '2', 'c');
  }

  lemma NumberFour()
    ensures AsNumber(0x9f9d419f) == 2677883295 == Four(159, 65, 157, 159)
  {
  }

  lemma WordFourPrinted()
    ensures HexBytes(WordBytes(0x9f9d419f)) == "9f419d9f"
  {
    hide HexBytes, WordBytes, AsNumber;
    NumberFour();
    PrintedWord(0x9f9d419f, 2677883295, 159, 65, 157, 159);
    ByteDigits(159, '9', 'f');
    ByteDigits(65, '4', '1');
    ByteDigits(157, '9', 'd');
    ByteDigits(159, '9', 'f');
  }

  lemma MessageDigest(t: seq<Word>)
    requires SineTable(t)
    ensures |t| == 65
    ensures HexBytes(DigestBytes(Message(), t)) == "d174ab98" + "d277d9f5" + "a5611c2c" + "9f419d9f"
  {
    BothBlocks(t);
    hide CompressAll, SineTable, Padded, Message, WordBytes, HexBytes;
    WordOnePrinted();
    WordTwoPrinted();
    WordThreePrinted();
    WordFourPrinted();
    FourWords(0x98ab74d1, 0xf5d977d2, 0x2c1c61a5, 0x9f9d419f);
  }

  lemma FourWords(a: Word, b: Word, c: Word, d: Word)
    ensures HexBytes(WordBytes(a) + WordBytes(b) + WordBytes(c) + WordBytes(d))
         == HexBytes(WordBytes(a)) + HexBytes(WordBytes(b)) + HexBytes(WordBytes(c)) + HexBytes(WordBytes(d))
  {
    hide WordBytes, HexBytes;
    HexConcat(WordBytes(a) + WordBytes(b) + WordBytes(c), WordBytes(d));
    HexConcat(WordBytes(a) + WordBytes(b), WordBytes(c));
    HexConcat(WordBytes(a), WordBytes(b));
  }

  lemma Entries(t: seq<Word>)
    requires SineTable(t)
    ensures |t| == 65
  {
  }
}
