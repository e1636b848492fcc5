/** Which error the decoder reports, and where. */
module DeflateErrors {
  import opened Arith
  import opened BitStream
  import opened DataAborts
  import opened DeflateEncoder
  import opened Huffman
  import opened InflateSpec
  import opened Truncation
  import opened ZlibRoundTrip

  // ----- The header

  // The header as one number, high-order byte first.
  function HeaderNumber(cmf: nat, flg: nat): nat {
    256 * cmf + flg
  }

  // The first of the checks that the two header bytes fail decides; the flag byte is not needed for the first two.
  lemma HeaderErrors(input: Bytes)
    ensures input == [] ==> Deflate(input) == Err(EndOfData)
    ensures input != [] && input[0] % 16 != 8 ==> Deflate(input) == Err(InvalidCompressionMethod)
    ensures input != [] && input[0] % 16 == 8 && input[0] >= 128 ==> Deflate(input) == Err(InvalidCompressionInfo)
    ensures |input| == 1 && input[0] % 16 == 8 && input[0] < 128 ==> Deflate(input) == Err(EndOfData)
    ensures |input| >= 2 && input[0] % 16 == 8 && input[0] < 128 && HeaderNumber(input[0], input[1]) % 31 != 0
            ==> Deflate(input) == Err(HeaderChecksum)
    ensures |input| >= 2 && input[0] % 16 == 8 && input[0] < 128 && HeaderNumber(input[0], input[1]) % 31 == 0
            && (input[1] / 32) % 2 == 1
            ==> Deflate(input) == Err(PresetDictionary)
  {
    hide Blocks, BitsOf, ReadBytes;
    NoBytes(input);
    FirstByte(input);
    if |input| == 1 {
      EndReached(BitsOf(input), 8, 1);
    }
    if |input| >= 2 {
      assert [input[0], input[1]] + input[2..] == input;
      FirstTwoBytes(input[0], input[1], input[2..]);
    }
  }

  lemma NoBytes(input: Bytes)
    ensures input == [] ==> ReadBytes(BitsOf(input), 0, 1) == Err(EndOfData)
  {
    hide Value;
  }

  lemma FirstByte(input: Bytes)
    ensures input != [] ==> ReadBytes(BitsOf(input), 0, 1) == Ok(input[0], 8)
  {
    if input != [] {
      ByteAt(input, 0);
      assert BitsOf(input)[8 * 0..8 * 0 + 8] == BitsOf(input)[0..8];
    }
    hide BitsOf, Value;
  }

  // ----- Blocks

  // The fourth block type.
  lemma InvalidType(bits: seq<bool>, p: nat, out: Bytes)
    requires p + 3 <= |bits| && bits[p + 1] && bits[p + 2]
    ensures Blocks(bits, p, out) == Err(InvalidBlockType)
  {
    assert Lsb(3, 2) == [true, true] by { assert Pow2(0) == 1 && Pow2(1) == 2; }
    assert bits[p + 1..p + 3] == [true, true];
    assert Pow2(2) == 4;
    ReadBack(bits, p + 1, 3, 2);
    BlocksStep(bits, p, out);
    hide Blocks, ReadBits, StoredBlock, FixedBlock, DynamicBlock;
  }

  // After any tokens, a match that reaches behind the start of the output.
  lemma TooFar(tokens: seq<Token>, far: Token, ll: seq<nat>, dl: seq<nat>, m: nat, bits: seq<bool>, p: nat, out: Bytes)
    requires AllEncodable(tokens, ll, dl) && AllReach(tokens, out) && Kraft(ll, m) && Kraft(dl, m)
    requires far.Match? && far.Encodable(ll, dl) && far.Distance() > |ExpandAll(tokens, out)|
    requires At(bits, p, TokensBits(tokens, ll, dl) + far.Bits(ll, dl))
    ensures p <= |bits| && BuildTree(ll, LITERAL_ALPHABET).symbol.None?
    ensures BlockData(bits, p, BuildTree(ll, LITERAL_ALPHABET), BuildTree(dl, DISTANCE_ALPHABET), out)
         == Err(DistanceTooLarge)
  {
    hide Kraft, BuildTree, At, SymbolRound, BlockData, AllEncodable, AllReach, ExpandAll, TokensBits;
    hide Token.Bits, Token.Encodable;
    var front, out' := TokensBits(tokens, ll, dl), ExpandAll(tokens, out);
    AtSplit(bits, p, front, far.Bits(ll, dl));
    TokensThen(tokens, ll, dl, m, bits, p, out);
    FarRound(far, ll, dl, m, bits, p + |front|, out');
    RoundNext(bits, p + |front|, BuildTree(ll, LITERAL_ALPHABET), BuildTree(dl, DISTANCE_ALPHABET), out');
  }

  lemma FarRound(far: Token, ll: seq<nat>, dl: seq<nat>, m: nat, bits: seq<bool>, p: nat, out: Bytes)
    requires Kraft(ll, m) && Kraft(dl, m) && far.Match? && far.Encodable(ll, dl) && far.Distance() > |out|
    requires At(bits, p, far.Bits(ll, dl))
    ensures SymbolRound(bits, p, BuildTree(ll, LITERAL_ALPHABET), BuildTree(dl, DISTANCE_ALPHABET), out)
         == Err(DistanceTooLarge)
  {
    hide Kraft, BuildTree, At, Walk, Codeword, Lsb, ReadBits, Copy, Pow2, LengthExtra, LengthBase, DistanceExtra;
    hide DistanceBase;
    var k, d := far.k, far.d;
    var code := Codeword(ll, 257 + k);
    AtSplit(bits, p, code, Lsb(far.extra, LengthExtra(k)) + (Codeword(dl, d) + Lsb(far.more, DistanceExtra(d))));
    CodewordLength(ll, 257 + k);
    DecodeCodeword(ll, LITERAL_ALPHABET, m, 257 + k, bits, p);
    var p1 := p + |code|;
    FieldsDecode(far.extra, LengthExtra(k), dl, d, far.more, DistanceExtra(d), m, bits, p1);
    var q := p1 + LengthExtra(k) + dl[d];
    PairIsCopy(bits, p1, BuildTree(dl, DISTANCE_ALPHABET), k, far.extra, d, q, out);
    FarCopy(bits, q, far.more, DistanceExtra(d), DistanceBase(d), far.extra + LengthBase(k), out);
  }

  lemma FarCopy(bits: seq<bool>, p: nat, more: nat, n: nat, base: nat, length: nat, out: Bytes)
    requires more < Pow2(n) && At(bits, p, Lsb(more, n)) && 0 < base && base + more > |out|
    ensures Copy(bits, p, n, base, length, out) == Err(DistanceTooLarge)
  {
    ReadBack(bits, p, more, n);
  }

  // A header whose first run repeats a length that there is not.
  lemma NothingToRepeat(bits: seq<bool>, p: nat, cl: seq<nat>, wanted: nat)
    requires Kraft(cl, 7) && Coded(cl, CODE_LENGTH_ALPHABET, 16) && wanted > 0 && p <= |bits|
    requires At(bits, p, Codeword(cl, 16))
    ensures ReadLengths(bits, p, BuildTree(cl, CODE_LENGTH_ALPHABET), wanted, []) == Err(NoPreviousLength)
  {
    hide Kraft, BuildTree, Walk, Codeword, At, ReadBits, ReadLengths;
    DecodeCodeword(cl, CODE_LENGTH_ALPHABET, 7, 16, bits, p);
    LengthsStep(bits, p, BuildTree(cl, CODE_LENGTH_ALPHABET), wanted, []);
  }

  // ----- Symbols

  // 19 code length symbols, 286 literal and length symbols and 30 distance symbols can be sent: where the codeword of
  // one of them stands, it is read as that symbol.
  lemma SymbolsOf(bl: seq<nat>, m: nat, s: nat, bits: seq<bool>, p: nat)
    requires Kraft(bl, m) && s < |bl| && bl[s] != 0 && At(bits, p, Codeword(bl, s))
    ensures s < 19 ==> Walk(BuildTree(bl, CODE_LENGTH_ALPHABET), bits, p) == Ok(s, p + bl[s])
    ensures s < 286 ==> Walk(BuildTree(bl, LITERAL_ALPHABET), bits, p) == Ok(s, p + bl[s])
    ensures s < 30 ==> Walk(BuildTree(bl, DISTANCE_ALPHABET), bits, p) == Ok(s, p + bl[s])
  {
    hide Kraft, Codeword, BuildTree, Walk, At;
    if s < 19 {
      DecodeCodeword(bl, CODE_LENGTH_ALPHABET, m, s, bits, p);
    }
    if s < 286 {
      DecodeCodeword(bl, LITERAL_ALPHABET, m, s, bits, p);
    }
    if s < 30 {
      DecodeCodeword(bl, DISTANCE_ALPHABET, m, s, bits, p);
    }
  }

  // ----- No symbol

  // Below the root every leaf holds a symbol.
  predicate Full(t: Tree) {
    t.Nil? || ((t.Leaf() ==> t.symbol.Some?) && Full(t.left) && Full(t.right))
  }

  lemma {:induction false} InsertFull(t: Tree, code: seq<bool>, symbol: nat)
    requires t.Nil? || (Full(t.left) && Full(t.right))
    ensures Full(Insert(t, code, symbol)) && (code != [] ==> !Insert(t, code, symbol).Leaf())
    decreases |code|
  {
    if code != [] {
      InsertFull(if t.Nil? then Nil else t.Child(code[0]), code[1..], symbol);
    }
  }

  lemma {:induction false} BuiltFull(bl: seq<nat>, alphabet: seq<nat>, n: nat)
    requires n <= |bl|
    ensures var t := BuildUpTo(bl, alphabet, n);
            && Full(t.left) && Full(t.right)
            && ((exists i | 0 <= i < n :: Coded(bl, alphabet, i)) ==> !t.Leaf())
            && ((forall i | 0 <= i < n :: !Coded(bl, alphabet, i)) ==> t == EMPTY)
  {
    if n != 0 {
      BuiltFull(bl, alphabet, n - 1);
      if Coded(bl, alphabet, n - 1) {
        CodewordLength(bl, n - 1);
        hide Codeword;
        InsertFull(BuildUpTo(bl, alphabet, n - 1), Codeword(bl, n - 1), alphabet[n - 1]);
      }
    }
  }

  lemma {:induction false} FullWalk(t: Tree, bits: seq<bool>, p: nat)
    requires t.Node? && Full(t)
    ensures Walk(t, bits, p) != Err(NoSymbol)
    decreases t
  {
    if !t.Leaf() && p < |bits| && t.Child(bits[p]).Node? {
      FullWalk(t.Child(bits[p]), bits, p + 1);
    }
  }

  // A walk finds no symbol at its end exactly if nothing is coded, whatever the bits are.
  lemma NoSymbolIff(bl: seq<nat>, alphabet: seq<nat>, bits: seq<bool>, p: nat)
    ensures Walk(BuildTree(bl, alphabet), bits, p) == Err(NoSymbol) <==>
            forall i | 0 <= i < |bl| :: !Coded(bl, alphabet, i)
  {
    BuiltFull(bl, alphabet, |bl|);
    var t := BuildTree(bl, alphabet);
    hide Walk, BuildUpTo, Full;
    if i :| 0 <= i < |bl| && Coded(bl, alphabet, i) {
      RootWalk(t, bits, p);
    } else {
      EmptyWalk(bits, p);
    }
  }

  lemma RootWalk(t: Tree, bits: seq<bool>, p: nat)
    requires t.Node? && Full(t.left) && Full(t.right) && !t.Leaf()
    ensures Walk(t, bits, p) != Err(NoSymbol)
  {
    hide Full;
    if p < |bits| && t.Child(bits[p]).Node? {
      FullWalk(t.Child(bits[p]), bits, p + 1);
    }
  }

  lemma EmptyWalk(bits: seq<bool>, p: nat)
    ensures Walk(EMPTY, bits, p) == Err(NoSymbol)
  {
  }
}
