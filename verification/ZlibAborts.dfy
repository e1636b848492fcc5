/** Streams on which the decoder aborts: blocks that decode, and then something that no codeword stands for. */
module ZlibAborts {
  import opened Arith
  import opened BitStream
  import opened Collections
  import opened DataAborts
  import opened DeflateAccepts
  import opened DeflateEncoder
  import opened FixedGaps
  import opened Huffman
  import opened HuffmanConverse
  import opened InflateSpec
  import opened ZlibAccepts
  import opened ZlibRoundTrip

  // ----- The fixed trees

  // A walk of the fixed literal tree aborts exactly on the seven bits that 286 and 287 have in common.
  lemma FixedLiteralIff(bits: seq<bool>, p: nat)
    ensures Walk(BuildTree(FixedLengths(), LITERAL_ALPHABET), bits, p).Panic? <==> At(bits, p, LENGTH_GAP)
  {
    hide Walk, BuildTree, FixedLengths, At, Gap;
    PanicsIff(FixedLengths(), LITERAL_ALPHABET, bits, p);
    LengthGapIff(LENGTH_GAP);
    if Walk(BuildTree(FixedLengths(), LITERAL_ALPHABET), bits, p).Panic? {
      var code :| Gap(FixedLengths(), LITERAL_ALPHABET, code) && At(bits, p, code);
      LengthGapIff(code);
    }
  }

  // One of the fixed distance tree aborts exactly on the four bits that 30 and 31 have in common.
  lemma FixedDistanceIff(bits: seq<bool>, p: nat)
    ensures Walk(BuildTree(FIXED_DISTANCES, DISTANCE_ALPHABET), bits, p).Panic? <==> At(bits, p, DISTANCE_GAP)
  {
    hide Walk, BuildTree, At, Gap;
    PanicsIff(FIXED_DISTANCES, DISTANCE_ALPHABET, bits, p);
    DistanceGapIff(DISTANCE_GAP);
    if Walk(BuildTree(FIXED_DISTANCES, DISTANCE_ALPHABET), bits, p).Panic? {
      var code :| Gap(FIXED_DISTANCES, DISTANCE_ALPHABET, code) && At(bits, p, code);
      DistanceGapIff(code);
    }
  }

  // So do the whole reserved codewords of the literal code,
  lemma FixedReservedPanics(i: nat, bits: seq<bool>, p: nat)
    requires 286 <= i < 288 && At(bits, p, Codeword(FixedLengths(), i))
    ensures Walk(BuildTree(FixedLengths(), LITERAL_ALPHABET), bits, p).Panic?
  {
    hide Walk, BuildTree, FixedLengths, At, Codeword, CodeBits;
    LastCodes(i);
    LengthCodes();
    AtSplit(bits, p, LENGTH_GAP, [i == 287]);
    FixedLiteralIff(bits, p);
  }

  // and the five bits of 30 and of 31 in the distance code.
  lemma FixedDistancePanics(d: nat, bits: seq<bool>, p: nat)
    requires 30 <= d < 32 && At(bits, p, CodeBits(d, 5))
    ensures Walk(BuildTree(FIXED_DISTANCES, DISTANCE_ALPHABET), bits, p).Panic?
  {
    hide Walk, BuildTree, At, CodeBits;
    DistanceCodes();
    AtSplit(bits, p, DISTANCE_GAP, [d == 31]);
    FixedDistanceIff(bits, p);
  }

  // ----- Fixed blocks

  // What a fixed block can say that has no meaning: the start of a reserved length symbol, or a length and then the
  // start of a reserved distance symbol.
  datatype Reserved = ReservedLength | ReservedDistance(k: nat, extra: nat) {
    predicate Valid() {
      ReservedDistance? ==> k < LENGTH_SYMBOLS && extra < Pow2(LengthExtra(k))
    }

    function Bits(): seq<bool>
      requires Valid()
    {
      match this
      case ReservedLength => LENGTH_GAP
      case ReservedDistance(k, extra) =>
        Codeword(FixedLengths(), 257 + k) + (Lsb(extra, LengthExtra(k)) + DISTANCE_GAP)
    }

    function Stray(): Stray {
      match this
      case ReservedLength => InLiterals(LENGTH_GAP)
      case ReservedDistance(k, extra) => InDistances(k, extra, DISTANCE_GAP)
    }
  }

  lemma ReservedIsStray(r: Reserved)
    requires r.Valid()
    ensures r.Stray().Valid(FixedLengths(), FIXED_DISTANCES)
    ensures r.Stray().Bits(FixedLengths(), FIXED_DISTANCES) == r.Bits()
  {
    hide FixedLengths, Codeword, Gap, Lsb, LengthExtra, Pow2;
    LengthGapIff(LENGTH_GAP);
    DistanceGapIff(DISTANCE_GAP);
    if r.ReservedDistance? {
      FixedLengthsSize(257 + r.k);
    }
  }

  lemma StrayIsReserved(stray: Stray) returns (r: Reserved)
    requires stray.Valid(FixedLengths(), FIXED_DISTANCES)
    ensures r.Valid() && r.Bits() == stray.Bits(FixedLengths(), FIXED_DISTANCES)
  {
    hide FixedLengths, Codeword, Gap, Lsb, LengthExtra, Pow2;
    match stray {
      case InLiterals(gap) =>
        LengthGapIff(gap);
        r := ReservedLength;
      case InDistances(k, extra, gap) =>
        DistanceGapIff(gap);
        r := ReservedDistance(k, extra);
    }
  }

  // Tokens and then something reserved stand at position p.
  predicate ReservedAt(tokens: seq<Token>, r: Reserved, bits: seq<bool>, p: nat, out: Bytes) {
    && AllEncodable(tokens, FixedLengths(), FIXED_DISTANCES)
    && AllReach(tokens, out)
    && r.Valid()
    && At(bits, p, TokensBits(tokens, FixedLengths(), FIXED_DISTANCES) + r.Bits())
  }

  // After any tokens, something reserved in a fixed block aborts the block.
  lemma ReservedBlock(tokens: seq<Token>, r: Reserved, bits: seq<bool>, p: nat, out: Bytes)
    requires ReservedAt(tokens, r, bits, p, out)
    ensures p <= |bits| && FixedBlock(bits, p, out).Panic?
  {
    hide Kraft, KraftSum, BuildTree, Reserved.Bits, Reserved.Valid, Reserved.Stray, At, BlockData;
    hide AllEncodable, AllReach, TokensBits, FixedLengths, Stray.Bits, Stray.Valid;
    FixedKraft();
    FixedRoot();
    ReservedIsStray(r);
    StraysPanic(tokens, r.Stray(), FixedLengths(), FIXED_DISTANCES, 9, bits, p, out);
  }

  lemma ReservedRead(bits: seq<bool>, p: nat, out: Bytes) returns (tokens: seq<Token>, r: Reserved)
    requires p <= |bits| && FixedBlock(bits, p, out).Panic?
    ensures ReservedAt(tokens, r, bits, p, out)
  {
    hide BuildTree, Reserved.Bits, Reserved.Valid, At, BlockData, Stray.Bits, Stray.Valid;
    hide AllEncodable, AllReach, TokensBits, FixedLengths;
    FixedRoot();
    var stray;
    tokens, stray := StraysRead(bits, p, FixedLengths(), FIXED_DISTANCES, out);
    r := StrayIsReserved(stray);
  }

  // A fixed block aborts the decoder exactly if it holds something reserved behind decodable tokens, if only the
  // start of it at the end of the data.
  lemma FixedPanicsIff(bits: seq<bool>, p: nat, out: Bytes)
    requires p <= |bits|
    ensures FixedBlock(bits, p, out).Panic? <==> exists tokens, r :: ReservedAt(tokens, r, bits, p, out)
  {
    hide FixedBlock, ReservedAt;
    if FixedBlock(bits, p, out).Panic? {
      var tokens, r := ReservedRead(bits, p, out);
    }
    if tokens, r :| ReservedAt(tokens, r, bits, p, out) {
      ReservedBlock(tokens, r, bits, p, out);
    }
  }

  // ----- Dynamic blocks

  lemma {:induction false} LengthLengthsCalm(bits: seq<bool>, p: nat, i: nat, hclen: nat, bl: seq<nat>)
    requires i <= hclen <= 19 && |bl| == 19
    ensures !ReadLengthLengths(bits, p, i, hclen, bl).Panic?
    decreases hclen - i
  {
    hide OrderAt, Value;
    if i != hclen && ReadBits(bits, p, 3).Ok? {
      LengthLengthsCalm(bits, p + 3, i + 1, hclen, bl[OrderAt(i) := ReadBits(bits, p, 3).value]);
    }
  }

  // Plain numbers never abort.
  lemma HeaderCalm(bits: seq<bool>, p: nat)
    ensures !ReadHeader(bits, p).Panic?
  {
    hide ReadLengthLengths, Value;
    if p + 14 <= |bits| {
      FourBits(bits, p + 10);
      LengthLengthsCalm(bits, p + 14, 0, ReadBits(bits, p + 10, 4).value + 4, Repeat(0, 19));
    }
  }

  lemma TreesPanicParts(bits: seq<bool>, p: nat)
    requires p <= |bits|
    ensures var h := ReadHeader(bits, p);
            && (h.Ok? ==> h.next <= |bits|)
            && (DecodeTrees(bits, p).Panic? <==>
                h.Ok? && ReadLengths(bits, h.next, BuildTree(h.value.lengths, CODE_LENGTH_ALPHABET),
                                     h.value.hlit + h.value.hdist, []).Panic?)
  {
    hide ReadHeader, ReadLengths, TreesOf, BuildTree;
    HeaderCalm(bits, p);
    HeaderProgress(bits, p);
    if ReadHeader(bits, p).Ok? {
      TreesAfterHeader(bits, p, ReadHeader(bits, p).value, ReadHeader(bits, p).next);
    }
  }

  lemma TreesAfterHeader(bits: seq<bool>, p: nat, h: Header, q: nat)
    requires p <= |bits| && ReadHeader(bits, p) == Ok(h, q) && q <= |bits|
    ensures DecodeTrees(bits, p).Panic? <==>
            ReadLengths(bits, q, BuildTree(h.lengths, CODE_LENGTH_ALPHABET), h.hlit + h.hdist, []).Panic?
  {
    hide ReadHeader, ReadLengths, TreesOf, BuildTree;
  }

  lemma DynamicPanicParts(bits: seq<bool>, p: nat, out: Bytes)
    requires p <= |bits|
    ensures var t := DecodeTrees(bits, p);
            && (t.Ok? ==> t.next <= |bits| && t.value.literals.Node? && t.value.distances.Node?)
            && (t.Ok? ==> t.value.literals.symbol.None?)
            && (DynamicBlock(bits, p, out).Panic? <==>
                t.Panic? || (t.Ok? && BlockData(bits, t.next, t.value.literals, t.value.distances, out).Panic?))
  {
    TreesProgress(bits, p);
    hide DecodeTrees, BlockData;
  }

  // The blocks that abort the decoder.
  datatype Aborting =
    | ReservedFixed(tokens: seq<Token>, r: Reserved)
    | StrayLengths(header: DynamicHeader, gap: seq<bool>)
    | StrayData(header: DynamicHeader, tokens: seq<Token>, stray: Stray)
  {
    function Type(): nat {
      if ReservedFixed? then 1 else 2
    }

    // The block can be written after the output `out`.
    ghost predicate Formed(out: Bytes) {
      hide AllEncodable, AllReach, Reserved.Valid, Stray.Valid, Gap, FixedLengths;
      hide RunsOpen, RunsReach, RunsCoded, LengthLengths, ExpandRuns;
      match this
      case ReservedFixed(tokens, r) =>
        AllEncodable(tokens, FixedLengths(), FIXED_DISTANCES) && AllReach(tokens, out) && r.Valid()
      case StrayLengths(h, gap) =>
        && h.StartFormed() && RunsCoded(h.runs, h.cl) && RunsOpen(h.runs, [], h.hlit + h.hdist)
        && Gap(h.cl, CODE_LENGTH_ALPHABET, gap)
      case StrayData(h, tokens, stray) =>
        && h.Formed()
        && AllEncodable(tokens, h.LiteralLengths(), h.DistanceLengths()) && AllReach(tokens, out)
        && stray.Valid(h.LiteralLengths(), h.DistanceLengths())
    }

    // And all its codes are prefix-free.
    predicate Proper() {
      match this
      case ReservedFixed(_, _) => true
      case StrayLengths(h, _) => Kraft(h.cl, 7)
      case StrayData(h, _, _) => h.Valid()
    }

    ghost function Body(out: Bytes): seq<bool>
      requires Formed(out)
    {
      hide AllEncodable, AllReach, Reserved.Valid, Stray.Valid, Gap, FixedLengths;
      hide RunsOpen, RunsReach, RunsCoded, LengthLengths, ExpandRuns;
      match this
      case ReservedFixed(tokens, r) => TokensBits(tokens, FixedLengths(), FIXED_DISTANCES) + r.Bits()
      case StrayLengths(h, gap) => h.Start() + (RunsBits(h.runs, h.cl) + gap)
      case StrayData(h, tokens, stray) =>
        h.Bits() + (TokensBits(tokens, h.LiteralLengths(), h.DistanceLengths())
                    + stray.Bits(h.LiteralLengths(), h.DistanceLengths()))
    }

    ghost function Bits(final: bool, out: Bytes): seq<bool>
      requires Formed(out)
    {
      [final] + (Lsb(Type(), 2) + Body(out))
    }
  }

  lemma StrayLengthsRead(bits: seq<bool>, p: nat, out: Bytes) returns (a: Aborting)
    requires p <= |bits| && DecodeTrees(bits, p).Panic?
    ensures a.StrayLengths? && a.Formed(out) && At(bits, p, a.Body(out))
  {
    hide DecodeTrees, ReadHeader, ReadLengths, BuildTree, At, RunsBits, RunsCoded, RunsOpen, Gap;
    hide DynamicHeader.Start, DynamicHeader.StartFormed;
    TreesPanicParts(bits, p);
    var h := StartRead(bits, p);
    var start := h.Start();
    var runs, gap := LengthsStrayRead(bits, p + |start|, h.cl, h.hlit + h.hdist, []);
    SameStart(h, runs);
    h := h.(runs := runs);
    AtJoin(bits, p, start, RunsBits(runs, h.cl) + gap);
    a := StrayLengths(h, gap);
  }

  lemma SameStart(h: DynamicHeader, runs: seq<Run>)
    requires h.StartFormed()
    ensures h.(runs := runs).StartFormed() && h.(runs := runs).Start() == h.Start()
  {
    hide LengthLengths, LengthLengthBits, Lsb;
  }

  lemma StrayDataRead(bits: seq<bool>, p: nat, out: Bytes) returns (a: Aborting)
    requires p <= |bits| && DecodeTrees(bits, p).Ok? && DynamicBlock(bits, p, out).Panic?
    ensures a.StrayData? && a.Formed(out) && At(bits, p, a.Body(out))
  {
    hide At, DynamicHeader.Bits, BlockData, DecodeTrees, BuildTree, DynamicHeader.Formed, DynamicBlock;
    hide AllEncodable, AllReach, TokensBits, DynamicHeader.LiteralLengths, DynamicHeader.DistanceLengths;
    hide Stray.Valid, Stray.Bits;
    DynamicPanicParts(bits, p, out);
    var h := TreesRead(bits, p);
    HeaderReach(h);
    var ll, dl := h.LiteralLengths(), h.DistanceLengths();
    var tokens, stray := StraysRead(bits, p + |h.Bits()|, ll, dl, out);
    AtJoin(bits, p, h.Bits(), TokensBits(tokens, ll, dl) + stray.Bits(ll, dl));
    a := StrayData(h, tokens, stray);
  }

  lemma StrayLengthsPanics(a: Aborting, bits: seq<bool>, p: nat, out: Bytes)
    requires a.StrayLengths? && a.Formed(out) && a.Proper() && At(bits, p, a.Body(out))
    ensures p <= |bits| && DynamicBlock(bits, p, out).Panic?
  {
    hide DecodeTrees, ReadHeader, ReadLengths, BuildTree, At, RunsBits, RunsCoded, RunsOpen, Gap, Kraft, DynamicBlock;
    hide DynamicHeader.Start, DynamicHeader.StartFormed;
    var h := a.header;
    AtEnd(bits, p, a.Body(out));
    AtSplit(bits, p, h.Start(), RunsBits(h.runs, h.cl) + a.gap);
    HeaderDecodes(h, bits, p);
    LengthsStrayPanics(h.runs, a.gap, h.cl, h.hlit + h.hdist, [], bits, p + |h.Start()|);
    TreesPanicParts(bits, p);
    DynamicPanicParts(bits, p, out);
  }

  lemma StrayDataPanics(a: Aborting, bits: seq<bool>, p: nat, out: Bytes)
    requires a.StrayData? && a.Formed(out) && a.Proper() && At(bits, p, a.Body(out))
    ensures p <= |bits| && DynamicBlock(bits, p, out).Panic?
  {
    hide At, DynamicHeader.Bits, BlockData, DecodeTrees, BuildTree, DynamicHeader.Formed, DynamicBlock, Kraft;
    hide AllEncodable, AllReach, TokensBits, DynamicHeader.LiteralLengths, DynamicHeader.DistanceLengths;
    hide Stray.Valid, Stray.Bits;
    var h := a.header;
    HeaderReach(h);
    var ll, dl := h.LiteralLengths(), h.DistanceLengths();
    AtEnd(bits, p, a.Body(out));
    AtSplit(bits, p, h.Bits(), TokensBits(a.tokens, ll, dl) + a.stray.Bits(ll, dl));
    TreesDecode(h, bits, p);
    StraysPanic(a.tokens, a.stray, ll, dl, 15, bits, p + |h.Bits()|, out);
    DynamicPanicParts(bits, p, out);
  }

  // ----- Blocks and streams

  lemma BodyPanicParts(bits: seq<bool>, p: nat, out: Bytes)
    requires p <= |bits|
    ensures BlockBody(bits, p, out).Panic? <==>
            && p + 2 <= |bits|
            && ((ReadBits(bits, p, 2) == Ok(1, p + 2) && FixedBlock(bits, p + 2, out).Panic?) ||
                (ReadBits(bits, p, 2) == Ok(2, p + 2) && DynamicBlock(bits, p + 2, out).Panic?))
  {
    hide FixedBlock, DynamicBlock, Value, Align, StoredBytes;
  }

  // A block on which the decoder aborts, with whatever code lengths, says something that no codeword stands for.
  lemma AbortingRead(bits: seq<bool>, p: nat, out: Bytes) returns (a: Aborting)
    requires p < |bits| && BlockBody(bits, p + 1, out).Panic?
    ensures a.Formed(out) && At(bits, p, a.Bits(bits[p], out))
  {
    hide FixedBlock, DynamicBlock, BlockBody, Lsb, At, ReadBits, Aborting.Formed, Aborting.Body;
    BodyPanicParts(bits, p + 1, out);
    BitsRead(bits, p + 1, 2);
    if ReadBits(bits, p + 1, 2).value == 1 {
      a := FixedAbortRead(bits, p + 3, out);
    } else if DecodeTrees(bits, p + 3).Panic? {
      a := StrayLengthsRead(bits, p + 3, out);
    } else {
      TreesOk(bits, p + 3, out);
      a := StrayDataRead(bits, p + 3, out);
    }
    AtJoin(bits, p + 1, Lsb(a.Type(), 2), a.Body(out));
    SliceAt(bits, p, p + 1);
    assert bits[p..p + 1] == [bits[p]];
    AtJoin(bits, p, [bits[p]], Lsb(a.Type(), 2) + a.Body(out));
  }

  lemma FixedAbortRead(bits: seq<bool>, p: nat, out: Bytes) returns (a: Aborting)
    requires p <= |bits| && FixedBlock(bits, p, out).Panic?
    ensures a.ReservedFixed? && a.Formed(out) && At(bits, p, a.Body(out))
  {
    hide FixedBlock, AllEncodable, AllReach, TokensBits, Reserved.Bits, Reserved.Valid, At, FixedLengths;
    var tokens, r := ReservedRead(bits, p, out);
    a := ReservedFixed(tokens, r);
  }

  lemma TreesOk(bits: seq<bool>, p: nat, out: Bytes)
    requires p <= |bits| && DynamicBlock(bits, p, out).Panic? && !DecodeTrees(bits, p).Panic?
    ensures DecodeTrees(bits, p).Ok?
  {
    hide DecodeTrees, DynamicBlock, BlockData;
    DynamicPanicParts(bits, p, out);
  }

  lemma FixedAbortPanics(a: Aborting, bits: seq<bool>, p: nat, out: Bytes)
    requires a.ReservedFixed? && a.Formed(out) && At(bits, p, a.Body(out))
    ensures p <= |bits| && FixedBlock(bits, p, out).Panic?
  {
    hide FixedBlock, AllEncodable, AllReach, TokensBits, Reserved.Bits, Reserved.Valid, At, FixedLengths;
    ReservedBlock(a.tokens, a.r, bits, p, out);
  }

  // And such a block, if its codes are prefix-free, aborts the decoder.
  lemma AbortingPanics(a: Aborting, final: bool, bits: seq<bool>, p: nat, out: Bytes)
    requires a.Formed(out) && a.Proper() && At(bits, p, a.Bits(final, out))
    ensures p < |bits| && BlockBody(bits, p + 1, out).Panic?
  {
    hide FixedBlock, DynamicBlock, BlockBody, Lsb, At, ReadBits, Aborting.Formed, Aborting.Proper, Aborting.Body;
    AtSplit(bits, p, [final], Lsb(a.Type(), 2) + a.Body(out));
    AtSplit(bits, p + 1, Lsb(a.Type(), 2), a.Body(out));
    assert Pow2(2) == 4;
    ReadBack(bits, p + 1, a.Type(), 2);
    AtEnd(bits, p + 3, a.Body(out));
    match a {
      case ReservedFixed(_, _) => FixedAbortPanics(a, bits, p + 3, out);
      case StrayLengths(_, _) => StrayLengthsPanics(a, bits, p + 3, out);
      case StrayData(_, _, _) => StrayDataPanics(a, bits, p + 3, out);
    }
    BodyPanicParts(bits, p + 1, out);
  }

  lemma BlocksPanicParts(bits: seq<bool>, p: nat, out: Bytes)
    requires p <= |bits|
    ensures Blocks(bits, p, out).Panic? ==> p < |bits|
    ensures p < |bits| ==>
              var r := BlockBody(bits, p + 1, out);
              && (r.Ok? ==> p < r.next <= |bits|)
              && (Blocks(bits, p, out).Panic? <==>
                  r.Panic? || (r.Ok? && !bits[p] && Blocks(bits, r.next, r.value).Panic?))
  {
    hide BlockBody;
    if p < |bits| {
      BodyProgress(bits, p + 1, out);
    }
  }

  // So the inflater aborts at that position, whatever was put out before.
  lemma ReservedAborts(a: Aborting, final: bool, bits: seq<bool>, p: nat, out: Bytes)
    requires a.Formed(out) && a.Proper() && At(bits, p, a.Bits(final, out))
    ensures p <= |bits| && Blocks(bits, p, out).Panic?
  {
    hide Blocks, BlockBody, At, Aborting.Formed, Aborting.Proper, Aborting.Bits;
    AbortingPanics(a, final, bits, p, out);
    BlocksPanicParts(bits, p, out);
  }

  // Blocks that can be written down, and then one that aborts.
  ghost predicate FormedAborting(blocks: seq<Block>, a: Aborting, p: nat, out: Bytes) {
    if blocks == [] then a.Formed(out)
    else
      && blocks[0].Formed(p, out)
      && FormedAborting(blocks[1..], a, p + |blocks[0].Bits(false, p, out)|, blocks[0].Expand(p, out))
  }

  ghost function AbortingBits(blocks: seq<Block>, final: bool, a: Aborting, p: nat, out: Bytes): seq<bool>
    requires FormedAborting(blocks, a, p, out)
  {
    hide Block.Formed, Block.Bits, Block.Expand, Aborting.Formed, Aborting.Bits;
    if blocks == [] then a.Bits(final, out)
    else
      var head := blocks[0].Bits(false, p, out);
      head + AbortingBits(blocks[1..], final, a, p + |head|, blocks[0].Expand(p, out))
  }

  // Where the inflater aborts, with whatever code lengths, there stand some blocks and then one that aborts.
  lemma {:induction false} AbortRead(bits: seq<bool>, p: nat, out: Bytes)
    returns (blocks: seq<Block>, final: bool, a: Aborting)
    requires p <= |bits| && Blocks(bits, p, out).Panic?
    ensures FormedAborting(blocks, a, p, out) && At(bits, p, AbortingBits(blocks, final, a, p, out))
    decreases |bits| - p
  {
    hide Blocks, BlockBody, Block.Bits, Block.Expand, Block.Formed, Aborting.Formed, Aborting.Bits, At;
    BlocksPanicParts(bits, p, out);
    if BlockBody(bits, p + 1, out).Panic? {
      blocks, final := [], bits[p];
      a := AbortingRead(bits, p, out);
    } else {
      var block := BlockRead(bits, p, out);
      var head, out' := block.Bits(false, p, out), block.Expand(p, out);
      var rest;
      rest, final, a := AbortRead(bits, p + |head|, out');
      blocks := [block] + rest;
      assert blocks[1..] == rest;
      AtJoin(bits, p, head, AbortingBits(rest, final, a, p + |head|, out'));
    }
  }

  // However much of a stream decodes, such a block in it aborts the inflater.
  lemma {:induction false} StreamAborts(blocks: seq<Block>, final: bool, a: Aborting,
                                        bits: seq<bool>, p: nat, out: Bytes)
    requires FormedAborting(blocks, a, p, out) && AllProper(blocks) && a.Proper()
    requires At(bits, p, AbortingBits(blocks, final, a, p, out))
    ensures p <= |bits| && Blocks(bits, p, out).Panic?
    decreases |blocks|
  {
    hide Blocks, BlockBody, Block.Bits, Block.Expand, Block.Formed, Block.Proper;
    hide Aborting.Formed, Aborting.Bits, Aborting.Proper;
    AtEnd(bits, p, AbortingBits(blocks, final, a, p, out));
    BlocksPanicParts(bits, p, out);
    if blocks == [] {
      ReservedAborts(a, final, bits, p, out);
    } else {
      var head, out' := blocks[0].Bits(false, p, out), blocks[0].Expand(p, out);
      AtSplit(bits, p, head, AbortingBits(blocks[1..], final, a, p + |head|, out'));
      BlockDecodes(blocks[0], false, bits, p, out);
      StreamAborts(blocks[1..], final, a, bits, p + |head|, out');
    }
  }

  // ----- The container

  lemma BytesCalm(bits: seq<bool>, p: nat, n: nat)
    ensures !ReadBytes(bits, p, n).Panic?
  {
    hide Value, Align;
  }

  lemma ShortInput(input: Bytes)
    requires |input| < 2
    ensures !Deflate(input).Panic?
  {
    hide Blocks, Value;
    assert |BitsOf(input)| == 8 * |input|;
    hide BitsOf;
  }

  lemma DeflatePanicParts(input: Bytes)
    ensures Deflate(input).Panic? <==>
            |input| >= 2 && ValidHeader(input[0], input[1]) && Blocks(BitsOf(input), 16, []).Panic?
  {
    hide Blocks, BitsOf, ReadBytes;
    if |input| < 2 {
      ShortInput(input);
    } else {
      assert [input[0], input[1]] + input[2..] == input;
      FirstTwoBytes(input[0], input[1], input[2..]);
      var r := Blocks(BitsOf(input), 16, []);
      if r.Ok? {
        BytesCalm(BitsOf(input), r.next, 4);
      }
    }
  }

  // The input aborts with these blocks: a valid header, and then the blocks and what follows them.
  ghost predicate AbortsWith(input: Bytes, blocks: seq<Block>, final: bool, a: Aborting) {
    && |input| >= 2 && ValidHeader(input[0], input[1])
    && FormedAborting(blocks, a, 16, [])
    && At(BitsOf(input), 16, AbortingBits(blocks, final, a, 16, []))
  }

  // The decoder aborts on every input of this form whose codes are prefix-free, and on no input of another form.
  lemma DeflateAborts(input: Bytes)
    ensures (exists blocks, final, a :: AbortsWith(input, blocks, final, a) && AllProper(blocks) && a.Proper())
            ==> Deflate(input).Panic?
    ensures Deflate(input).Panic? ==> exists blocks, final, a :: AbortsWith(input, blocks, final, a)
  {
    hide Blocks, BitsOf, At, FormedAborting, AbortingBits, ValidHeader, Deflate, AllProper, Aborting.Proper;
    DeflatePanicParts(input);
    if Deflate(input).Panic? {
      var blocks, final, a := AbortRead(BitsOf(input), 16, []);
      assert AbortsWith(input, blocks, final, a);
    }
    if blocks, final, a :| AbortsWith(input, blocks, final, a) && AllProper(blocks) && a.Proper() {
      StreamAborts(blocks, final, a, BitsOf(input), 16, []);
    }
  }

  // Such an input, written out: the decoder aborts whatever follows.
  lemma ReservedDeflate(cmf: byte, flg: byte, blocks: seq<Block>, final: bool, a: Aborting,
                        rest: seq<bool>, tail: Bytes)
    requires ValidHeader(cmf, flg) && FormedAborting(blocks, a, 16, []) && AllProper(blocks) && a.Proper()
    ensures Deflate([cmf, flg] + (Pack(AbortingBits(blocks, final, a, 16, []) + rest) + tail)).Panic?
  {
    hide FormedAborting, AbortingBits, AllProper, Aborting.Proper, ValidHeader, Blocks, BitsOf, Pack, At, Deflate;
    var code := AbortingBits(blocks, final, a, 16, []);
    var input := [cmf, flg] + (Pack(code + rest) + tail);
    CodeAfterHeader(cmf, flg, code + rest, tail);
    AtSplit(BitsOf(input), 16, code, rest);
    StreamAborts(blocks, final, a, BitsOf(input), 16, []);
    DeflatePanicParts(input);
  }

  // The bits 11011000, from the lowest on, are the number 27.
  lemma ValueOf27()
    ensures Value([true, true, false, true, true, false, false, false]) == 27 && Value([true, true]) == 3
  {
    assert Pow2(0) == 1 && Pow2(1) == 2 && Pow2(3) == 8 && Pow2(4) == 16;
    assert Value([]) == 0;
    hide Pow2, Value;
    var one := [] + [true];
    var two := one + [true];
    var four := two + [false] + [true];
    var six := four + [true] + [false];
    ValueNext([], true);
    ValueNext(one, true);
    ValueNext(two, false);
    ValueNext(two + [false], true);
    ValueNext(four, true);
    ValueNext(four + [true], false);
    ValueNext(six, false);
    ValueNext(six + [false], false);
    assert two == [true, true] && six + [false] + [false] == [true, true, false, true, true, false, false, false];
  }

  lemma PackOf27()
    ensures Pack([true, true, false, true, true, false, false, false, true, true]) == [27, 3]
  {
    var bits := [true, true, false, true, true, false, false, false, true, true];
    ValueOf27();
    assert bits[..8] == [true, true, false, true, true, false, false, false] && bits[8..] == [true, true];
    hide Value;
    assert Pack(bits[8..]) == [3];
  }

  lemma AbortOf27()
    ensures var a := ReservedFixed([], ReservedLength);
            && FormedAborting([], a, 16, []) && AllProper([]) && a.Proper()
            && AbortingBits([], true, a, 16, []) == [true] + ([true, false] + ([] + LENGTH_GAP))
  {
    assert Pow2(0) == 1 && Pow2(1) == 2;
    hide Pow2, FixedLengths;
    assert Lsb(1, 2) == [true, false];
  }

  // Four bytes that abort the decoder: a header, and a final fixed block that starts with 1100011.
  lemma FourBytesAbort()
    ensures Deflate([120, 1, 27, 3]).Panic?
  {
    hide Deflate, Pack, FormedAborting, AbortingBits, AllProper, Aborting.Proper;
    var a := ReservedFixed([], ReservedLength);
    AbortOf27();
    var code := AbortingBits([], true, a, 16, []);
    assert code + [] == [true, true, false, true, true, false, false, false, true, true];
    PackOf27();
    ReservedDeflate(120, 1, [], true, a, [], []);
    assert [120, 1] + (Pack(code + []) + []) == [120, 1, 27, 3];
  }

  lemma CodeAfterHeader(cmf: byte, flg: byte, code: seq<bool>, tail: Bytes)
    ensures At(BitsOf([cmf, flg] + (Pack(code) + tail)), 16, code)
  {
    BitsOfPack(code);
    BitsOfConcat([cmf, flg], Pack(code) + tail);
    BitsOfConcat(Pack(code), tail);
    AtInside(BitsOf([cmf, flg]), BitsOf(Pack(code)), BitsOf(tail), code);
  }
}
