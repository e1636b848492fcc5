/** Encoding by sections 3.2.3 to 3.2.7 of RFC 1951, and the proof that the decoder inverts it. */
module DeflateEncoder {
  import opened Arith
  import opened BitStream
  import opened Collections
  import opened Huffman
  import opened HuffmanComplete
  import opened InflateSpec

  // ----- LZ77 tokens

  // A match carries its length symbol 257 + k and its distance symbol d, each with the value of its extra bits.
  datatype Token = Literal(b: byte) | Match(k: nat, extra: nat, d: nat, more: nat) {
    predicate InTables() {
      Match? ==>
        && k < LENGTH_SYMBOLS && extra < Pow2(LengthExtra(k))
        && d < DISTANCE_SYMBOLS && more < Pow2(DistanceExtra(d))
    }

    function Length(): nat
      requires Match? && InTables()
    {
      LengthBase(k) + extra
    }

    function Distance(): (distance: nat)
      requires Match? && InTables()
      ensures distance > 0
    {
      DistanceBase(d) + more
    }

    // The symbols of the token have codewords.
    predicate Encodable(ll: seq<nat>, dl: seq<nat>) {
      InTables() &&
      if Literal? then Coded(ll, LITERAL_ALPHABET, b)
      else Coded(ll, LITERAL_ALPHABET, 257 + k) && Coded(dl, DISTANCE_ALPHABET, d)
    }

    function Bits(ll: seq<nat>, dl: seq<nat>): seq<bool>
      requires Encodable(ll, dl)
    {
      if Literal? then Codeword(ll, b)
      else Codeword(ll, 257 + k) + (Lsb(extra, LengthExtra(k)) +
           (Codeword(dl, d) + Lsb(more, DistanceExtra(d))))
    }

    predicate Reaches(out: Bytes) {
      InTables() && (Match? ==> Distance() <= |out|)
    }

    // What the token stands for: a byte, or the last Distance() bytes over and over.
    function Expand(out: Bytes): Bytes
      requires Reaches(out)
    {
      if Literal? then out + [b] else out + Periodic(out, Distance(), Length())
    }
  }

  function Periodic(out: Bytes, distance: nat, length: nat): Bytes
    requires 0 < distance <= |out|
  {
    seq(length, i requires 0 <= i < length => out[|out| - distance + i % distance])
  }

  // The copy loop: every new byte is the one `distance` before it, and the old ones stay.
  lemma {:induction false} CopyStep(out: Bytes, distance: nat, length: nat)
    requires 0 < distance <= |out|
    ensures out <= CopyBack(out, distance, length)
    ensures var r := CopyBack(out, distance, length); forall i | |out| <= i < |r| :: r[i] == r[i - distance]
    decreases length
  {
    if length != 0 {
      CopyStep(out + [out[|out| - distance]], distance, length - 1);
    }
  }

  lemma {:induction false} CopyAt(out: Bytes, distance: nat, length: nat, i: nat)
    requires 0 < distance <= |out| && i < length
    ensures CopyBack(out, distance, length)[|out| + i] == out[|out| - distance + i % distance]
    decreases i
  {
    CopyStep(out, distance, length);
    if i >= distance {
      CopyAt(out, distance, length, i - distance);
      DivUnique(i, distance, (i - distance) / distance + 1, (i - distance) % distance) by {
        assert i - distance == ((i - distance) / distance) * distance + (i - distance) % distance;
      }
    } else {
      DivUnique(i, distance, 0, i);
    }
  }

  // Copying byte by byte, also when the copy overlaps what it writes, repeats the last bytes periodically.
  lemma CopyIsPeriodic(out: Bytes, distance: nat, length: nat)
    requires 0 < distance <= |out|
    ensures CopyBack(out, distance, length) == out + Periodic(out, distance, length)
  {
    CopyStep(out, distance, length);
    forall i | 0 <= i < length
      ensures CopyBack(out, distance, length)[|out| + i] == Periodic(out, distance, length)[i]
    {
      CopyAt(out, distance, length, i);
    }
  }

  predicate AllEncodable(tokens: seq<Token>, ll: seq<nat>, dl: seq<nat>) {
    forall i | 0 <= i < |tokens| :: tokens[i].Encodable(ll, dl)
  }

  predicate AllReach(tokens: seq<Token>, out: Bytes) {
    tokens == [] || (tokens[0].Reaches(out) && AllReach(tokens[1..], tokens[0].Expand(out)))
  }

  function ExpandAll(tokens: seq<Token>, out: Bytes): Bytes
    requires AllReach(tokens, out)
  {
    if tokens == [] then out else ExpandAll(tokens[1..], tokens[0].Expand(out))
  }

  // The tokens, then the end-of-block symbol.
  function DataBits(tokens: seq<Token>, ll: seq<nat>, dl: seq<nat>): seq<bool>
    requires AllEncodable(tokens, ll, dl) && Coded(ll, LITERAL_ALPHABET, 256)
  {
    if tokens == [] then Codeword(ll, 256) else tokens[0].Bits(ll, dl) + DataBits(tokens[1..], ll, dl)
  }

  // A number of n bits, a distance codeword and a number of n' bits are read back one after the other.
  lemma FieldsDecode(extra: nat, n: nat, dl: seq<nat>, d: nat, more: nat, n': nat, m: nat, bits: seq<bool>, p: nat)
    requires extra < Pow2(n) && more < Pow2(n')
    requires Kraft(dl, m) && Coded(dl, DISTANCE_ALPHABET, d)
    requires At(bits, p, Lsb(extra, n) + (Codeword(dl, d) + Lsb(more, n')))
    ensures ReadBits(bits, p, n) == Ok(extra, p + n)
    ensures Walk(BuildTree(dl, DISTANCE_ALPHABET), bits, p + n) == Ok(d, p + n + dl[d])
    ensures At(bits, p + n + dl[d], Lsb(more, n'))
  {
    hide BuildTree, Codeword, Lsb, Kraft, ReadBits, Walk, At, Pow2;
    AtSplit(bits, p, Lsb(extra, n), Codeword(dl, d) + Lsb(more, n'));
    AtSplit(bits, p + n, Codeword(dl, d), Lsb(more, n'));
    CodewordLength(dl, d);
    ReadBack(bits, p, extra, n);
    DecodeCodeword(dl, DISTANCE_ALPHABET, m, d, bits, p + n);
  }

  lemma CopyDecodes(bits: seq<bool>, p: nat, more: nat, n: nat, base: nat, length: nat, out: Bytes)
    requires more < Pow2(n) && At(bits, p, Lsb(more, n)) && 0 < base && more + base <= |out|
    ensures Copy(bits, p, n, base, length, out) == Ok(out + Periodic(out, more + base, length), p + n)
  {
    ReadBack(bits, p, more, n);
    CopyIsPeriodic(out, more + base, length);
  }

  lemma PairIsCopy(bits: seq<bool>, p: nat, distances: Tree, k: nat, extra: nat, d: nat, q: nat, out: Bytes)
    requires distances.Node? && k < LENGTH_SYMBOLS && d < DISTANCE_SYMBOLS
    requires ReadBits(bits, p, LengthExtra(k)) == Ok(extra, p + LengthExtra(k))
    requires Walk(distances, bits, p + LengthExtra(k)) == Ok(d, q)
    ensures Pair(bits, p, distances, k, out)
         == Copy(bits, q, DistanceExtra(d), DistanceBase(d), extra + LengthBase(k), out)
  {
    hide Walk, ReadBits, Copy, LengthExtra, LengthBase, DistanceExtra, DistanceBase;
  }

  lemma MatchDecodes(token: Token, dl: seq<nat>, m: nat, bits: seq<bool>, p: nat, out: Bytes)
    requires token.Match? && Coded(dl, DISTANCE_ALPHABET, token.d) && token.Reaches(out)
    requires Kraft(dl, m)
    requires At(bits, p, Lsb(token.extra, LengthExtra(token.k)) +
                         (Codeword(dl, token.d) + Lsb(token.more, DistanceExtra(token.d))))
    ensures Pair(bits, p, BuildTree(dl, DISTANCE_ALPHABET), token.k, out)
         == Ok(token.Expand(out), p + LengthExtra(token.k) + dl[token.d] + DistanceExtra(token.d))
  {
    hide BuildTree, Codeword, Lsb, Kraft, Walk, ReadBits, Copy, Pair, At, Pow2;
    hide LengthExtra, LengthBase, DistanceExtra, DistanceBase;
    var k, d := token.k, token.d;
    var q := p + LengthExtra(k) + dl[d];
    FieldsDecode(token.extra, LengthExtra(k), dl, d, token.more, DistanceExtra(d), m, bits, p);
    PairIsCopy(bits, p, BuildTree(dl, DISTANCE_ALPHABET), k, token.extra, d, q, out);
    CopyDecodes(bits, q, token.more, DistanceExtra(d), DistanceBase(d), token.Length(), out);
  }

  lemma CodewordLength(bl: seq<nat>, i: nat)
    requires i < |bl|
    ensures |Codeword(bl, i)| == bl[i]
  {
  }

  lemma LiteralDecodes(b: byte, ll: seq<nat>, m: nat, distances: Tree, bits: seq<bool>, p: nat, out: Bytes)
    requires Coded(ll, LITERAL_ALPHABET, b) && Kraft(ll, m) && distances.Node? && At(bits, p, Codeword(ll, b))
    ensures SymbolRound(bits, p, BuildTree(ll, LITERAL_ALPHABET), distances, out)
         == Ok(Round(out + [b], false), p + |Codeword(ll, b)|)
  {
    hide BuildTree, Kraft, Pair, Walk, At, Codeword;
    CodewordLength(ll, b);
    DecodeCodeword(ll, LITERAL_ALPHABET, m, b, bits, p);
  }

  // A length symbol hands over to what stands behind it.
  lemma LengthThenPair(bits: seq<bool>, p: nat, literals: Tree, distances: Tree, k: nat, p1: nat, out: Bytes)
    requires literals.Node? && distances.Node? && Walk(literals, bits, p) == Ok(257 + k, p1)
    requires Pair(bits, p1, distances, k, out).Ok?
    ensures var r := Pair(bits, p1, distances, k, out);
            SymbolRound(bits, p, literals, distances, out) == Ok(Round(r.value, false), r.next)
  {
    hide Walk, Pair;
  }

  lemma TokenDecodes(token: Token, ll: seq<nat>, dl: seq<nat>, m: nat, bits: seq<bool>, p: nat, out: Bytes)
    requires token.Encodable(ll, dl) && token.Reaches(out)
    requires Kraft(ll, m) && Kraft(dl, m)
    requires At(bits, p, token.Bits(ll, dl))
    ensures SymbolRound(bits, p, BuildTree(ll, LITERAL_ALPHABET), BuildTree(dl, DISTANCE_ALPHABET), out)
         == Ok(Round(token.Expand(out), false), p + |token.Bits(ll, dl)|)
  {
    hide BuildTree, Codeword, Kraft, Pair, Walk, At, Lsb, SymbolRound, Periodic, LengthExtra, DistanceExtra, Pow2;
    hide LengthBase, DistanceBase;
    if token.Literal? {
      LiteralDecodes(token.b, ll, m, BuildTree(dl, DISTANCE_ALPHABET), bits, p, out);
    } else {
      var rest := Lsb(token.extra, LengthExtra(token.k)) +
                  (Codeword(dl, token.d) + Lsb(token.more, DistanceExtra(token.d)));
      AtSplit(bits, p, Codeword(ll, 257 + token.k), rest);
      CodewordLength(ll, 257 + token.k);
      CodewordLength(dl, token.d);
      DecodeCodeword(ll, LITERAL_ALPHABET, m, 257 + token.k, bits, p);
      MatchDecodes(token, dl, m, bits, p + ll[257 + token.k], out);
      LengthThenPair(bits, p, BuildTree(ll, LITERAL_ALPHABET), BuildTree(dl, DISTANCE_ALPHABET),
                     token.k, p + ll[257 + token.k], out);
    }
  }

  lemma EndDecodes(ll: seq<nat>, m: nat, distances: Tree, bits: seq<bool>, p: nat, out: Bytes)
    requires Kraft(ll, m) && Coded(ll, LITERAL_ALPHABET, 256) && distances.Node?
    requires At(bits, p, Codeword(ll, 256))
    ensures SymbolRound(bits, p, BuildTree(ll, LITERAL_ALPHABET), distances, out)
         == Ok(Round(out, true), p + |Codeword(ll, 256)|)
  {
    hide BuildTree, Kraft, At, Walk, Pair;
    CodewordLength(ll, 256);
    DecodeCodeword(ll, LITERAL_ALPHABET, m, 256, bits, p);
  }

  lemma RoundNext(bits: seq<bool>, p: nat, literals: Tree, distances: Tree, out: Bytes)
    requires p <= |bits| && literals.Node? && distances.Node? && literals.symbol.None?
    ensures var r := SymbolRound(bits, p, literals, distances, out);
            && (r.Ok? ==> p < r.next <= |bits|)
            && BlockData(bits, p, literals, distances, out)
               == if !r.Ok? then r.PropagateFailure()
                  else if r.value.over then Ok(r.value.out, r.next)
                  else BlockData(bits, r.next, literals, distances, r.value.out)
  {
    RoundProgress(bits, p, literals, distances, out);
    hide SymbolRound;
  }

  lemma DataSplit(tokens: seq<Token>, ll: seq<nat>, dl: seq<nat>, bits: seq<bool>, p: nat, out: Bytes)
    requires tokens != [] && AllEncodable(tokens, ll, dl) && AllReach(tokens, out)
    requires Coded(ll, LITERAL_ALPHABET, 256) && At(bits, p, DataBits(tokens, ll, dl))
    ensures tokens[0].Encodable(ll, dl) && AllEncodable(tokens[1..], ll, dl)
    ensures tokens[0].Reaches(out) && AllReach(tokens[1..], tokens[0].Expand(out))
    ensures ExpandAll(tokens, out) == ExpandAll(tokens[1..], tokens[0].Expand(out))
    ensures DataBits(tokens, ll, dl) == tokens[0].Bits(ll, dl) + DataBits(tokens[1..], ll, dl)
    ensures At(bits, p, tokens[0].Bits(ll, dl))
    ensures At(bits, p + |tokens[0].Bits(ll, dl)|, DataBits(tokens[1..], ll, dl))
  {
    hide Token.Bits, Token.Expand, Token.Encodable, Token.Reaches;
    AtSplit(bits, p, tokens[0].Bits(ll, dl), DataBits(tokens[1..], ll, dl));
  }

  lemma NoTokens(ll: seq<nat>, dl: seq<nat>, out: Bytes)
    requires Coded(ll, LITERAL_ALPHABET, 256)
    ensures AllReach([], out) && ExpandAll([], out) == out && DataBits([], ll, dl) == Codeword(ll, 256)
  {
  }

  lemma {:induction false} DataDecodes(tokens: seq<Token>, ll: seq<nat>, dl: seq<nat>, m: nat,
                                       bits: seq<bool>, p: nat, out: Bytes)
    requires AllEncodable(tokens, ll, dl) && Coded(ll, LITERAL_ALPHABET, 256) && AllReach(tokens, out)
    requires Kraft(ll, m) && Kraft(dl, m)
    requires At(bits, p, DataBits(tokens, ll, dl))
    ensures BuildTree(ll, LITERAL_ALPHABET).symbol.None? && p <= |bits|
    ensures BlockData(bits, p, BuildTree(ll, LITERAL_ALPHABET), BuildTree(dl, DISTANCE_ALPHABET), out)
         == Ok(ExpandAll(tokens, out), p + |DataBits(tokens, ll, dl)|)
    decreases |tokens|
  {
    hide Kraft, Codeword, SymbolRound, BlockData, At, AllEncodable, AllReach, ExpandAll, DataBits;
    hide Token.Bits, Token.Expand, Token.Encodable, Token.Reaches;
    BuiltWellFormed(ll, LITERAL_ALPHABET, |ll|);
    hide BuildTree, WellFormed;
    AtEnd(bits, p, DataBits(tokens, ll, dl));
    var literals, distances := BuildTree(ll, LITERAL_ALPHABET), BuildTree(dl, DISTANCE_ALPHABET);
    RoundNext(bits, p, literals, distances, out);
    if tokens == [] {
      NoTokens(ll, dl, out);
      EndDecodes(ll, m, distances, bits, p, out);
    } else {
      DataSplit(tokens, ll, dl, bits, p, out);
      var head := tokens[0].Bits(ll, dl);
      TokenDecodes(tokens[0], ll, dl, m, bits, p, out);
      DataDecodes(tokens[1..], ll, dl, m, bits, p + |head|, tokens[0].Expand(out));
    }
  }

  // ----- Dynamic code lengths (section 3.2.7)

  // One symbol of the code length alphabet: a length, or a run.
  datatype Run = Length(l: nat) | Previous(n: nat) | Zeros(n: nat) | ManyZeros(n: nat) {
    function Symbol(): nat {
      match this
      case Length(l) => l
      case Previous(_) => 16
      case Zeros(_) => 17
      case ManyZeros(_) => 18
    }

    function ExtraBits(): seq<bool> {
      match this
      case Length(_) => []
      case Previous(n) => Lsb(n, 2)
      case Zeros(n) => Lsb(n, 3)
      case ManyZeros(n) => Lsb(n, 7)
    }

    predicate Valid(bl: seq<nat>) {
      match this
      case Length(l) => l <= 15
      case Previous(n) => n < 4 && bl != []
      case Zeros(n) => n < 8
      case ManyZeros(n) => n < 128
    }

    function Expand(bl: seq<nat>): (r: seq<nat>)
      requires Valid(bl)
      ensures |r| > |bl|
    {
      match this
      case Length(l) => bl + [l]
      case Previous(n) => bl + Repeat(bl[|bl| - 1], n + 3)
      case Zeros(n) => bl + Repeat(0, n + 3)
      case ManyZeros(n) => bl + Repeat(0, n + 11)
    }
  }

  // The runs bring the list to the wanted number of lengths, and only the last run does.
  predicate RunsReach(runs: seq<Run>, bl: seq<nat>, wanted: nat) {
    if |bl| >= wanted then runs == []
    else runs != [] && runs[0].Valid(bl) && RunsReach(runs[1..], runs[0].Expand(bl), wanted)
  }

  function ExpandRuns(runs: seq<Run>, bl: seq<nat>, wanted: nat): (r: seq<nat>)
    requires RunsReach(runs, bl, wanted)
    ensures |r| >= wanted
  {
    if runs == [] then bl else ExpandRuns(runs[1..], runs[0].Expand(bl), wanted)
  }

  predicate RunsCoded(runs: seq<Run>, cl: seq<nat>) {
    forall i | 0 <= i < |runs| :: Coded(cl, CODE_LENGTH_ALPHABET, runs[i].Symbol())
  }

  function RunsBits(runs: seq<Run>, cl: seq<nat>): seq<bool>
    requires RunsCoded(runs, cl)
  {
    if runs == [] then [] else Codeword(cl, runs[0].Symbol()) + (runs[0].ExtraBits() + RunsBits(runs[1..], cl))
  }

  lemma RunDecodes(run: Run, cl: seq<nat>, bl: seq<nat>, bits: seq<bool>, p: nat)
    requires Kraft(cl, 7) && Coded(cl, CODE_LENGTH_ALPHABET, run.Symbol()) && run.Valid(bl)
    requires At(bits, p, Codeword(cl, run.Symbol())) && At(bits, p + cl[run.Symbol()], run.ExtraBits())
    ensures LengthRound(bits, p, BuildTree(cl, CODE_LENGTH_ALPHABET), bl)
         == Ok(run.Expand(bl), p + cl[run.Symbol()] + |run.ExtraBits()|)
  {
    hide BuildTree, Kraft, Walk, Codeword, At, ReadBits, Lsb;
    DecodeCodeword(cl, CODE_LENGTH_ALPHABET, 7, run.Symbol(), bits, p);
    var q := p + cl[run.Symbol()];
    match run {
      case Length(_) =>
      case Previous(n) => ReadBack(bits, q, n, 2);
      case Zeros(n) => ReadBack(bits, q, n, 3);
      case ManyZeros(n) => assert Pow2(7) == 128; ReadBack(bits, q, n, 7);
    }
  }

  lemma {:induction false} RunsDecode(runs: seq<Run>, cl: seq<nat>, bl: seq<nat>, wanted: nat, bits: seq<bool>, p: nat)
    requires Kraft(cl, 7) && RunsCoded(runs, cl) && RunsReach(runs, bl, wanted)
    requires At(bits, p, RunsBits(runs, cl))
    ensures p <= |bits|
    ensures ReadLengths(bits, p, BuildTree(cl, CODE_LENGTH_ALPHABET), wanted, bl)
         == Ok(ExpandRuns(runs, bl, wanted), p + |RunsBits(runs, cl)|)
    decreases |runs|
  {
    hide BuildTree, Kraft, Codeword, LengthRound, At, Run.ExtraBits, Run.Expand;
    var tree := BuildTree(cl, CODE_LENGTH_ALPHABET);
    AtEnd(bits, p, RunsBits(runs, cl));
    LengthProgress(bits, p, tree, bl);
    if runs != [] {
      var code, extra, rest := Codeword(cl, runs[0].Symbol()), runs[0].ExtraBits(), RunsBits(runs[1..], cl);
      CodewordLength(cl, runs[0].Symbol());
      AtSplit(bits, p, code, extra + rest);
      AtSplit(bits, p + |code|, extra, rest);
      RunDecodes(runs[0], cl, bl, bits, p);
      RunsDecode(runs[1..], cl, runs[0].Expand(bl), wanted, bits, p + |code| + |extra|);
    }
  }

  // Where each code length symbol stands in the transmission order.
  const RANK: seq<nat> := [3, 17, 15, 13, 11, 9, 7, 5, 4, 6, 8, 10, 12, 14, 16, 18, 0, 1, 2]

  lemma RankInvertsOrder(i: nat)
    requires i < 19
    ensures RANK[OrderAt(i)] == i && OrderAt(RANK[i]) == i
  {
    if i < 5 {
    } else if i < 10 {
    } else if i < 15 {
    }
  }

  // The code length lengths known after i of them were read.
  function Known(cl: seq<nat>, i: nat): seq<nat>
    requires |cl| == 19
  {
    seq(19, x requires 0 <= x < 19 => if RANK[x] < i then cl[x] else 0)
  }

  predicate LengthLengths(cl: seq<nat>, hclen: nat) {
    && |cl| == 19
    && 4 <= hclen <= 19
    && (forall x | 0 <= x < 19 :: cl[x] < 8)
    && (forall x | 0 <= x < 19 :: RANK[x] >= hclen ==> cl[x] == 0)
  }

  function LengthLengthBits(cl: seq<nat>, i: nat, hclen: nat): seq<bool>
    requires LengthLengths(cl, hclen) && i <= hclen
    decreases hclen - i
  {
    if i == hclen then [] else Lsb(cl[OrderAt(i)], 3) + LengthLengthBits(cl, i + 1, hclen)
  }

  lemma KnownNext(cl: seq<nat>, i: nat)
    requires |cl| == 19 && i < 19
    ensures Known(cl, i)[OrderAt(i) := cl[OrderAt(i)]] == Known(cl, i + 1)
  {
    var o := OrderAt(i);
    RankInvertsOrder(i);
    forall x | 0 <= x < 19 ensures x != o ==> RANK[x] != i {
      RankInvertsOrder(x);
    }
  }

  lemma {:induction false} LengthLengthsDecode(cl: seq<nat>, i: nat, hclen: nat, bits: seq<bool>, p: nat)
    requires LengthLengths(cl, hclen) && i <= hclen
    requires At(bits, p, LengthLengthBits(cl, i, hclen))
    ensures ReadLengthLengths(bits, p, i, hclen, Known(cl, i)) == Ok(cl, p + |LengthLengthBits(cl, i, hclen)|)
    decreases hclen - i
  {
    hide Lsb, ReadBits, OrderAt;
    if i == hclen {
      assert Known(cl, i) == cl;
    } else {
      var o := OrderAt(i);
      AtSplit(bits, p, Lsb(cl[o], 3), LengthLengthBits(cl, i + 1, hclen));
      ReadBack(bits, p, cl[o], 3);
      KnownNext(cl, i);
      LengthLengthsDecode(cl, i + 1, hclen, bits, p + 3);
    }
  }

  datatype DynamicHeader = DynamicHeader(hlit: nat, hdist: nat, hclen: nat, cl: seq<nat>, runs: seq<Run>) {
    // The counts and the code length lengths can be written down.
    predicate StartFormed() {
      && 257 <= hlit <= 288
      && 1 <= hdist <= 32
      && LengthLengths(cl, hclen)
    }

    // So can the whole header.
    predicate Formed() {
      && StartFormed()
      && RunsCoded(runs, cl)
      && RunsReach(runs, [], hlit + hdist)
    }

    // And its three codes are prefix-free.
    predicate Valid() {
      && Formed()
      && Kraft(cl, 7)
      && Kraft(LiteralLengths(), 15)
      && Kraft(DistanceLengths(), 15)
    }

    function Lengths(): (bl: seq<nat>)
      requires RunsReach(runs, [], hlit + hdist)
      ensures |bl| >= hlit + hdist
    {
      ExpandRuns(runs, [], hlit + hdist)
    }

    function LiteralLengths(): seq<nat>
      requires RunsReach(runs, [], hlit + hdist)
    {
      Lengths()[..hlit]
    }

    // Everything after the literal lengths, also what a last run adds beyond hlit + hdist.
    function DistanceLengths(): seq<nat>
      requires RunsReach(runs, [], hlit + hdist)
    {
      Lengths()[hlit..]
    }

    function Counts(): seq<bool>
      requires StartFormed()
    {
      Lsb(hlit - 257, 5) + (Lsb(hdist - 1, 5) + Lsb(hclen - 4, 4))
    }

    function Start(): seq<bool>
      requires StartFormed()
    {
      Counts() + LengthLengthBits(cl, 0, hclen)
    }

    function Bits(): seq<bool>
      requires Formed()
    {
      Start() + RunsBits(runs, cl)
    }
  }

  lemma HeaderDecodes(h: DynamicHeader, bits: seq<bool>, p: nat)
    requires h.StartFormed() && At(bits, p, h.Start())
    ensures ReadHeader(bits, p) == Ok(Header(h.hlit, h.hdist, h.cl), p + |h.Start()|)
  {
    hide Lsb, ReadBits, LengthLengthBits, ReadLengthLengths, At, LengthLengths;
    LengthLengthsSize(h.cl, h.hclen);
    var a, b, c := Lsb(h.hlit - 257, 5), Lsb(h.hdist - 1, 5), Lsb(h.hclen - 4, 4);
    AtSplit(bits, p, h.Counts(), LengthLengthBits(h.cl, 0, h.hclen));
    AtSplit(bits, p, a, b + c);
    AtSplit(bits, p + 5, b, c);
    assert Pow2(5) == 32;
    ReadBack(bits, p, h.hlit - 257, 5);
    ReadBack(bits, p + 5, h.hdist - 1, 5);
    ReadBack(bits, p + 10, h.hclen - 4, 4);
    assert Known(h.cl, 0) == Repeat<nat>(0, 19);
    LengthLengthsDecode(h.cl, 0, h.hclen, bits, p + 14);
  }

  lemma LengthLengthsSize(cl: seq<nat>, hclen: nat)
    requires LengthLengths(cl, hclen)
    ensures |cl| == 19 && 4 <= hclen <= 19
  {
  }

  lemma TreesDecode(h: DynamicHeader, bits: seq<bool>, p: nat)
    requires h.Valid() && At(bits, p, h.Bits())
    ensures p <= |bits|
    ensures DecodeTrees(bits, p) == Ok(TreesOf(h.Lengths(), h.hlit), p + |h.Bits()|)
  {
    hide ReadHeader, ReadLengths, TreesOf, BuildTree, Kraft, RunsReach, RunsCoded, LengthLengths, ExpandRuns;
    hide At, RunsBits, DynamicHeader.Start, DynamicHeader.StartFormed;
    AtSplit(bits, p, h.Start(), RunsBits(h.runs, h.cl));
    HeaderDecodes(h, bits, p);
    RunsDecode(h.runs, h.cl, [], h.hlit + h.hdist, bits, p + |h.Start()|);
  }
}
