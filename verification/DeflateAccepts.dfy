/** Everything that decodes is an encoding: what the decoder accepts, read backwards, for any code lengths. */
module DeflateAccepts {
  import opened Arith
  import opened BitStream
  import opened DeflateEncoder
  import opened Huffman
  import opened HuffmanComplete
  import opened HuffmanConverse
  import opened InflateSpec

  // ----- Fields

  lemma AtJoin<T>(s: seq<T>, p: nat, a: seq<T>, b: seq<T>)
    requires At(s, p, a) && At(s, p + |a|, b)
    ensures At(s, p, a + b)
  {
    assert s[p..p + |a + b|] == s[p..p + |a|] + s[p + |a|..p + |a| + |b|];
  }

  // The number that n bits read is written in these bits.
  lemma BitsRead(bits: seq<bool>, p: nat, n: nat)
    requires ReadBits(bits, p, n).Ok?
    ensures var r := ReadBits(bits, p, n);
            r.next == p + n <= |bits| && r.value < Pow2(n) && At(bits, p, Lsb(r.value, n))
  {
    ValueBound(bits[p..p + n]);
    LsbOfValue(bits[p..p + n]);
    hide Value, Lsb;
  }

  // ----- Tokens

  lemma CopyRead(bits: seq<bool>, p: nat, n: nat, base: nat, length: nat, out: Bytes) returns (more: nat)
    requires base > 0 && Copy(bits, p, n, base, length, out).Ok?
    ensures more < Pow2(n) && more + base <= |out| && At(bits, p, Lsb(more, n))
    ensures Copy(bits, p, n, base, length, out) == Ok(out + Periodic(out, more + base, length), p + n)
  {
    BitsRead(bits, p, n);
    more := ReadBits(bits, p, n).value;
    CopyIsPeriodic(out, more + base, length);
    hide ReadBits, Lsb, Pow2, At, Periodic, CopyBack;
  }

  lemma DistanceRead(bits: seq<bool>, p: nat, dl: seq<nat>)
    requires p <= |bits| && Walk(BuildTree(dl, DISTANCE_ALPHABET), bits, p).Ok?
    ensures var r := Walk(BuildTree(dl, DISTANCE_ALPHABET), bits, p);
            && Coded(dl, DISTANCE_ALPHABET, r.value) && r.next == p + dl[r.value] <= |bits|
            && At(bits, p, Codeword(dl, r.value))
  {
    hide Walk, BuildTree, At, Codeword;
    var i := DecodedIsCodeword(dl, DISTANCE_ALPHABET, bits, p);
    AtEnd(bits, p, Codeword(dl, i));
    CodewordLength(dl, i);
  }

  lemma LiteralRead(bits: seq<bool>, p: nat, ll: seq<nat>)
    requires p <= |bits| && Walk(BuildTree(ll, LITERAL_ALPHABET), bits, p).Ok?
    ensures var r := Walk(BuildTree(ll, LITERAL_ALPHABET), bits, p);
            && Coded(ll, LITERAL_ALPHABET, r.value) && r.next == p + ll[r.value] <= |bits|
            && At(bits, p, Codeword(ll, r.value))
  {
    hide Walk, BuildTree, At, Codeword;
    var i := DecodedIsCodeword(ll, LITERAL_ALPHABET, bits, p);
    AtEnd(bits, p, Codeword(ll, i));
    CodewordLength(ll, i);
  }

  // The parts of a pair that was read.
  lemma PairParts(bits: seq<bool>, p: nat, distances: Tree, k: nat, out: Bytes)
    requires distances.Node? && Pair(bits, p, distances, k, out).Ok?
    ensures k < LENGTH_SYMBOLS && ReadBits(bits, p, LengthExtra(k)).Ok?
    ensures var e := ReadBits(bits, p, LengthExtra(k));
            var d := Walk(distances, bits, e.next);
            && d.Ok? && d.value < DISTANCE_SYMBOLS
            && Pair(bits, p, distances, k, out)
               == Copy(bits, d.next, DistanceExtra(d.value), DistanceBase(d.value), e.value + LengthBase(k), out)
  {
    hide Walk, ReadBits, Copy, LengthExtra, LengthBase, DistanceExtra, DistanceBase;
  }

  // What stands behind a length symbol.
  function MatchTail(token: Token, dl: seq<nat>): seq<bool>
    requires token.Match? && token.InTables() && token.d < |dl|
  {
    Lsb(token.extra, LengthExtra(token.k)) + (Codeword(dl, token.d) + Lsb(token.more, DistanceExtra(token.d)))
  }

  lemma MatchRead(bits: seq<bool>, p: nat, dl: seq<nat>, k: nat, out: Bytes) returns (token: Token)
    requires p <= |bits| && Pair(bits, p, BuildTree(dl, DISTANCE_ALPHABET), k, out).Ok?
    ensures token.Match? && token.k == k && token.Reaches(out) && Coded(dl, DISTANCE_ALPHABET, token.d)
    ensures At(bits, p, MatchTail(token, dl))
    ensures Pair(bits, p, BuildTree(dl, DISTANCE_ALPHABET), k, out) == Ok(token.Expand(out), p + |MatchTail(token, dl)|)
  {
    hide BuildTree, Walk, ReadBits, Copy, Pair, At, Lsb, Codeword, Pow2, LengthExtra, LengthBase, DistanceExtra;
    hide DistanceBase, Periodic;
    PairParts(bits, p, BuildTree(dl, DISTANCE_ALPHABET), k, out);
    BitsRead(bits, p, LengthExtra(k));
    var e := ReadBits(bits, p, LengthExtra(k));
    DistanceRead(bits, e.next, dl);
    var d := Walk(BuildTree(dl, DISTANCE_ALPHABET), bits, e.next);
    var more := CopyRead(bits, d.next, DistanceExtra(d.value), DistanceBase(d.value), e.value + LengthBase(k), out);
    token := Match(k, e.value, d.value, more);
    CodewordLength(dl, d.value);
    AtJoin(bits, e.next, Codeword(dl, d.value), Lsb(more, DistanceExtra(d.value)));
    AtJoin(bits, p, Lsb(e.value, LengthExtra(k)), Codeword(dl, d.value) + Lsb(more, DistanceExtra(d.value)));
  }

  // A round of the symbol loop that does not end the block has read a token.
  lemma TokenRead(bits: seq<bool>, p: nat, ll: seq<nat>, dl: seq<nat>, out: Bytes) returns (token: Token)
    requires p <= |bits|
    requires var r := SymbolRound(bits, p, BuildTree(ll, LITERAL_ALPHABET), BuildTree(dl, DISTANCE_ALPHABET), out);
             r.Ok? && !r.value.over
    ensures token.Encodable(ll, dl) && token.Reaches(out) && At(bits, p, token.Bits(ll, dl))
    ensures SymbolRound(bits, p, BuildTree(ll, LITERAL_ALPHABET), BuildTree(dl, DISTANCE_ALPHABET), out)
         == Ok(Round(token.Expand(out), false), p + |token.Bits(ll, dl)|)
  {
    hide BuildTree, Walk, Pair, At, Codeword, Periodic, LengthExtra, LengthBase, DistanceExtra, DistanceBase, Lsb;
    LiteralRead(bits, p, ll);
    var s := Walk(BuildTree(ll, LITERAL_ALPHABET), bits, p);
    CodewordLength(ll, s.value);
    if s.value <= 255 {
      token := Literal(s.value);
    } else {
      token := MatchRead(bits, s.next, dl, s.value - 257, out);
      AtJoin(bits, p, Codeword(ll, s.value), MatchTail(token, dl));
    }
  }

  // A round that ends the block has read the end-of-block symbol.
  lemma EndRead(bits: seq<bool>, p: nat, ll: seq<nat>, distances: Tree, out: Bytes)
    requires p <= |bits| && distances.Node?
    requires var r := SymbolRound(bits, p, BuildTree(ll, LITERAL_ALPHABET), distances, out); r.Ok? && r.value.over
    ensures Coded(ll, LITERAL_ALPHABET, 256) && At(bits, p, Codeword(ll, 256))
    ensures SymbolRound(bits, p, BuildTree(ll, LITERAL_ALPHABET), distances, out)
         == Ok(Round(out, true), p + |Codeword(ll, 256)|)
  {
    hide BuildTree, Walk, Pair, At, Codeword;
    LiteralRead(bits, p, ll);
    CodewordLength(ll, 256);
  }

  lemma FirstToken(token: Token, tokens: seq<Token>, ll: seq<nat>, dl: seq<nat>, out: Bytes)
    requires token.Encodable(ll, dl) && AllEncodable(tokens, ll, dl) && token.Reaches(out)
    requires AllReach(tokens, token.Expand(out)) && Coded(ll, LITERAL_ALPHABET, 256)
    ensures var all := [token] + tokens;
            && AllEncodable(all, ll, dl) && AllReach(all, out)
            && ExpandAll(all, out) == ExpandAll(tokens, token.Expand(out))
            && DataBits(all, ll, dl) == token.Bits(ll, dl) + DataBits(tokens, ll, dl)
  {
    assert ([token] + tokens)[1..] == tokens;
    hide Token.Bits, Token.Expand, Token.Encodable, Token.Reaches;
  }

  // The data of a block that decodes, with whatever code lengths, is the encoding of some tokens.
  lemma {:induction false} DataRead(bits: seq<bool>, p: nat, ll: seq<nat>, dl: seq<nat>, out: Bytes)
    returns (tokens: seq<Token>)
    requires p <= |bits| && BuildTree(ll, LITERAL_ALPHABET).symbol.None?
    requires BlockData(bits, p, BuildTree(ll, LITERAL_ALPHABET), BuildTree(dl, DISTANCE_ALPHABET), out).Ok?
    ensures AllEncodable(tokens, ll, dl) && Coded(ll, LITERAL_ALPHABET, 256) && AllReach(tokens, out)
    ensures At(bits, p, DataBits(tokens, ll, dl))
    ensures BlockData(bits, p, BuildTree(ll, LITERAL_ALPHABET), BuildTree(dl, DISTANCE_ALPHABET), out)
         == Ok(ExpandAll(tokens, out), p + |DataBits(tokens, ll, dl)|)
    decreases |bits| - p
  {
    hide BuildTree, BlockData, SymbolRound, At, Codeword, AllReach, ExpandAll, DataBits;
    hide Token.Bits, Token.Expand, Token.Encodable, Token.Reaches;
    var literals, distances := BuildTree(ll, LITERAL_ALPHABET), BuildTree(dl, DISTANCE_ALPHABET);
    RoundNext(bits, p, literals, distances, out);
    var r := SymbolRound(bits, p, literals, distances, out);
    if r.value.over {
      EndRead(bits, p, ll, distances, out);
      tokens := [];
      NoTokens(ll, dl, out);
    } else {
      var token := TokenRead(bits, p, ll, dl, out);
      tokens := DataRead(bits, r.next, ll, dl, r.value.out);
      FirstToken(token, tokens, ll, dl, out);
      AtJoin(bits, p, token.Bits(ll, dl), DataBits(tokens, ll, dl));
      tokens := [token] + tokens;
    }
  }

  // ----- Dynamic headers

  lemma RunSymbolRead(bits: seq<bool>, p: nat, cl: seq<nat>)
    requires p <= |bits| && Walk(BuildTree(cl, CODE_LENGTH_ALPHABET), bits, p).Ok?
    ensures var r := Walk(BuildTree(cl, CODE_LENGTH_ALPHABET), bits, p);
            && Coded(cl, CODE_LENGTH_ALPHABET, r.value) && r.next == p + cl[r.value] <= |bits|
            && At(bits, p, Codeword(cl, r.value))
  {
    hide Walk, BuildTree, At, Codeword;
    var i := DecodedIsCodeword(cl, CODE_LENGTH_ALPHABET, bits, p);
    AtEnd(bits, p, Codeword(cl, i));
    CodewordLength(cl, i);
  }

  lemma RunRead(bits: seq<bool>, p: nat, cl: seq<nat>, bl: seq<nat>) returns (run: Run)
    requires p <= |bits| && LengthRound(bits, p, BuildTree(cl, CODE_LENGTH_ALPHABET), bl).Ok?
    ensures Coded(cl, CODE_LENGTH_ALPHABET, run.Symbol()) && run.Valid(bl)
    ensures At(bits, p, Codeword(cl, run.Symbol()) + run.ExtraBits())
    ensures LengthRound(bits, p, BuildTree(cl, CODE_LENGTH_ALPHABET), bl)
         == Ok(run.Expand(bl), p + |Codeword(cl, run.Symbol()) + run.ExtraBits()|)
  {
    hide BuildTree, Walk, Codeword, At, ReadBits, Lsb;
    RunSymbolRead(bits, p, cl);
    var s := Walk(BuildTree(cl, CODE_LENGTH_ALPHABET), bits, p);
    CodewordLength(cl, s.value);
    var q := s.next;
    assert Pow2(2) == 4 && Pow2(3) == 8 && Pow2(7) == 128;
    hide Pow2;
    if s.value <= 15 {
      run := Length(s.value);
      AtNothing(bits, q);
    } else if s.value == 16 {
      BitsRead(bits, q, 2);
      run := Previous(ReadBits(bits, q, 2).value);
    } else if s.value == 17 {
      BitsRead(bits, q, 3);
      run := Zeros(ReadBits(bits, q, 3).value);
    } else {
      BitsRead(bits, q, 7);
      run := ManyZeros(ReadBits(bits, q, 7).value);
    }
    AtJoin(bits, p, Codeword(cl, s.value), run.ExtraBits());
  }

  lemma FirstRun(run: Run, runs: seq<Run>, cl: seq<nat>, bl: seq<nat>, wanted: nat)
    requires |bl| < wanted && run.Valid(bl) && RunsReach(runs, run.Expand(bl), wanted)
    requires Coded(cl, CODE_LENGTH_ALPHABET, run.Symbol()) && RunsCoded(runs, cl)
    ensures var all := [run] + runs;
            && RunsReach(all, bl, wanted) && RunsCoded(all, cl)
            && ExpandRuns(all, bl, wanted) == ExpandRuns(runs, run.Expand(bl), wanted)
            && RunsBits(all, cl) == Codeword(cl, run.Symbol()) + (run.ExtraBits() + RunsBits(runs, cl))
  {
    assert ([run] + runs)[1..] == runs;
    hide Run.Expand, Run.Valid, Run.ExtraBits, Run.Symbol, Codeword;
  }

  lemma NoRuns(cl: seq<nat>, bl: seq<nat>, wanted: nat)
    requires |bl| >= wanted
    ensures RunsReach([], bl, wanted) && RunsCoded([], cl)
    ensures ExpandRuns([], bl, wanted) == bl && RunsBits([], cl) == []
  {
  }

  lemma LengthsNext(bits: seq<bool>, p: nat, tree: Tree, wanted: nat, bl: seq<nat>)
    requires p <= |bits| && tree.Node?
    ensures |bl| >= wanted ==> ReadLengths(bits, p, tree, wanted, bl) == Ok(bl, p)
    ensures var r := LengthRound(bits, p, tree, bl);
            && (r.Ok? ==> p <= r.next <= |bits| && |r.value| > |bl|)
            && (|bl| < wanted ==>
                  ReadLengths(bits, p, tree, wanted, bl)
                  == if r.Ok? then ReadLengths(bits, r.next, tree, wanted, r.value) else r)
  {
    LengthProgress(bits, p, tree, bl);
    hide LengthRound;
  }

  // A list of code lengths that was read is the expansion of some runs.
  lemma {:induction false} LengthsRead(bits: seq<bool>, p: nat, cl: seq<nat>, wanted: nat, bl: seq<nat>)
    returns (runs: seq<Run>)
    requires p <= |bits| && ReadLengths(bits, p, BuildTree(cl, CODE_LENGTH_ALPHABET), wanted, bl).Ok?
    ensures RunsCoded(runs, cl) && RunsReach(runs, bl, wanted) && At(bits, p, RunsBits(runs, cl))
    ensures ReadLengths(bits, p, BuildTree(cl, CODE_LENGTH_ALPHABET), wanted, bl)
         == Ok(ExpandRuns(runs, bl, wanted), p + |RunsBits(runs, cl)|)
    decreases wanted - |bl|
  {
    hide BuildTree, LengthRound, ReadLengths, At, Codeword, RunsReach, RunsCoded, ExpandRuns, RunsBits;
    hide Run.Symbol, Run.ExtraBits, Run.Valid, Run.Expand;
    var tree := BuildTree(cl, CODE_LENGTH_ALPHABET);
    LengthsNext(bits, p, tree, wanted, bl);
    if |bl| >= wanted {
      runs := [];
      NoRuns(cl, bl, wanted);
      AtNothing(bits, p);
    } else {
      var run := RunRead(bits, p, cl, bl);
      var head := Codeword(cl, run.Symbol()) + run.ExtraBits();
      runs := LengthsRead(bits, p + |head|, cl, wanted, run.Expand(bl));
      FirstRun(run, runs, cl, bl, wanted);
      AtJoin(bits, p, head, RunsBits(runs, cl));
      assert head + RunsBits(runs, cl) == Codeword(cl, run.Symbol()) + (run.ExtraBits() + RunsBits(runs, cl));
      runs := [run] + runs;
    }
  }

  // The code length lengths from the i-th on are still zero.
  predicate Fresh(bl: seq<nat>, i: nat) {
    && |bl| == 19
    && (forall x | 0 <= x < 19 :: bl[x] < 8)
    && (forall x | 0 <= x < 19 :: RANK[x] >= i ==> bl[x] == 0)
  }

  lemma FreshNext(bl: seq<nat>, i: nat, l: nat)
    requires Fresh(bl, i) && i < 19 && l < 8
    ensures Fresh(bl[OrderAt(i) := l], i + 1)
    ensures forall x | 0 <= x < 19 :: RANK[x] < i ==> bl[OrderAt(i) := l][x] == bl[x]
  {
    RankInvertsOrder(i);
    forall x | 0 <= x < 19 ensures x != OrderAt(i) ==> RANK[x] != i {
      RankInvertsOrder(x);
    }
    hide OrderAt;
  }

  lemma {:induction false} LengthLengthsRead(bits: seq<bool>, p: nat, i: nat, hclen: nat, bl: seq<nat>)
    requires p <= |bits| && i <= hclen <= 19 && 4 <= hclen && Fresh(bl, i)
    requires ReadLengthLengths(bits, p, i, hclen, bl).Ok?
    ensures var r := ReadLengthLengths(bits, p, i, hclen, bl);
            && LengthLengths(r.value, hclen)
            && (forall x | 0 <= x < 19 :: RANK[x] < i ==> r.value[x] == bl[x])
            && At(bits, p, LengthLengthBits(r.value, i, hclen))
            && r.next == p + |LengthLengthBits(r.value, i, hclen)| <= |bits|
    decreases hclen - i
  {
    hide Lsb, ReadBits, OrderAt, At;
    if i == hclen {
      AtNothing(bits, p);
    } else {
      BitsRead(bits, p, 3);
      assert Pow2(3) == 8;
      hide Pow2;
      var l := ReadBits(bits, p, 3).value;
      FreshNext(bl, i, l);
      LengthLengthsRead(bits, p + 3, i + 1, hclen, bl[OrderAt(i) := l]);
      var cl := ReadLengthLengths(bits, p, i, hclen, bl).value;
      RankInvertsOrder(i);
      assert cl[OrderAt(i)] == l;
      AtJoin(bits, p, Lsb(l, 3), LengthLengthBits(cl, i + 1, hclen));
    }
  }
}
