/** Where the decoder aborts inside the data of a block or inside a dynamic header, for any code lengths. */
module DataAborts {
  import opened Arith
  import opened BitStream
  import opened Collections
  import opened DeflateAccepts
  import opened DeflateEncoder
  import opened Huffman
  import opened HuffmanComplete
  import opened HuffmanConverse
  import opened InflateSpec

  // ----- One round of the symbol loop

  // What has no meaning where a token should stand: a gap of the literal code, or a length with its extra bits and
  // then a gap of the distance code.
  datatype Stray = InLiterals(gap: seq<bool>) | InDistances(k: nat, extra: nat, gap: seq<bool>) {
    ghost predicate Valid(ll: seq<nat>, dl: seq<nat>) {
      match this
      case InLiterals(gap) => Gap(ll, LITERAL_ALPHABET, gap)
      case InDistances(k, extra, gap) =>
        && k < LENGTH_SYMBOLS && extra < Pow2(LengthExtra(k))
        && Coded(ll, LITERAL_ALPHABET, 257 + k) && Gap(dl, DISTANCE_ALPHABET, gap)
    }

    ghost function Bits(ll: seq<nat>, dl: seq<nat>): seq<bool>
      requires Valid(ll, dl)
    {
      match this
      case InLiterals(gap) => gap
      case InDistances(k, extra, gap) => Codeword(ll, 257 + k) + (Lsb(extra, LengthExtra(k)) + gap)
    }
  }

  lemma GapRead(bl: seq<nat>, alphabet: seq<nat>, bits: seq<bool>, p: nat) returns (gap: seq<bool>)
    requires Walk(BuildTree(bl, alphabet), bits, p).Panic?
    ensures Gap(bl, alphabet, gap) && At(bits, p, gap)
  {
    hide Walk, BuildTree, Gap, At;
    PanicsIff(bl, alphabet, bits, p);
    gap :| Gap(bl, alphabet, gap) && At(bits, p, gap);
  }

  // A round aborts in the literal tree, or in the distance tree behind a length symbol and its extra bits.
  lemma RoundPanicParts(bits: seq<bool>, p: nat, literals: Tree, distances: Tree, out: Bytes)
    requires literals.Node? && distances.Node?
    ensures var s := Walk(literals, bits, p);
            SymbolRound(bits, p, literals, distances, out).Panic? <==>
            || s.Panic?
            || (s.Ok? && s.value > 256 && Pair(bits, s.next, distances, s.value - 257, out).Panic?)
  {
    hide Walk, Pair;
  }

  lemma PairPanicParts(bits: seq<bool>, p: nat, distances: Tree, k: nat, out: Bytes)
    requires distances.Node?
    ensures Pair(bits, p, distances, k, out).Panic? <==>
            && k < LENGTH_SYMBOLS
            && ReadBits(bits, p, LengthExtra(k)).Ok?
            && Walk(distances, bits, p + LengthExtra(k)).Panic?
  {
    hide Walk, LengthExtra, LengthBase, DistanceExtra, DistanceBase, CopyBack;
  }

  lemma StrayRead(bits: seq<bool>, p: nat, ll: seq<nat>, dl: seq<nat>, out: Bytes) returns (stray: Stray)
    requires p <= |bits|
    requires SymbolRound(bits, p, BuildTree(ll, LITERAL_ALPHABET), BuildTree(dl, DISTANCE_ALPHABET), out).Panic?
    ensures stray.Valid(ll, dl) && At(bits, p, stray.Bits(ll, dl))
  {
    hide BuildTree, Walk, SymbolRound, Pair, Gap, At, Codeword, LengthExtra, Lsb, ReadBits, Pow2;
    var literals, distances := BuildTree(ll, LITERAL_ALPHABET), BuildTree(dl, DISTANCE_ALPHABET);
    RoundPanicParts(bits, p, literals, distances, out);
    if Walk(literals, bits, p).Panic? {
      var gap := GapRead(ll, LITERAL_ALPHABET, bits, p);
      stray := InLiterals(gap);
    } else {
      LiteralRead(bits, p, ll);
      var s := Walk(literals, bits, p);
      var k := s.value - 257;
      CodewordLength(ll, s.value);
      PairPanicParts(bits, s.next, distances, k, out);
      BitsRead(bits, s.next, LengthExtra(k));
      var gap := GapRead(dl, DISTANCE_ALPHABET, bits, s.next + LengthExtra(k));
      var extra := ReadBits(bits, s.next, LengthExtra(k)).value;
      AtJoin(bits, s.next, Lsb(extra, LengthExtra(k)), gap);
      AtJoin(bits, p, Codeword(ll, s.value), Lsb(extra, LengthExtra(k)) + gap);
      stray := InDistances(k, extra, gap);
    }
  }

  lemma GapPanics(bl: seq<nat>, alphabet: seq<nat>, gap: seq<bool>, bits: seq<bool>, p: nat)
    requires Gap(bl, alphabet, gap) && At(bits, p, gap)
    ensures Walk(BuildTree(bl, alphabet), bits, p).Panic?
  {
    hide Walk, BuildTree, Gap, At;
    PanicsIff(bl, alphabet, bits, p);
  }

  lemma StrayPanics(stray: Stray, ll: seq<nat>, dl: seq<nat>, m: nat, bits: seq<bool>, p: nat, out: Bytes)
    requires Kraft(ll, m) && stray.Valid(ll, dl) && At(bits, p, stray.Bits(ll, dl))
    ensures SymbolRound(bits, p, BuildTree(ll, LITERAL_ALPHABET), BuildTree(dl, DISTANCE_ALPHABET), out).Panic?
  {
    hide BuildTree, Walk, SymbolRound, Pair, Gap, At, Codeword, LengthExtra, Lsb, ReadBits, Pow2, Kraft;
    RoundPanicParts(bits, p, BuildTree(ll, LITERAL_ALPHABET), BuildTree(dl, DISTANCE_ALPHABET), out);
    match stray {
      case InLiterals(gap) => GapPanics(ll, LITERAL_ALPHABET, gap, bits, p);
      case InDistances(k, _, _) =>
        CodewordLength(ll, 257 + k);
        DistancePanics(stray, ll, dl, bits, p, out);
        DecodeCodeword(ll, LITERAL_ALPHABET, m, 257 + k, bits, p);
    }
  }

  // Behind the codeword of its length.
  lemma DistancePanics(stray: Stray, ll: seq<nat>, dl: seq<nat>, bits: seq<bool>, p: nat, out: Bytes)
    requires stray.InDistances? && stray.Valid(ll, dl) && At(bits, p, stray.Bits(ll, dl))
    ensures At(bits, p, Codeword(ll, 257 + stray.k))
    ensures Pair(bits, p + |Codeword(ll, 257 + stray.k)|, BuildTree(dl, DISTANCE_ALPHABET), stray.k, out).Panic?
  {
    hide BuildTree, Walk, Pair, Gap, At, Codeword, LengthExtra, Lsb, ReadBits, Pow2;
    var InDistances(k, extra, gap) := stray;
    var code, more := Codeword(ll, 257 + k), Lsb(extra, LengthExtra(k));
    AtSplit(bits, p, code, more + gap);
    AtSplit(bits, p + |code|, more, gap);
    ReadBack(bits, p + |code|, extra, LengthExtra(k));
    GapPanics(dl, DISTANCE_ALPHABET, gap, bits, p + |code| + |more|);
    PairPanicParts(bits, p + |code|, BuildTree(dl, DISTANCE_ALPHABET), k, out);
  }

  // ----- The symbol loop

  // The tokens without the end-of-block symbol.
  function TokensBits(tokens: seq<Token>, ll: seq<nat>, dl: seq<nat>): seq<bool>
    requires AllEncodable(tokens, ll, dl)
  {
    if tokens == [] then [] else tokens[0].Bits(ll, dl) + TokensBits(tokens[1..], ll, dl)
  }

  lemma RoundThen(bits: seq<bool>, p: nat, literals: Tree, distances: Tree, out: Bytes, out': Bytes, q: nat)
    requires p <= |bits| && literals.Node? && distances.Node? && literals.symbol.None?
    requires SymbolRound(bits, p, literals, distances, out) == Ok(Round(out', false), q)
    ensures q <= |bits|
    ensures BlockData(bits, p, literals, distances, out) == BlockData(bits, q, literals, distances, out')
  {
    RoundNext(bits, p, literals, distances, out);
    hide SymbolRound, BlockData;
  }

  lemma NoTokensBits(ll: seq<nat>, dl: seq<nat>, out: Bytes)
    ensures AllReach([], out) && ExpandAll([], out) == out && TokensBits([], ll, dl) == []
  {
  }

  lemma TokensSplit(tokens: seq<Token>, ll: seq<nat>, dl: seq<nat>, bits: seq<bool>, p: nat, out: Bytes)
    requires tokens != [] && AllEncodable(tokens, ll, dl) && AllReach(tokens, out)
    requires At(bits, p, TokensBits(tokens, ll, dl))
    ensures tokens[0].Encodable(ll, dl) && AllEncodable(tokens[1..], ll, dl)
    ensures tokens[0].Reaches(out) && AllReach(tokens[1..], tokens[0].Expand(out))
    ensures ExpandAll(tokens, out) == ExpandAll(tokens[1..], tokens[0].Expand(out))
    ensures TokensBits(tokens, ll, dl) == tokens[0].Bits(ll, dl) + TokensBits(tokens[1..], ll, dl)
    ensures At(bits, p, tokens[0].Bits(ll, dl))
    ensures At(bits, p + |tokens[0].Bits(ll, dl)|, TokensBits(tokens[1..], ll, dl))
  {
    hide Token.Bits, Token.Expand, Token.Encodable, Token.Reaches;
    AtSplit(bits, p, tokens[0].Bits(ll, dl), TokensBits(tokens[1..], ll, dl));
  }

  lemma {:induction false} TokensThen(tokens: seq<Token>, ll: seq<nat>, dl: seq<nat>, m: nat,
                                      bits: seq<bool>, p: nat, out: Bytes)
    requires AllEncodable(tokens, ll, dl) && AllReach(tokens, out) && Kraft(ll, m) && Kraft(dl, m)
    requires At(bits, p, TokensBits(tokens, ll, dl))
    ensures var literals, distances := BuildTree(ll, LITERAL_ALPHABET), BuildTree(dl, DISTANCE_ALPHABET);
            var q := p + |TokensBits(tokens, ll, dl)|;
            && literals.symbol.None? && p <= q <= |bits|
            && BlockData(bits, p, literals, distances, out)
            == BlockData(bits, q, literals, distances, ExpandAll(tokens, out))
    decreases |tokens|
  {
    hide Kraft, At, SymbolRound, BlockData, AllEncodable, AllReach, ExpandAll, TokensBits;
    hide Token.Bits, Token.Expand, Token.Encodable, Token.Reaches;
    BuiltWellFormed(ll, LITERAL_ALPHABET, |ll|);
    hide BuildTree, WellFormed;
    AtEnd(bits, p, TokensBits(tokens, ll, dl));
    if tokens == [] {
      NoTokensBits(ll, dl, out);
    } else {
      TokensSplit(tokens, ll, dl, bits, p, out);
      var head, out' := tokens[0].Bits(ll, dl), tokens[0].Expand(out);
      TokenDecodes(tokens[0], ll, dl, m, bits, p, out);
      RoundThen(bits, p, BuildTree(ll, LITERAL_ALPHABET), BuildTree(dl, DISTANCE_ALPHABET), out, out', p + |head|);
      TokensThen(tokens[1..], ll, dl, m, bits, p + |head|, out');
    }
  }

  // After the tokens the data has no meaning any more.
  ghost predicate Strays(tokens: seq<Token>, stray: Stray, ll: seq<nat>, dl: seq<nat>,
                         bits: seq<bool>, p: nat, out: Bytes) {
    && AllEncodable(tokens, ll, dl)
    && AllReach(tokens, out)
    && stray.Valid(ll, dl)
    && At(bits, p, TokensBits(tokens, ll, dl) + stray.Bits(ll, dl))
  }

  lemma StraysNow(stray: Stray, ll: seq<nat>, dl: seq<nat>, bits: seq<bool>, p: nat, out: Bytes)
    requires stray.Valid(ll, dl) && At(bits, p, stray.Bits(ll, dl))
    ensures Strays([], stray, ll, dl, bits, p, out)
  {
    hide Stray.Valid, Stray.Bits;
    assert TokensBits([], ll, dl) + stray.Bits(ll, dl) == stray.Bits(ll, dl);
  }

  lemma StraysLater(token: Token, tokens: seq<Token>, stray: Stray, ll: seq<nat>, dl: seq<nat>,
                    bits: seq<bool>, p: nat, out: Bytes)
    requires token.Encodable(ll, dl) && token.Reaches(out) && At(bits, p, token.Bits(ll, dl))
    requires Strays(tokens, stray, ll, dl, bits, p + |token.Bits(ll, dl)|, token.Expand(out))
    ensures Strays([token] + tokens, stray, ll, dl, bits, p, out)
  {
    hide Stray.Valid, Stray.Bits, Token.Bits, Token.Expand, Token.Encodable, Token.Reaches, At;
    var all, head, tail := [token] + tokens, token.Bits(ll, dl), TokensBits(tokens, ll, dl);
    assert all[1..] == tokens && TokensBits(all, ll, dl) == head + tail;
    AtJoin(bits, p, head, tail + stray.Bits(ll, dl));
    assert head + (tail + stray.Bits(ll, dl)) == head + tail + stray.Bits(ll, dl);
  }

  // Where the data of a block aborts, with whatever code lengths, there stand some tokens and then a gap.
  lemma {:induction false} StraysRead(bits: seq<bool>, p: nat, ll: seq<nat>, dl: seq<nat>, out: Bytes)
    returns (tokens: seq<Token>, stray: Stray)
    requires p <= |bits| && BuildTree(ll, LITERAL_ALPHABET).symbol.None?
    requires BlockData(bits, p, BuildTree(ll, LITERAL_ALPHABET), BuildTree(dl, DISTANCE_ALPHABET), out).Panic?
    ensures Strays(tokens, stray, ll, dl, bits, p, out)
    decreases |bits| - p
  {
    hide BuildTree, BlockData, SymbolRound, At, Strays, Stray.Valid, Stray.Bits;
    hide Token.Bits, Token.Expand, Token.Encodable, Token.Reaches;
    var literals, distances := BuildTree(ll, LITERAL_ALPHABET), BuildTree(dl, DISTANCE_ALPHABET);
    RoundNext(bits, p, literals, distances, out);
    var r := SymbolRound(bits, p, literals, distances, out);
    if r.Panic? {
      stray := StrayRead(bits, p, ll, dl, out);
      tokens := [];
      StraysNow(stray, ll, dl, bits, p, out);
    } else {
      var token := TokenRead(bits, p, ll, dl, out);
      tokens, stray := StraysRead(bits, r.next, ll, dl, r.value.out);
      StraysLater(token, tokens, stray, ll, dl, bits, p, out);
      tokens := [token] + tokens;
    }
  }

  lemma StraysPanic(tokens: seq<Token>, stray: Stray, ll: seq<nat>, dl: seq<nat>, m: nat,
                    bits: seq<bool>, p: nat, out: Bytes)
    requires Kraft(ll, m) && Kraft(dl, m) && Strays(tokens, stray, ll, dl, bits, p, out)
    ensures p <= |bits| && BuildTree(ll, LITERAL_ALPHABET).symbol.None?
    ensures BlockData(bits, p, BuildTree(ll, LITERAL_ALPHABET), BuildTree(dl, DISTANCE_ALPHABET), out).Panic?
  {
    hide Kraft, BuildTree, At, SymbolRound, BlockData, AllEncodable, AllReach, ExpandAll, TokensBits;
    hide Stray.Valid, Stray.Bits;
    var front := TokensBits(tokens, ll, dl);
    AtSplit(bits, p, front, stray.Bits(ll, dl));
    TokensThen(tokens, ll, dl, m, bits, p, out);
    StrayPanics(stray, ll, dl, m, bits, p + |front|, ExpandAll(tokens, out));
    RoundNext(bits, p + |front|, BuildTree(ll, LITERAL_ALPHABET), BuildTree(dl, DISTANCE_ALPHABET),
              ExpandAll(tokens, out));
  }

  // Under the Kraft inequality the data of a block aborts exactly if tokens and then a gap stand there.
  lemma DataPanicsIff(ll: seq<nat>, dl: seq<nat>, m: nat, bits: seq<bool>, p: nat, out: Bytes)
    requires Kraft(ll, m) && Kraft(dl, m) && p <= |bits| && BuildTree(ll, LITERAL_ALPHABET).symbol.None?
    ensures BlockData(bits, p, BuildTree(ll, LITERAL_ALPHABET), BuildTree(dl, DISTANCE_ALPHABET), out).Panic? <==>
            exists tokens, stray :: Strays(tokens, stray, ll, dl, bits, p, out)
  {
    hide Kraft, BuildTree, BlockData, Strays;
    if BlockData(bits, p, BuildTree(ll, LITERAL_ALPHABET), BuildTree(dl, DISTANCE_ALPHABET), out).Panic? {
      var tokens, stray := StraysRead(bits, p, ll, dl, out);
    }
    if tokens, stray :| Strays(tokens, stray, ll, dl, bits, p, out) {
      StraysPanic(tokens, stray, ll, dl, m, bits, p, out);
    }
  }

  // ----- The code lengths of a dynamic header

  // The runs are valid, and even after all of them the list is too short.
  predicate RunsOpen(runs: seq<Run>, bl: seq<nat>, wanted: nat) {
    |bl| < wanted && (runs == [] || (runs[0].Valid(bl) && RunsOpen(runs[1..], runs[0].Expand(bl), wanted)))
  }

  ghost predicate LengthsStray(runs: seq<Run>, gap: seq<bool>, cl: seq<nat>, wanted: nat, bl: seq<nat>,
                               bits: seq<bool>, p: nat) {
    && RunsCoded(runs, cl)
    && RunsOpen(runs, bl, wanted)
    && Gap(cl, CODE_LENGTH_ALPHABET, gap)
    && At(bits, p, RunsBits(runs, cl) + gap)
  }

  lemma LengthRoundPanics(bits: seq<bool>, p: nat, tree: Tree, bl: seq<nat>)
    requires tree.Node?
    ensures LengthRound(bits, p, tree, bl).Panic? <==> Walk(tree, bits, p).Panic?
  {
    hide Walk, Repeat, Value;
  }

  lemma LengthsStrayNow(gap: seq<bool>, cl: seq<nat>, wanted: nat, bl: seq<nat>, bits: seq<bool>, p: nat)
    requires |bl| < wanted && Gap(cl, CODE_LENGTH_ALPHABET, gap) && At(bits, p, gap)
    ensures LengthsStray([], gap, cl, wanted, bl, bits, p)
  {
    hide Gap;
    assert RunsBits([], cl) + gap == gap;
  }

  lemma LengthsStrayLater(run: Run, runs: seq<Run>, gap: seq<bool>, cl: seq<nat>, wanted: nat, bl: seq<nat>,
                          bits: seq<bool>, p: nat)
    requires |bl| < wanted && run.Valid(bl) && Coded(cl, CODE_LENGTH_ALPHABET, run.Symbol())
    requires At(bits, p, Codeword(cl, run.Symbol()) + run.ExtraBits())
    requires LengthsStray(runs, gap, cl, wanted, run.Expand(bl), bits,
                          p + |Codeword(cl, run.Symbol()) + run.ExtraBits()|)
    ensures LengthsStray([run] + runs, gap, cl, wanted, bl, bits, p)
  {
    hide Gap, At, Codeword, Run.Symbol, Run.ExtraBits, Run.Valid, Run.Expand;
    var all, code, extra, tail := [run] + runs, Codeword(cl, run.Symbol()), run.ExtraBits(), RunsBits(runs, cl);
    assert all[1..] == runs && RunsBits(all, cl) == code + (extra + tail);
    AtJoin(bits, p, code + extra, tail + gap);
    assert code + extra + (tail + gap) == code + (extra + tail) + gap;
  }

  // Where reading the code lengths aborts, there stand some runs and then a gap of their code.
  lemma {:induction false} LengthsStrayRead(bits: seq<bool>, p: nat, cl: seq<nat>, wanted: nat, bl: seq<nat>)
    returns (runs: seq<Run>, gap: seq<bool>)
    requires p <= |bits| && ReadLengths(bits, p, BuildTree(cl, CODE_LENGTH_ALPHABET), wanted, bl).Panic?
    ensures LengthsStray(runs, gap, cl, wanted, bl, bits, p)
    decreases wanted - |bl|
  {
    hide BuildTree, LengthRound, ReadLengths, At, Walk, Gap, LengthsStray;
    hide Run.Symbol, Run.ExtraBits, Run.Valid, Run.Expand, Codeword;
    var tree := BuildTree(cl, CODE_LENGTH_ALPHABET);
    LengthsNext(bits, p, tree, wanted, bl);
    LengthRoundPanics(bits, p, tree, bl);
    if LengthRound(bits, p, tree, bl).Panic? {
      gap := GapRead(cl, CODE_LENGTH_ALPHABET, bits, p);
      runs := [];
      LengthsStrayNow(gap, cl, wanted, bl, bits, p);
    } else {
      var run := RunRead(bits, p, cl, bl);
      var head := Codeword(cl, run.Symbol()) + run.ExtraBits();
      runs, gap := LengthsStrayRead(bits, p + |head|, cl, wanted, run.Expand(bl));
      LengthsStrayLater(run, runs, gap, cl, wanted, bl, bits, p);
      runs := [run] + runs;
    }
  }

  lemma Regroup(a: seq<bool>, b: seq<bool>, c: seq<bool>, d: seq<bool>)
    ensures a + (b + c) + d == a + (b + (c + d))
  {
  }

  lemma LengthsStraySplit(runs: seq<Run>, gap: seq<bool>, cl: seq<nat>, wanted: nat, bl: seq<nat>,
                          bits: seq<bool>, p: nat)
    requires runs != [] && LengthsStray(runs, gap, cl, wanted, bl, bits, p)
    ensures Coded(cl, CODE_LENGTH_ALPHABET, runs[0].Symbol()) && runs[0].Valid(bl)
    ensures var code, extra := Codeword(cl, runs[0].Symbol()), runs[0].ExtraBits();
            && At(bits, p, code) && At(bits, p + |code|, extra)
            && LengthsStray(runs[1..], gap, cl, wanted, runs[0].Expand(bl), bits, p + |code| + |extra|)
  {
    hide Gap, At, Codeword, Run.Symbol, Run.ExtraBits, Run.Valid, Run.Expand;
    var code, extra, tail := Codeword(cl, runs[0].Symbol()), runs[0].ExtraBits(), RunsBits(runs[1..], cl);
    Regroup(code, extra, tail, gap);
    AtSplit(bits, p, code, extra + (tail + gap));
    AtSplit(bits, p + |code|, extra, tail + gap);
  }

  lemma {:induction false} LengthsStrayPanics(runs: seq<Run>, gap: seq<bool>, cl: seq<nat>, wanted: nat, bl: seq<nat>,
                                              bits: seq<bool>, p: nat)
    requires Kraft(cl, 7) && LengthsStray(runs, gap, cl, wanted, bl, bits, p)
    ensures p <= |bits| && ReadLengths(bits, p, BuildTree(cl, CODE_LENGTH_ALPHABET), wanted, bl).Panic?
    decreases |runs|
  {
    hide BuildTree, LengthRound, ReadLengths, Walk, Gap, Kraft;
    hide Run.Symbol, Run.ExtraBits, Run.Valid, Run.Expand, Codeword, RunsBits;
    var tree := BuildTree(cl, CODE_LENGTH_ALPHABET);
    AtEnd(bits, p, RunsBits(runs, cl) + gap);
    LengthsNext(bits, p, tree, wanted, bl);
    if runs == [] {
      NoRunsBits(gap, cl);
      LengthRoundPanics(bits, p, tree, bl);
      GapPanics(cl, CODE_LENGTH_ALPHABET, gap, bits, p);
    } else {
      LengthsStraySplit(runs, gap, cl, wanted, bl, bits, p);
      var code, extra := Codeword(cl, runs[0].Symbol()), runs[0].ExtraBits();
      CodewordLength(cl, runs[0].Symbol());
      RunDecodes(runs[0], cl, bl, bits, p);
      LengthsStrayPanics(runs[1..], gap, cl, wanted, runs[0].Expand(bl), bits, p + |code| + |extra|);
    }
  }

  lemma NoRunsBits(gap: seq<bool>, cl: seq<nat>)
    ensures RunsBits([], cl) + gap == gap
  {
  }

  // Under the Kraft inequality reading the code lengths aborts exactly if runs and then a gap stand there.
  lemma LengthsPanicIff(bits: seq<bool>, p: nat, cl: seq<nat>, wanted: nat, bl: seq<nat>)
    requires Kraft(cl, 7) && p <= |bits|
    ensures ReadLengths(bits, p, BuildTree(cl, CODE_LENGTH_ALPHABET), wanted, bl).Panic? <==>
            exists runs, gap :: LengthsStray(runs, gap, cl, wanted, bl, bits, p)
  {
    hide BuildTree, ReadLengths, LengthsStray, Kraft;
    if ReadLengths(bits, p, BuildTree(cl, CODE_LENGTH_ALPHABET), wanted, bl).Panic? {
      var runs, gap := LengthsStrayRead(bits, p, cl, wanted, bl);
    }
    if runs, gap :| LengthsStray(runs, gap, cl, wanted, bl, bits, p) {
      LengthsStrayPanics(runs, gap, cl, wanted, bl, bits, p);
    }
  }
}
