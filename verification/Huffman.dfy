/**
 Canonical Huffman codes: the tree the decoder builds from a list of code lengths, how it walks that tree,
 and the code that section 3.2.2 of RFC 1951 assigns to the same list.
 */
module Huffman {
  import opened Arith
  import opened BitStream
  import opened Collections

  // Nil stands for a child that is absent.
  datatype Tree = Nil | Node(symbol: Option<nat>, left: Tree, right: Tree) {
    predicate Leaf()
      requires Node?
    {
      left.Nil? && right.Nil?
    }

    function Child(b: bool): Tree
      requires Node?
    {
      if b then right else left
    }
  }

  const EMPTY := Node(None, Nil, Nil)

  function Insert(t: Tree, code: seq<bool>, symbol: nat): (r: Tree)
    ensures r.Node?
    decreases |code|
  {
    var Node(s, left, right) := if t.Nil? then EMPTY else t;
    if code == [] then Node(Some(symbol), left, right)
    else if code[0] then Node(s, left, Insert(right, code[1..], symbol))
    else Node(s, Insert(left, code[1..], symbol), right)
  }

  function Walk(t: Tree, bits: seq<bool>, p: nat): Parsed<nat>
    requires t.Node?
    decreases t
  {
    if t.Leaf() then
      if t.symbol.Some? then Ok(t.symbol.value, p) else Err(NoSymbol)
    else
      var (b, q) :- ReadBit(bits, p);
      var child := t.Child(b == 1);
      if child.Nil? then Panic else Walk(child, bits, q)
  }

  // The n low bits of a codeword, most significant bit first.
  function CodeBits(codeword: nat, n: nat): (code: seq<bool>)
    ensures |code| == n
  {
    if n == 0 then [] else CodeBits(codeword / 2, n - 1) + [codeword % 2 == 1]
  }

  // How many entries of bl are equal to length.
  function Count(bl: seq<nat>, length: nat): nat {
    if bl == [] then 0
    else Count(bl[..|bl| - 1], length) + if bl[|bl| - 1] == length then 1 else 0
  }

  // The smallest codeword of each length.
  function FirstCode(bl: seq<nat>, length: nat): nat {
    if length < 2 then 0 else 2 * (FirstCode(bl, length - 1) + Count(bl, length - 1))
  }

  function Code(bl: seq<nat>, s: nat): nat
    requires s < |bl|
  {
    FirstCode(bl, bl[s]) + Count(bl[..s], bl[s])
  }

  function Codeword(bl: seq<nat>, s: nat): seq<bool>
    requires s < |bl|
  {
    CodeBits(Code(bl, s), bl[s])
  }

  // Index i takes part in the tree: it has a code and stands for a symbol of the alphabet.
  predicate Coded(bl: seq<nat>, alphabet: seq<nat>, i: nat) {
    i < |bl| && bl[i] != 0 && i < |alphabet|
  }

  function BuildUpTo(bl: seq<nat>, alphabet: seq<nat>, n: nat): (t: Tree)
    requires n <= |bl|
    ensures t.Node?
  {
    if n == 0 then EMPTY
    else
      var t := BuildUpTo(bl, alphabet, n - 1);
      if Coded(bl, alphabet, n - 1) then Insert(t, Codeword(bl, n - 1), alphabet[n - 1]) else t
  }

  function BuildTree(bl: seq<nat>, alphabet: seq<nat>): (t: Tree)
    ensures t.Node?
  {
    BuildUpTo(bl, alphabet, |bl|)
  }

  predicate AtMost(bl: seq<nat>, m: nat) {
    forall i | 0 <= i < |bl| :: bl[i] <= m
  }

  // 2^m times the Kraft sum of the lengths in bl that are not zero.
  function KraftSum(bl: seq<nat>, m: nat): nat
    requires AtMost(bl, m)
  {
    if bl == [] then 0
    else
      var l := bl[|bl| - 1];
      KraftSum(bl[..|bl| - 1], m) + if l == 0 then 0 else Pow2(m - l)
  }

  predicate Kraft(bl: seq<nat>, m: nat) {
    AtMost(bl, m) && KraftSum(bl, m) <= Pow2(m)
  }

  // ----- The arithmetic of canonical codes

  // Codewords of length b that are taken, or that start with a shorter codeword.
  function Used(bl: seq<nat>, b: nat): nat {
    if b == 0 then 0 else 2 * Used(bl, b - 1) + Count(bl, b)
  }

  lemma {:induction false} UsedIsFirstFree(bl: seq<nat>, b: nat)
    requires b >= 1
    ensures FirstCode(bl, b) + Count(bl, b) == Used(bl, b)
  {
    if b > 1 {
      UsedIsFirstFree(bl, b - 1);
    }
  }

  lemma {:induction false} UsedAppend(bl: seq<nat>, b: nat)
    requires bl != []
    ensures var l := bl[|bl| - 1];
            Used(bl, b) == Used(bl[..|bl| - 1], b) + if 1 <= l <= b then Pow2(b - l) else 0
  {
    if b != 0 {
      UsedAppend(bl, b - 1);
    }
  }

  lemma {:induction false} UsedEmpty(b: nat)
    ensures Used([], b) == 0
  {
    if b != 0 {
      UsedEmpty(b - 1);
    }
  }

  lemma {:induction false} KraftIsUsed(bl: seq<nat>, m: nat)
    requires AtMost(bl, m)
    ensures KraftSum(bl, m) == Used(bl, m)
  {
    if bl == [] {
      UsedEmpty(m);
    } else {
      UsedAppend(bl, m);
      KraftIsUsed(bl[..|bl| - 1], m);
    }
  }

  lemma {:induction false} UsedGrows(bl: seq<nat>, b: nat, m: nat)
    requires b <= m
    ensures Used(bl, m) >= Used(bl, b) * Pow2(m - b)
  {
    if b < m {
      UsedGrows(bl, b, m - 1);
      MulTwice(Used(bl, b), Pow2(m - 1 - b));
    }
  }

  lemma UsedFits(bl: seq<nat>, m: nat, b: nat)
    requires Kraft(bl, m) && b <= m
    ensures Used(bl, b) <= Pow2(b)
  {
    KraftIsUsed(bl, m);
    UsedGrows(bl, b, m);
    Pow2Add(b, m - b);
    if Used(bl, b) > Pow2(b) {
      MulLess(Pow2(b), Used(bl, b), Pow2(m - b));
    }
  }

  lemma {:induction false} CountPrefix(bl: seq<nat>, i: nat, j: nat, length: nat)
    requires i <= |bl| && j <= |bl|
    ensures i <= j ==> Count(bl[..i], length) <= Count(bl[..j], length)
    ensures i < j && bl[i] == length ==> Count(bl[..i], length) < Count(bl[..j], length)
  {
    if i < j {
      assert bl[..j][..j - 1] == bl[..j - 1] && bl[..j][j - 1] == bl[j - 1];
      CountPrefix(bl, i, j - 1, length);
    }
  }

  // A codeword is below the first free one of its length, and fits in that many bits.
  lemma CodeBound(bl: seq<nat>, m: nat, s: nat)
    requires Kraft(bl, m) && s < |bl| && bl[s] != 0
    ensures Code(bl, s) < Used(bl, bl[s]) <= Pow2(bl[s])
  {
    assert bl[s] in bl;
    CountPrefix(bl, s, |bl|, bl[s]);
    assert bl[..|bl|] == bl;
    UsedIsFirstFree(bl, bl[s]);
    UsedFits(bl, m, bl[s]);
  }

  lemma FirstCodeGrows(bl: seq<nat>, a: nat, b: nat)
    requires 1 <= a < b
    ensures FirstCode(bl, b) >= Used(bl, a) * Pow2(b - a)
  {
    UsedIsFirstFree(bl, b - 1);
    UsedGrows(bl, a, b - 1);
    MulTwice(Used(bl, a), Pow2(b - 1 - a));
  }

  // ----- Prefix freedom

  // Neither of two codes is a prefix of the other.
  predicate Diverge(c: seq<bool>, d: seq<bool>) {
    c != [] && d != [] && (c[0] != d[0] || Diverge(c[1..], d[1..]))
  }

  lemma {:induction false} DivergeIsNoPrefix(c: seq<bool>, d: seq<bool>)
    ensures Diverge(c, d) <==> !(c <= d) && !(d <= c)
  {
    if c != [] && d != [] {
      DivergeIsNoPrefix(c[1..], d[1..]);
      assert c == [c[0]] + c[1..] && d == [d[0]] + d[1..];
    }
  }

  lemma {:induction false} CodeBitsPrefix(x: nat, n: nat, k: nat)
    requires k <= n
    ensures CodeBits(x, n)[..k] == CodeBits(x / Pow2(n - k), k)
  {
    if k < n {
      CodeBitsPrefix(x / 2, n - 1, k);
      DivDiv(x, 2, Pow2(n - 1 - k));
      assert CodeBits(x, n)[..k] == CodeBits(x / 2, n - 1)[..k];
    }
  }

  lemma {:induction false} CodeBitsInjective(x: nat, y: nat, n: nat)
    requires x < Pow2(n) && y < Pow2(n) && CodeBits(x, n) == CodeBits(y, n)
    ensures x == y
  {
    if n != 0 {
      var cx, cy := CodeBits(x, n), CodeBits(y, n);
      assert cx[..n - 1] == CodeBits(x / 2, n - 1) && cy[..n - 1] == CodeBits(y / 2, n - 1);
      assert cx[n - 1] == (x % 2 == 1) && cy[n - 1] == (y % 2 == 1);
      CodeBitsInjective(x / 2, y / 2, n - 1);
    }
  }

  lemma SameLengthDistinct(bl: seq<nat>, s: nat, s': nat)
    requires s < |bl| && s' < |bl| && s != s' && bl[s] == bl[s']
    ensures Code(bl, s) != Code(bl, s')
  {
    hide FirstCode;
    CountPrefix(bl, s, s', bl[s]);
    CountPrefix(bl, s', s, bl[s]);
  }

  // The top of a longer codeword comes after every shorter codeword.
  lemma ShorterBelow(bl: seq<nat>, m: nat, s: nat, s': nat)
    requires Kraft(bl, m) && s < |bl| && s' < |bl| && 0 < bl[s] < bl[s']
    ensures Code(bl, s) < Code(bl, s') / Pow2(bl[s'] - bl[s]) < Pow2(bl[s])
  {
    hide Used, Pow2, Kraft, Count;
    var a, b := bl[s], bl[s'];
    CodeBound(bl, m, s);
    CodeBound(bl, m, s');
    FirstCodeGrows(bl, a, b);
    DivAtLeast(Code(bl, s'), Pow2(b - a), Used(bl, a));
    Pow2Add(a, b - a);
    DivLess(Code(bl, s'), Pow2(b - a), Pow2(a));
  }

  // Section 3.2.2 of RFC 1951: the codewords of a list that satisfies the Kraft inequality are prefix-free.
  lemma PrefixFree(bl: seq<nat>, m: nat, s: nat, s': nat)
    requires Kraft(bl, m) && s < |bl| && s' < |bl| && s != s'
    requires bl[s] != 0 && bl[s'] != 0
    ensures Diverge(Codeword(bl, s), Codeword(bl, s'))
  {
    var c, d := Codeword(bl, s), Codeword(bl, s');
    DivergeIsNoPrefix(c, d);
    if c <= d {
      NotPrefix(bl, m, s, s');
    } else if d <= c {
      NotPrefix(bl, m, s', s);
    }
  }

  lemma NotPrefix(bl: seq<nat>, m: nat, s: nat, s': nat)
    requires Kraft(bl, m) && s < |bl| && s' < |bl| && s != s'
    requires 0 < bl[s] && 0 < bl[s']
    ensures !(Codeword(bl, s) <= Codeword(bl, s'))
  {
    hide Code, Kraft, Pow2;
    if Codeword(bl, s) <= Codeword(bl, s') {
      var a, b := bl[s], bl[s'];
      CodeBitsPrefix(Code(bl, s'), b, a);
      CodeBound(bl, m, s);
      if a == b {
        CodeBound(bl, m, s');
        CodeBitsInjective(Code(bl, s), Code(bl, s'), a);
        SameLengthDistinct(bl, s, s');
      } else {
        ShorterBelow(bl, m, s, s');
        CodeBitsInjective(Code(bl, s), Code(bl, s') / Pow2(b - a), a);
      }
    }
  }

  // ----- The tree: codes that were put in, and codes that still can be

  // The code leads from the root of t to a leaf that holds the symbol.
  predicate Finds(t: Tree, code: seq<bool>, symbol: nat) {
    t.Node? &&
    if code == [] then t.Leaf() && t.symbol == Some(symbol)
    else !t.Leaf() && Finds(t.Child(code[0]), code[1..], symbol)
  }

  // The code leaves t at a child that is absent, before it meets a leaf.
  predicate Free(t: Tree, code: seq<bool>)
    decreases t
  {
    t.Nil? || t == EMPTY || (code != [] && !t.Leaf() && Free(t.Child(code[0]), code[1..]))
  }

  lemma {:induction false} InsertFinds(t: Tree, code: seq<bool>, symbol: nat)
    requires Free(t, code)
    ensures Finds(Insert(t, code, symbol), code, symbol)
    decreases |code|
  {
    if code != [] {
      InsertFinds(if t.Nil? then Nil else t.Child(code[0]), code[1..], symbol);
    }
  }

  lemma {:induction false} InsertKeepsFinds(t: Tree, code: seq<bool>, symbol: nat, c: seq<bool>, x: nat)
    requires Diverge(code, c) && Finds(t, c, x)
    ensures Finds(Insert(t, code, symbol), c, x)
    decreases |code|
  {
    if code[0] == c[0] {
      InsertKeepsFinds(t.Child(code[0]), code[1..], symbol, c[1..], x);
    }
  }

  lemma {:induction false} InsertKeepsFree(t: Tree, code: seq<bool>, symbol: nat, c: seq<bool>)
    requires Diverge(code, c) && Free(t, c)
    ensures Free(Insert(t, code, symbol), c)
    decreases |code|
  {
    if code[0] == c[0] {
      InsertKeepsFree(if t.Nil? then Nil else t.Child(code[0]), code[1..], symbol, c[1..]);
    }
  }

  // While the tree is being built, the codes of the indices done are found, all others are free.
  lemma {:induction false} BuiltSoFar(bl: seq<nat>, alphabet: seq<nat>, m: nat, n: nat, i: nat)
    requires Kraft(bl, m) && n <= |bl| && i < |bl| && bl[i] != 0
    ensures i < n && i < |alphabet| ==> Finds(BuildUpTo(bl, alphabet, n), Codeword(bl, i), alphabet[i])
    ensures i >= n || i >= |alphabet| ==> Free(BuildUpTo(bl, alphabet, n), Codeword(bl, i))
  {
    if n != 0 {
      BuiltSoFar(bl, alphabet, m, n - 1, i);
      if Coded(bl, alphabet, n - 1) {
        var t, c := BuildUpTo(bl, alphabet, n - 1), Codeword(bl, n - 1);
        if i == n - 1 {
          InsertFinds(t, c, alphabet[i]);
        } else {
          PrefixFree(bl, m, n - 1, i);
          if i < n && i < |alphabet| {
            InsertKeepsFinds(t, c, alphabet[n - 1], Codeword(bl, i), alphabet[i]);
          } else {
            InsertKeepsFree(t, c, alphabet[n - 1], Codeword(bl, i));
          }
        }
      }
    }
  }

  lemma {:induction false} WalkFinds(t: Tree, code: seq<bool>, symbol: nat, bits: seq<bool>, p: nat)
    requires Finds(t, code, symbol) && At(bits, p, code)
    ensures Walk(t, bits, p) == Ok(symbol, p + |code|)
    decreases |code|
  {
    if code != [] {
      assert code == [code[0]] + code[1..];
      AtSplit(bits, p, [code[0]], code[1..]);
      assert bits[p] == bits[p..p + 1][0] == code[0];
      WalkFinds(t.Child(code[0]), code[1..], symbol, bits, p + 1);
    }
  }

  // Decoding inverts coding: the codeword of an index, followed by any bits, yields its symbol and
  // consumes exactly that codeword.
  lemma DecodeCodeword(bl: seq<nat>, alphabet: seq<nat>, m: nat, i: nat, bits: seq<bool>, p: nat)
    requires Kraft(bl, m) && Coded(bl, alphabet, i)
    requires At(bits, p, Codeword(bl, i))
    ensures Walk(BuildTree(bl, alphabet), bits, p) == Ok(alphabet[i], p + bl[i])
  {
    BuiltSoFar(bl, alphabet, m, |bl|, i);
    WalkFinds(BuildTree(bl, alphabet), Codeword(bl, i), alphabet[i], bits, p);
  }
}
