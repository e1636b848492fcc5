/** When walking a tree built from code lengths meets a child that is not there. */
module HuffmanComplete {
  import opened Arith
  import opened BitStream
  import opened Collections
  import opened Huffman

  // The alphabet 0, 1, ..., n - 1.
  function Alphabet(n: nat): seq<nat> { seq(n, i => i) }

  // Every leaf holds a symbol.
  predicate WellFormed(t: Tree) {
    t.Nil? || if t.Leaf() then t.symbol.Some? else WellFormed(t.left) && WellFormed(t.right)
  }

  // Every inner node has both children.
  predicate Full(t: Tree) {
    t.Node? && if t.Leaf() then t.symbol.Some? else Full(t.left) && Full(t.right)
  }

  predicate Fits(t: Tree, height: nat) {
    t.Nil? || t.Leaf() || (height > 0 && Fits(t.left, height - 1) && Fits(t.right, height - 1))
  }

  // The share of the 2^height bit strings that lead to a symbol.
  function Weight(t: Tree, height: nat): nat
    requires Fits(t, height)
  {
    if t.Nil? then 0
    else if t.Leaf() then if t.symbol.Some? then Pow2(height) else 0
    else Weight(t.left, height - 1) + Weight(t.right, height - 1)
  }

  lemma {:induction false} InsertWeight(t: Tree, code: seq<bool>, symbol: nat, height: nat)
    requires Fits(t, height) && Free(t, code) && |code| <= height
    ensures Fits(Insert(t, code, symbol), height)
    ensures Weight(Insert(t, code, symbol), height) == Weight(t, height) + Pow2(height - |code|)
    decreases |code|
  {
    if code != [] {
      InsertWeight(if t.Nil? then Nil else t.Child(code[0]), code[1..], symbol, height - 1);
    }
  }

  lemma {:induction false} InsertWellFormed(t: Tree, code: seq<bool>, symbol: nat)
    requires t == EMPTY || WellFormed(t)
    ensures WellFormed(Insert(t, code, symbol))
    ensures code != [] ==> Insert(t, code, symbol).symbol == if t.Nil? then None else t.symbol
    decreases |code|
  {
    if code != [] {
      InsertWellFormed(if t.Nil? then Nil else t.Child(code[0]), code[1..], symbol);
    }
  }

  lemma {:induction false} BuiltWellFormed(bl: seq<nat>, alphabet: seq<nat>, n: nat)
    requires n <= |bl|
    ensures var t := BuildUpTo(bl, alphabet, n); (t == EMPTY || WellFormed(t)) && t.symbol.None?
  {
    if n != 0 {
      BuiltWellFormed(bl, alphabet, n - 1);
      if Coded(bl, alphabet, n - 1) {
        InsertWellFormed(BuildUpTo(bl, alphabet, n - 1), Codeword(bl, n - 1), alphabet[n - 1]);
      }
    }
  }

  // The weight of the tree is the Kraft sum of the lengths that have a symbol.
  lemma {:induction false} BuiltWeight(bl: seq<nat>, alphabet: seq<nat>, m: nat, n: nat)
    requires Kraft(bl, m) && n <= |bl|
    ensures Fits(BuildUpTo(bl, alphabet, n), m)
    ensures Weight(BuildUpTo(bl, alphabet, n), m) == KraftSum(bl[..Min(n, |alphabet|)], m)
  {
    if n != 0 {
      BuiltWeight(bl, alphabet, m, n - 1);
      if n - 1 < |alphabet| {
        assert bl[..n][..n - 1] == bl[..n - 1];
        if bl[n - 1] != 0 {
          BuiltSoFar(bl, alphabet, m, n - 1, n - 1);
          InsertWeight(BuildUpTo(bl, alphabet, n - 1), Codeword(bl, n - 1), alphabet[n - 1], m);
        }
      }
    }
  }

  lemma {:induction false} WeightBound(t: Tree, height: nat)
    requires Fits(t, height)
    ensures Weight(t, height) <= Pow2(height)
    ensures Weight(t, height) == Pow2(height) <==> Full(t)
  {
    if t.Node? && !t.Leaf() {
      WeightBound(t.left, height - 1);
      WeightBound(t.right, height - 1);
    }
  }

  lemma {:induction false} FullNeverPanics(t: Tree, bits: seq<bool>, p: nat)
    requires Full(t)
    ensures !Walk(t, bits, p).Panic?
    decreases t
  {
    if !t.Leaf() && p < |bits| {
      FullNeverPanics(t.Child(bits[p]), bits, p + 1);
    }
  }

  lemma {:induction false} MissingChild(t: Tree) returns (path: seq<bool>)
    requires WellFormed(t) && t.Node? && !t.Leaf() && !Full(t)
    ensures Walk(t, path, 0).Panic?
    ensures Free(t, path)
  {
    if t.left.Nil? {
      path := [false];
    } else if t.right.Nil? {
      path := [true];
    } else {
      var b := Full(t.left);
      var rest := MissingChild(t.Child(b));
      path := [b] + rest;
      assert path[1..] == rest;
      FreePanics(t, path, path, 0);
    }
  }

  // A code that could still be inserted is one the walk aborts on.
  lemma {:induction false} FreePanics(t: Tree, code: seq<bool>, bits: seq<bool>, p: nat)
    requires WellFormed(t) && t.Node? && !t.Leaf() && Free(t, code)
    requires At(bits, p, code)
    ensures Walk(t, bits, p).Panic?
    decreases t
  {
    assert code == [code[0]] + code[1..];
    AtSplit(bits, p, [code[0]], code[1..]);
    assert bits[p] == bits[p..p + 1][0] == code[0];
    var child := t.Child(code[0]);
    if child.Node? {
      FreePanics(child, code[1..], bits, p + 1);
    }
  }

  // ----- The exact condition, for any lengths

  // The path leads from the root of t to a node.
  predicate Has(t: Tree, path: seq<bool>)
    decreases |path|
  {
    t.Node? && (path == [] || Has(t.Child(path[0]), path[1..]))
  }

  lemma {:induction false} InsertHas(t: Tree, code: seq<bool>, symbol: nat, path: seq<bool>)
    ensures Has(Insert(t, code, symbol), path) <==> Has(t, path) || path <= code
    decreases |code|
  {
    if code != [] && path != [] {
      assert path == [path[0]] + path[1..] && code == [code[0]] + code[1..];
      if code[0] == path[0] {
        InsertHas(if t.Nil? then Nil else t.Child(code[0]), code[1..], symbol, path[1..]);
      }
    }
  }

  // Some index below n has a codeword that starts with the path.
  ghost predicate Leads(bl: seq<nat>, alphabet: seq<nat>, n: nat, path: seq<bool>)
    requires n <= |bl|
  {
    exists i :: 0 <= i < n && Coded(bl, alphabet, i) && path <= Codeword(bl, i)
  }

  // The tree has exactly the nodes on the way of its codewords, also when codewords collide or run into each other.
  lemma {:induction false} BuiltHas(bl: seq<nat>, alphabet: seq<nat>, n: nat, path: seq<bool>)
    requires n <= |bl| && path != []
    ensures Has(BuildUpTo(bl, alphabet, n), path) <==> Leads(bl, alphabet, n, path)
  {
    if n != 0 {
      BuiltHas(bl, alphabet, n - 1, path);
      hide Codeword;
      if Coded(bl, alphabet, n - 1) {
        InsertHas(BuildUpTo(bl, alphabet, n - 1), Codeword(bl, n - 1), alphabet[n - 1], path);
      }
    }
  }

  // Some codeword agrees with that of index i before bit k and turns to the other side there.
  ghost predicate Parted(bl: seq<nat>, alphabet: seq<nat>, i: nat, k: nat)
    requires i < |bl| && k < bl[i]
  {
    Leads(bl, alphabet, |bl|, Codeword(bl, i)[..k] + [!Codeword(bl, i)[k]])
  }

  // Wherever a codeword turns to one side, some codeword that agrees with it so far turns to the other.
  ghost predicate Complete(bl: seq<nat>, alphabet: seq<nat>) {
    forall i: nat, k: nat | Coded(bl, alphabet, i) && k < bl[i] :: Parted(bl, alphabet, i, k)
  }

  lemma HasStep(t: Tree, c: bool, rest: seq<bool>)
    requires t.Node?
    ensures Has(t, [c] + rest) <==> Has(t.Child(c), rest)
  {
    assert ([c] + rest)[1..] == rest;
  }

  lemma AtStep(bits: seq<bool>, p: nat, rest: seq<bool>)
    requires p < |bits| && At(bits, p + 1, rest)
    ensures At(bits, p, [bits[p]] + rest)
  {
    assert bits[p..p + 1 + |rest|] == [bits[p]] + bits[p + 1..p + 1 + |rest|];
  }

  lemma PanicStep(t: Tree, bits: seq<bool>, p: nat)
    requires t.Node? && Walk(t, bits, p).Panic?
    ensures !t.Leaf() && p < |bits|
    ensures t.Child(bits[p]).Node? ==> Walk(t.Child(bits[p]), bits, p + 1).Panic?
  {
  }

  // At the end of the path, the tree goes on to one side only.
  ghost predicate Off(t: Tree, path: seq<bool>, b: bool) {
    Has(t, path + [!b]) && !Has(t, path + [b])
  }

  lemma OffHere(t: Tree, b: bool)
    requires t.Node? && !t.Leaf() && t.Child(b).Nil?
    ensures Off(t, [], b)
  {
    assert [] + [b] == [b] && [] + [!b] == [!b];
    assert [b][1..] == [] && [!b][1..] == [];
  }

  lemma OffBelow(t: Tree, c: bool, path: seq<bool>, b: bool)
    requires t.Node? && Off(t.Child(c), path, b)
    ensures Off(t, [c] + path, b)
  {
    HasStep(t, c, path + [b]);
    HasStep(t, c, path + [!b]);
    assert [c] + path + [b] == [c] + (path + [b]) && [c] + path + [!b] == [c] + (path + [!b]);
    hide Has;
  }

  // A walk that leaves the tree beside a node aborts.
  lemma WalkOff(t: Tree, path: seq<bool>, b: bool)
    requires Off(t, path, b)
    ensures Walk(t, path + [b], 0).Panic?
  {
    hide Off, Walk;
    assert (path + [b])[0..0 + |path + [b]|] == path + [b];
    OffAt(t, path, b, path + [b], 0);
  }

  lemma {:induction false} OffAt(t: Tree, path: seq<bool>, b: bool, bits: seq<bool>, p: nat)
    requires Off(t, path, b) && At(bits, p, path + [b])
    ensures Walk(t, bits, p).Panic?
    decreases |path|
  {
    if path == [] {
      OffNow(t, b);
      assert bits[p] == bits[p..p + 1][0] == ([] + [b])[0] == b;
    } else {
      var c, rest := path[0], path[1..];
      assert path == [c] + rest && path + [b] == [c] + (rest + [b]);
      OffNext(t, c, rest, b);
      AtSplit(bits, p, [c], rest + [b]);
      assert bits[p] == bits[p..p + 1][0] == c;
      OffAt(t.Child(c), rest, b, bits, p + 1);
    }
  }

  lemma OffNow(t: Tree, b: bool)
    requires Off(t, [], b)
    ensures t.Node? && !t.Leaf() && t.Child(b).Nil?
  {
    HasStep(t, b, []);
    HasStep(t, !b, []);
    assert [] + [b] == [b] + [] && [] + [!b] == [!b] + [];
  }

  lemma OffNext(t: Tree, c: bool, path: seq<bool>, b: bool)
    requires Off(t, [c] + path, b)
    ensures t.Node? && t.Child(c).Node? && Off(t.Child(c), path, b)
  {
    assert [c] + path + [b] == [c] + (path + [b]) && [c] + path + [!b] == [c] + (path + [!b]);
    HasStep(t, c, path + [b]);
    HasStep(t, c, path + [!b]);
  }

  // Only a walk that leaves the tree beside a node aborts.
  lemma {:induction false} PanicLeaves(t: Tree, bits: seq<bool>, p: nat) returns (path: seq<bool>, b: bool)
    requires t.Node? && Walk(t, bits, p).Panic?
    ensures Off(t, path, b) && At(bits, p, path + [b])
    decreases t
  {
    hide Walk, Off, At;
    PanicStep(t, bits, p);
    var c := bits[p];
    if t.Child(c).Nil? {
      path, b := [], c;
      OffHere(t, c);
      AtNothing(bits, p + 1);
      AtStep(bits, p, []);
      assert [] + [c] == [c] + [];
    } else {
      path, b := PanicLeaves(t.Child(c), bits, p + 1);
      OffBelow(t, c, path, b);
      AtStep(bits, p, path + [b]);
      assert [c] + path + [b] == [c] + (path + [b]);
      path := [c] + path;
    }
  }

  lemma AtNothing(bits: seq<bool>, p: nat)
    requires p <= |bits|
    ensures At(bits, p, [])
  {
  }

  // Whatever the lengths, also when they are oversubscribed: decoding never meets a missing child exactly when
  // the code is complete.
  lemma NeverPanics(bl: seq<nat>, alphabet: seq<nat>)
    ensures (forall bits: seq<bool>, p: nat :: !Walk(BuildTree(bl, alphabet), bits, p).Panic?)
            <==> Complete(bl, alphabet)
  {
    var t := BuildTree(bl, alphabet);
    if Complete(bl, alphabet) {
      forall bits: seq<bool>, p: nat ensures !Walk(t, bits, p).Panic? {
        if Walk(t, bits, p).Panic? {
          var path, b := PanicLeaves(t, bits, p);
          CompleteTurns(bl, alphabet, path, b);
        }
      }
    } else {
      IncompletePanics(bl, alphabet);
    }
  }

  lemma CompleteTurns(bl: seq<nat>, alphabet: seq<nat>, path: seq<bool>, b: bool)
    requires Complete(bl, alphabet) && Has(BuildTree(bl, alphabet), path + [!b])
    ensures Has(BuildTree(bl, alphabet), path + [b])
  {
    BuiltHas(bl, alphabet, |bl|, path + [!b]);
    BuiltHas(bl, alphabet, |bl|, path + [b]);
    var i :| 0 <= i < |bl| && Coded(bl, alphabet, i) && path + [!b] <= Codeword(bl, i);
    var code := Codeword(bl, i);
    assert code[..|path|] == (path + [!b])[..|path|] == path && code[|path|] == (path + [!b])[|path|] == !b;
    assert Parted(bl, alphabet, i, |path|);
  }

  lemma IncompletePanics(bl: seq<nat>, alphabet: seq<nat>)
    requires !Complete(bl, alphabet)
    ensures exists bits: seq<bool>, p: nat :: Walk(BuildTree(bl, alphabet), bits, p).Panic?
  {
    var i: nat, k: nat :| Coded(bl, alphabet, i) && k < bl[i] && !Parted(bl, alphabet, i, k);
    var code := Codeword(bl, i);
    assert code[..k] + [code[k]] == code[..k + 1];
    BuiltHas(bl, alphabet, |bl|, code[..k] + [!code[k]]);
    BuiltHas(bl, alphabet, |bl|, code[..k] + [code[k]]);
    hide Codeword, BuildUpTo, Has, Walk;
    assert Leads(bl, alphabet, |bl|, code[..k + 1]);
    WalkOff(BuildTree(bl, alphabet), code[..k], !code[k]);
  }

  // For lengths that satisfy the Kraft inequality, decoding never meets a missing child
  // exactly when the coded symbols use up the whole code space, or there are none.
  lemma KraftNeverPanics(bl: seq<nat>, alphabet: seq<nat>, m: nat)
    requires Kraft(bl, m)
    ensures var coded := KraftSum(bl[..Min(|bl|, |alphabet|)], m);
            (forall bits: seq<bool>, p: nat :: !Walk(BuildTree(bl, alphabet), bits, p).Panic?)
            <==> coded == Pow2(m) || coded == 0
  {
    var t := BuildTree(bl, alphabet);
    BuiltWellFormed(bl, alphabet, |bl|);
    BuiltWeight(bl, alphabet, m, |bl|);
    WeightBound(t, m);
    if Full(t) {
      forall bits: seq<bool>, p: nat ensures !Walk(t, bits, p).Panic? {
        FullNeverPanics(t, bits, p);
      }
    } else if t != EMPTY {
      var path := MissingChild(t);
      PositiveWeight(t, m);
    }
  }

  // Filling the code space is not enough without the Kraft inequality: the lengths 1, 1, 1, 2 over-fill it, the third
  // codeword overwrites the first, and the fourth leaves a node with one child.
  lemma OverfullPanics()
    ensures var bl: seq<nat> := [1, 1, 1, 2];
            AtMost(bl, 2) && KraftSum(bl, 2) > Pow2(2) && Walk(BuildTree(bl, Alphabet(4)), [true, true], 0).Panic?
  {
    var bl: seq<nat>, symbols := [1, 1, 1, 2], Alphabet(4);
    OverfullCodes(bl);
    hide Codeword, KraftSum, AtMost;
    var leaf0, leaf1 := Node(Some(0), Nil, Nil), Node(Some(1), Nil, Nil);
    assert BuildUpTo(bl, symbols, 1) == Node(None, leaf0, Nil);
    assert BuildUpTo(bl, symbols, 2) == Node(None, leaf0, leaf1);
    assert BuildUpTo(bl, symbols, 3) == Node(None, Node(Some(2), Nil, Nil), leaf1);
    assert [true, false][1..] == [false];
    assert BuildUpTo(bl, symbols, 4).right == Insert(leaf1, [false], 3) == Node(Some(1), Node(Some(3), Nil, Nil), Nil);
  }

  lemma OverfullCodes(bl: seq<nat>)
    requires bl == [1, 1, 1, 2]
    ensures AtMost(bl, 2) && KraftSum(bl, 2) > Pow2(2)
    ensures Codeword(bl, 0) == [false] && Codeword(bl, 1) == [true]
    ensures Codeword(bl, 2) == [false] && Codeword(bl, 3) == [true, false]
  {
    OverfullCounts(bl);
    assert bl[..|bl| - 1] == bl[..3] && bl[..3][..2] == bl[..2] && bl[..2][..1] == bl[..1];
    assert KraftSum(bl[..1], 2) == 2 && KraftSum(bl[..2], 2) == 4 && KraftSum(bl[..3], 2) == 6;
    hide Count, FirstCode, KraftSum;
    assert CodeBits(6, 2) == CodeBits(3, 1) + [false];
  }

  lemma OverfullCounts(bl: seq<nat>)
    requires bl == [1, 1, 1, 2]
    ensures Count(bl[..0], 1) == 0 && Count(bl[..1], 1) == 1 && Count(bl[..2], 1) == 2 && Count(bl[..3], 2) == 0
    ensures FirstCode(bl, 1) == 0 && FirstCode(bl, 2) == 6
  {
    assert bl[..3][..2] == bl[..2] && bl[..2][..1] == bl[..1] && bl[..1][..0] == bl[..0];
    assert Count(bl[..0], 1) == 0 && Count(bl[..1], 1) == 1 && Count(bl[..2], 1) == 2;
    assert Count(bl[..0], 2) == 0 && Count(bl[..1], 2) == 0 && Count(bl[..2], 2) == 0;
    assert Count(bl[..3], 1) == 3;
    assert bl[..|bl| - 1] == bl[..3];
  }

  lemma {:induction false} PositiveWeight(t: Tree, height: nat)
    requires Fits(t, height) && WellFormed(t) && t.Node?
    ensures Weight(t, height) > 0
  {
    if !t.Leaf() {
      if t.left.Node? {
        PositiveWeight(t.left, height - 1);
      } else {
        PositiveWeight(t.right, height - 1);
      }
    }
  }

  // A length list may give a code to an index beyond the alphabet (286 and 287, or distances 30 and 31):
  // the decoder aborts on that code instead of reporting an invalid symbol.
  lemma ReservedCodePanics(bl: seq<nat>, alphabet: seq<nat>, m: nat, i: nat, j: nat, bits: seq<bool>, p: nat)
    requires Kraft(bl, m) && Coded(bl, alphabet, j)
    requires |alphabet| <= i < |bl| && bl[i] != 0
    requires At(bits, p, Codeword(bl, i))
    ensures Walk(BuildTree(bl, alphabet), bits, p).Panic?
  {
    BuiltSoFar(bl, alphabet, m, |bl|, i);
    BuiltSoFar(bl, alphabet, m, |bl|, j);
    BuiltWellFormed(bl, alphabet, |bl|);
    FreePanics(BuildTree(bl, alphabet), Codeword(bl, i), bits, p);
  }

  // ----- Progress and range of a walk

  lemma {:induction false} WalkProgress(t: Tree, bits: seq<bool>, p: nat)
    requires t.Node? && p <= |bits|
    ensures Walk(t, bits, p).Ok? ==> p <= Walk(t, bits, p).next <= |bits|
    ensures Walk(t, bits, p).Ok? && t.symbol.None? ==> p < Walk(t, bits, p).next
    decreases t
  {
    if !t.Leaf() && p < |bits| && t.Child(bits[p]).Node? {
      WalkProgress(t.Child(bits[p]), bits, p + 1);
    }
  }

  predicate SymbolsBelow(t: Tree, k: nat) {
    t.Nil? || ((t.symbol.Some? ==> t.symbol.value < k) && SymbolsBelow(t.left, k) && SymbolsBelow(t.right, k))
  }

  lemma {:induction false} InsertBelow(t: Tree, code: seq<bool>, symbol: nat, k: nat)
    requires SymbolsBelow(t, k) && symbol < k
    ensures SymbolsBelow(Insert(t, code, symbol), k)
    decreases |code|
  {
    if code != [] {
      InsertBelow(if t.Nil? then Nil else t.Child(code[0]), code[1..], symbol, k);
    }
  }

  lemma {:induction false} BuiltBelow(bl: seq<nat>, k: nat, n: nat)
    requires n <= |bl|
    ensures SymbolsBelow(BuildUpTo(bl, Alphabet(k), n), k)
  {
    if n != 0 {
      BuiltBelow(bl, k, n - 1);
      if Coded(bl, Alphabet(k), n - 1) {
        InsertBelow(BuildUpTo(bl, Alphabet(k), n - 1), Codeword(bl, n - 1), n - 1, k);
      }
    }
  }

  lemma {:induction false} WalkBelow(t: Tree, k: nat, bits: seq<bool>, p: nat)
    requires t.Node? && SymbolsBelow(t, k)
    ensures Walk(t, bits, p).Ok? ==> Walk(t, bits, p).value < k
    decreases t
  {
    if !t.Leaf() && p < |bits| && t.Child(bits[p]).Node? {
      WalkBelow(t.Child(bits[p]), k, bits, p + 1);
    }
  }

  // Whatever the lengths, a decoded symbol is in the alphabet: the checks for an invalid length symbol,
  // an invalid distance symbol and an invalid code length symbol never fire.
  lemma DecodedInAlphabet(bl: seq<nat>, k: nat, bits: seq<bool>, p: nat)
    ensures var s := Walk(BuildTree(bl, Alphabet(k)), bits, p); s.Ok? ==> s.value < k
  {
    BuiltBelow(bl, k, |bl|);
    WalkBelow(BuildTree(bl, Alphabet(k)), k, bits, p);
  }

  // ----- The codeword counters stay within 32 bits

  lemma {:induction false} UsedBound(bl: seq<nat>, b: nat)
    ensures Used(bl, b) <= |bl| * Pow2(b)
  {
    if bl == [] {
      UsedEmpty(b);
    } else {
      UsedAppend(bl, b);
      UsedBound(bl[..|bl| - 1], b);
      var l := bl[|bl| - 1];
      if 1 <= l <= b {
        Pow2Mono(b - l, b);
      }
      assert |bl| * Pow2(b) == (|bl| - 1) * Pow2(b) + Pow2(b);
    }
  }

  lemma CountersFitU32(bl: seq<nat>, b: nat)
    requires |bl| <= 65536 && b <= 15
    ensures FirstCode(bl, b) + Count(bl, b) <= 0x8000_0000 || b == 0
  {
    if b != 0 {
      UsedIsFirstFree(bl, b);
      UsedBound(bl, b);
      Pow2Mono(b, 15);
      assert Pow2(15) == 32768 by {
        assert Pow2(5) == 32 && Pow2(10) == 1024;
        Pow2Add(5, 10);
      }
      MulMono(|bl|, Pow2(b), 65536, 32768);
    }
  }
}
