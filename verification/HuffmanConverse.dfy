/** What a walk says about the bits it took: the codeword it read, or the place where it left the tree. */
module HuffmanConverse {
  import opened BitStream
  import opened Collections
  import opened Huffman
  import opened HuffmanComplete

  // ----- A symbol was read: its codeword stands there

  // The path leads to a node that holds the symbol.
  predicate Holds(t: Tree, path: seq<bool>, symbol: nat)
    decreases |path|
  {
    t.Node? && if path == [] then t.symbol == Some(symbol) else Holds(t.Child(path[0]), path[1..], symbol)
  }

  lemma {:induction false} InsertHolds(t: Tree, code: seq<bool>, symbol: nat, path: seq<bool>, x: nat)
    requires Holds(Insert(t, code, symbol), path, x)
    ensures Holds(t, path, x) || (path == code && x == symbol)
    decreases |code|
  {
    if code != [] && path != [] && code[0] == path[0] {
      InsertHolds(if t.Nil? then Nil else t.Child(code[0]), code[1..], symbol, path[1..], x);
      assert path == [path[0]] + path[1..] && code == [code[0]] + code[1..];
    }
  }

  // Every symbol in the tree was put there for an index whose codeword leads to it.
  lemma {:induction false} BuiltHolds(bl: seq<nat>, alphabet: seq<nat>, n: nat, path: seq<bool>, x: nat)
    returns (i: nat)
    requires n <= |bl| && Holds(BuildUpTo(bl, alphabet, n), path, x)
    ensures i < n && Coded(bl, alphabet, i) && Codeword(bl, i) == path && alphabet[i] == x
  {
    if n == 0 {
      assert false;
    } else {
      hide Codeword;
      var t := BuildUpTo(bl, alphabet, n - 1);
      if Coded(bl, alphabet, n - 1) {
        InsertHolds(t, Codeword(bl, n - 1), alphabet[n - 1], path, x);
      }
      if Holds(t, path, x) {
        i := BuiltHolds(bl, alphabet, n - 1, path, x);
      } else {
        i := n - 1;
      }
    }
  }

  lemma {:induction false} WalkPath(t: Tree, bits: seq<bool>, p: nat)
    requires t.Node? && p <= |bits| && Walk(t, bits, p).Ok?
    ensures var q := Walk(t, bits, p).next; p <= q <= |bits| && Holds(t, bits[p..q], Walk(t, bits, p).value)
    decreases t
  {
    if !t.Leaf() {
      var child := t.Child(bits[p]);
      WalkPath(child, bits, p + 1);
      var q := Walk(child, bits, p + 1).next;
      assert bits[p..q][1..] == bits[p + 1..q];
    }
  }

  // Whatever the lengths, a decoded symbol is that of an index whose codeword was just read.
  lemma DecodedIsCodeword(bl: seq<nat>, alphabet: seq<nat>, bits: seq<bool>, p: nat) returns (i: nat)
    requires p <= |bits| && Walk(BuildTree(bl, alphabet), bits, p).Ok?
    ensures Coded(bl, alphabet, i) && At(bits, p, Codeword(bl, i))
    ensures Walk(BuildTree(bl, alphabet), bits, p) == Ok(alphabet[i], p + bl[i])
  {
    var t := BuildTree(bl, alphabet);
    WalkPath(t, bits, p);
    var r := Walk(t, bits, p);
    hide Walk, BuildUpTo, Holds;
    i := BuiltHolds(bl, alphabet, |bl|, bits[p..r.next], r.value);
  }

  // Under the Kraft inequality decoding yields a symbol exactly where its codeword stands.
  lemma DecodesIff(bl: seq<nat>, alphabet: seq<nat>, m: nat, bits: seq<bool>, p: nat, symbol: nat, q: nat)
    requires Kraft(bl, m) && p <= |bits|
    ensures Walk(BuildTree(bl, alphabet), bits, p) == Ok(symbol, q) <==>
            exists i: nat ::
              Coded(bl, alphabet, i) && alphabet[i] == symbol && q == p + bl[i] && At(bits, p, Codeword(bl, i))
  {
    hide Walk, BuildTree, Codeword, Kraft, At;
    if Walk(BuildTree(bl, alphabet), bits, p) == Ok(symbol, q) {
      var i := DecodedIsCodeword(bl, alphabet, bits, p);
    }
    forall i: nat | Coded(bl, alphabet, i) && At(bits, p, Codeword(bl, i))
      ensures Walk(BuildTree(bl, alphabet), bits, p) == Ok(alphabet[i], p + bl[i])
    {
      DecodeCodeword(bl, alphabet, m, i, bits, p);
    }
  }

  // ----- The program aborted: the bits left the tree beside a node

  // A walk aborts on some bits exactly if they start with a path that leaves the tree beside a node.
  lemma WalkPanicsIff(t: Tree, bits: seq<bool>, p: nat)
    requires t.Node?
    ensures Walk(t, bits, p).Panic? <==>
            exists path, b :: Off(t, path, b) && At(bits, p, path + [b])
  {
    hide Walk, Off, At;
    if Walk(t, bits, p).Panic? {
      var path, b := PanicLeaves(t, bits, p);
    }
    forall path: seq<bool>, b: bool | Off(t, path, b) && At(bits, p, path + [b])
      ensures Walk(t, bits, p).Panic?
    {
      OffAt(t, path, b, bits, p);
    }
  }

  // ----- The same on the codewords

  // The bits with the last one turned over.
  function Turned(code: seq<bool>): seq<bool>
    requires code != []
  {
    code[..|code| - 1] + [!code[|code| - 1]]
  }

  // No codeword starts with the bits, but one does with the last bit turned over.
  ghost predicate Gap(bl: seq<nat>, alphabet: seq<nat>, code: seq<bool>) {
    code != [] && !Leads(bl, alphabet, |bl|, code) && Leads(bl, alphabet, |bl|, Turned(code))
  }

  lemma GapIsOff(bl: seq<nat>, alphabet: seq<nat>, path: seq<bool>, b: bool)
    ensures Gap(bl, alphabet, path + [b]) <==> Off(BuildTree(bl, alphabet), path, b)
  {
    assert Turned(path + [b]) == path + [!b];
    BuiltHas(bl, alphabet, |bl|, path + [b]);
    BuiltHas(bl, alphabet, |bl|, path + [!b]);
  }

  // For any lengths: decoding aborts on some bits exactly if they start with a gap of the code.
  lemma PanicsIff(bl: seq<nat>, alphabet: seq<nat>, bits: seq<bool>, p: nat)
    ensures Walk(BuildTree(bl, alphabet), bits, p).Panic? <==>
            exists code :: Gap(bl, alphabet, code) && At(bits, p, code)
  {
    var t := BuildTree(bl, alphabet);
    hide Walk, Off, At, Gap, BuildTree;
    WalkPanicsIff(t, bits, p);
    if Walk(t, bits, p).Panic? {
      var path, b :| Off(t, path, b) && At(bits, p, path + [b]);
      GapIsOff(bl, alphabet, path, b);
    }
    if code :| Gap(bl, alphabet, code) && At(bits, p, code) {
      GapParts(bl, alphabet, code);
      GapIsOff(bl, alphabet, code[..|code| - 1], code[|code| - 1]);
    }
  }

  lemma GapParts(bl: seq<nat>, alphabet: seq<nat>, code: seq<bool>)
    requires Gap(bl, alphabet, code)
    ensures code != [] && code == code[..|code| - 1] + [code[|code| - 1]]
  {
  }

  // Decoding never meets a missing child exactly when the code is complete, and so exactly when it has no gap.
  lemma NoGapIff(bl: seq<nat>, alphabet: seq<nat>)
    ensures Complete(bl, alphabet) <==> forall code :: !Gap(bl, alphabet, code)
  {
    hide Walk, BuildTree, Gap, Complete, At;
    NeverPanics(bl, alphabet);
    if Complete(bl, alphabet) {
      forall code ensures !Gap(bl, alphabet, code) {
        AtStart(code);
        PanicsIff(bl, alphabet, code, 0);
      }
    } else {
      var bits: seq<bool>, p: nat :| Walk(BuildTree(bl, alphabet), bits, p).Panic?;
      PanicsIff(bl, alphabet, bits, p);
    }
  }

  lemma AtStart(code: seq<bool>)
    ensures At(code, 0, code)
  {
    assert code[0..|code|] == code;
  }
}
