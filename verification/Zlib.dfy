/** The decoder of zlib.rs in its own form: a bit reader, linked trees and loops, proved equal to module InflateSpec. */
module Zlib {
  import opened Arith
  import opened BitStream
  import opened Collections
  import opened Huffman
  import opened HuffmanComplete
  import opened InflateSpec

  // How a call ends: with a value, with an error, or by aborting the program.
  datatype Outcome<+T> = Done(value: T) | Fail(error: Error) | Abort {
    predicate IsFailure() { !Done? }
    function PropagateFailure<U>(): Outcome<U>
      requires !Done?
    {
      if Fail? then Fail(error) else Abort
    }
    function Extract(): T
      requires Done?
    {
      value
    }
  }

  lemma ByteRead(mem: Bytes, p: nat)
    ensures var k := Align(p) / 8;
            ReadBytes(BitsOf(mem), p, 1) == if k < |mem| then Ok(mem[k], 8 * k + 8) else Err(EndOfData)
  {
    var k := Align(p) / 8;
    assert Align(p) == 8 * k;
    hide Align, BitsOf, Value;
    if k < |mem| {
      ByteAt(mem, k);
    }
  }

  function Shr(c: nat, n: nat): nat {
    hide Pow2;
    c / Pow2(n)
  }

  lemma ShrStep(c: nat, n: nat)
    ensures Shr(c, 0) == c && Shr(c, n) / 2 == Shr(c, n + 1)
  {
    DivDiv(c, Pow2(n), 2);
  }

  lemma BitRead(mem: Bytes, k: nat, shift: nat)
    requires k < |mem| && shift < 8
    ensures BitStream.ReadBit(BitsOf(mem), 8 * k + shift) == Ok(Shr(mem[k], shift) % 2, 8 * k + shift + 1)
  {
    assert (8 * k + shift) / 8 == k && (8 * k + shift) % 8 == shift;
  }

  lemma NextBit(bits: seq<bool>, p: nat, i: nat)
    requires p + i < |bits|
    ensures Value(bits[p..p + i + 1]) == Value(bits[p..p + i]) + (if bits[p + i] then 1 else 0) * Pow2(i)
  {
    assert bits[p..p + i + 1][..i] == bits[p..p + i];
  }

  lemma NextByte(bits: seq<bool>, q: nat, i: nat)
    requires q + 8 * i + 8 <= |bits|
    ensures Value(bits[q..q + 8 * (i + 1)])
         == Value(bits[q..q + 8 * i]) + Pow2(8 * i) * Value(bits[q + 8 * i..q + 8 * i + 8])
  {
    var a, b := bits[q..q + 8 * i], bits[q + 8 * i..q + 8 * i + 8];
    hide Value, Pow2;
    assert bits[q..q + 8 * (i + 1)] == a + b;
    ValueConcat(a, b);
  }

  class BitReader {
    const mem: Bytes
    var pos: nat
    var b: nat
    var numbits: nat

    ghost predicate Valid()
      reads this
    {
      && pos <= |mem|
      && numbits < 8
      && (numbits > 0 ==> pos > 0 && b == Shr(mem[pos - 1], 8 - numbits))
    }

    // The bit position: all bits before it are consumed.
    ghost function P(): (p: nat)
      reads this
      requires Valid()
      ensures p <= |BitsOf(mem)|
    {
      8 * pos - numbits
    }

    ghost predicate Agrees<T>(o: Outcome<T>, s: Parsed<T>)
      reads this
      requires Valid()
    {
      match s
      case Ok(v, q) => o == Done(v) && P() == q
      case Err(e) => o == Fail(e)
      case Panic => o == Abort
    }

    constructor (mem: Bytes)
      ensures Valid() && this.mem == mem && P() == 0
    {
      this.mem := mem;
      pos, b, numbits := 0, 0, 0;
    }

    method ReadByte() returns (o: Outcome<nat>)
      requires Valid()
      modifies this
      ensures Valid() && Agrees(o, ReadBytes(BitsOf(mem), old(P()), 1))
      ensures o.Done? ==> numbits == 0 && pos > 0 && o.value == mem[pos - 1]
    {
      hide BitsOf, ReadBytes;
      ByteRead(mem, P());
      numbits := 0; // unread bits are discarded
      if pos >= |mem| {
        return Fail(EndOfData);
      }
      var c := mem[pos];
      pos := pos + 1;
      return Done(c);
    }

    method ReadBit() returns (o: Outcome<nat>)
      requires Valid()
      modifies this
      ensures Valid() && Agrees(o, BitStream.ReadBit(BitsOf(mem), old(P())))
    {
      hide BitsOf, ReadBytes, Shr, Align;
      if numbits <= 0 {
        AlignedByte(mem, pos);
        var c :- ReadByte();
        b := c;
        numbits := 8;
        ShrStep(c, 0);
      }
      BitRead(mem, pos - 1, 8 - numbits);
      ShrStep(mem[pos - 1], 8 - numbits);
      numbits := numbits - 1;
      var bit := b % 2;
      b := b / 2;
      return Done(bit);
    }

    method ReadBits(n: nat) returns (o: Outcome<nat>)
      requires Valid()
      modifies this
      ensures Valid() && Agrees(o, BitStream.ReadBits(BitsOf(mem), old(P()), n))
    {
      hide BitsOf, Value, Pow2;
      var v := 0;
      ghost var bits, p := BitsOf(mem), P();
      EmptyValue(bits, p);
      for i := 0 to n
        invariant Valid() && P() == p + i <= |bits|
        invariant v == Value(bits[p..p + i])
      {
        var bit :- ReadBit();
        NextBit(bits, p, i);
        v := v + bit * Pow2(i);
      }
      return Done(v);
    }

    // n whole bytes as an integer in little-endian order.
    method ReadBytesLe(n: nat) returns (o: Outcome<nat>)
      requires Valid()
      modifies this
      ensures Valid() && Agrees(o, ReadBytes(BitsOf(mem), old(P()), n))
    {
      hide BitsOf, Value, Pow2, Valid, P;
      var v := 0;
      ghost var bits, p, q := BitsOf(mem), P(), Align(P());
      EmptyValue(bits, q);
      for i := 0 to n
        invariant Valid() && q <= |bits|
        invariant P() == if i == 0 then p else q + 8 * i
        invariant v == Value(bits[q..q + 8 * i])
      {
        var c :- ReadByte();
        NextByte(bits, q, i);
        v := v + Pow2(8 * i) * c;
      }
      return Done(v);
    }
  }

  lemma EmptyValue(bits: seq<bool>, p: nat)
    requires p <= |bits|
    ensures Value(bits[p..p]) == 0
  {
  }

  // At a byte boundary reading a bit starts with reading the byte.
  lemma AlignedByte(mem: Bytes, k: nat)
    requires k <= |mem|
    ensures ReadBytes(BitsOf(mem), 8 * k, 1) == if k < |mem| then Ok(mem[k], 8 * k + 8) else Err(EndOfData)
    ensures BitStream.ReadBit(BitsOf(mem), 8 * k).Ok? <==> k < |mem|
    ensures k == |mem| ==> BitStream.ReadBit(BitsOf(mem), 8 * k) == Err(EndOfData)
  {
    ByteRead(mem, 8 * k);
    assert Align(8 * k) == 8 * k;
  }

  // ----- Linked trees

  class Node {
    var symbol: Option<nat>
    var left: Node?
    var right: Node?
    ghost var model: Tree
    ghost var parent: Node?

    constructor ()
      ensures symbol == None && left == null && right == null
      ensures model == EMPTY && parent == null
    {
      symbol, left, right := None, null, null;
      model, parent := EMPTY, null;
    }
  }

  class HuffmanTree {
    var root: Node
    ghost var nodes: set<Node>

    ghost predicate Child(n: Node, c: Node?, t: Tree)
      reads this, nodes
    {
      if c == null then t.Nil? else c in nodes && c.parent == n && c.model == t
    }

    // The fields of n describe the tree t.
    ghost predicate Shows(n: Node, t: Tree)
      reads this, nodes, n
    {
      && t.Node?
      && n.symbol == t.symbol
      && Child(n, n.left, t.left)
      && Child(n, n.right, t.right)
      && (n.left != null ==> n.left != n.right)
    }

    ghost predicate Valid()
      reads this, nodes
    {
      && root in nodes
      && root.parent == null
      && forall n | n in nodes :: Shows(n, n.model)
    }

    ghost function Model(): (t: Tree)
      reads this, nodes
      requires Valid()
      ensures t.Node?
    {
      root.model
    }

    constructor ()
      ensures Valid() && fresh(nodes) && Model() == EMPTY
    {
      root := new Node();
      nodes := {root};
    }

    // Every node but the one the insertion has reached shows its model.
    ghost predicate ValidBut(node: Node)
      reads this, nodes
    {
      && root in nodes && root.parent == null && node in nodes
      && forall n | n in nodes && n != node :: Shows(n, n.model)
    }

    // One step down from `node`, which still shows `before`; a missing child is added.
    method Descend(node: Node, right: bool, ghost before: Tree, ghost rest: seq<bool>, ghost symbol: nat)
      returns (child: Node, ghost below: Tree)
      requires ValidBut(node) && Shows(node, before)
      requires node.model == Huffman.Insert(before, [right] + rest, symbol)
      modifies this, nodes
      ensures root == old(root) && root.model == old(root.model) && fresh(nodes - old(nodes))
      ensures ValidBut(child) && Shows(child, below)
      ensures child.model == Huffman.Insert(below, rest, symbol)
    {
      InsertStep(before, right, rest, symbol);
      hide Huffman.Insert;
      if right {
        if node.right == null {
          child := new Node();
          child.parent := node;
          node.right := child;
          nodes := nodes + {child};
          below := EMPTY;
        } else {
          child, below := node.right, before.right;
        }
      } else {
        if node.left == null {
          child := new Node();
          child.parent := node;
          node.left := child;
          nodes := nodes + {child};
          below := EMPTY;
        } else {
          child, below := node.left, before.left;
        }
      }
      child.model := Huffman.Insert(below, rest, symbol);
    }

    // Walks down along the bits of the codeword, most significant first, adding the nodes that are missing.
    method Insert(codeword: nat, n: nat, symbol: nat)
      requires Valid()
      modifies this, nodes
      ensures Valid() && fresh(nodes - old(nodes))
      ensures Model() == Huffman.Insert(old(Model()), CodeBits(codeword, n), symbol)
    {
      hide CodeBits, Pow2;
      var node := root;
      ghost var before := root.model;
      root.model := Huffman.Insert(before, CodeBits(codeword, n), symbol);
      var i := n;
      while i > 0
        invariant 0 <= i <= n && root == old(root) && fresh(nodes - old(nodes))
        invariant root.model == Huffman.Insert(old(root.model), CodeBits(codeword, n), symbol)
        invariant node.model == Huffman.Insert(before, CodeBits(codeword, i), symbol)
        invariant ValidBut(node) && Shows(node, before)
      {
        i := i - 1;
        CodeBitsHead(codeword, i);
        var bit := (codeword / Pow2(i)) % 2;
        node, before := Descend(node, bit != 0, before, CodeBits(codeword, i), symbol);
      }
      node.symbol := Some(symbol);
    }
  }

  lemma InsertStep(t: Tree, right: bool, rest: seq<bool>, symbol: nat)
    requires t.Node?
    ensures var below := Huffman.Insert(t.Child(right), rest, symbol);
            Huffman.Insert(t, [right] + rest, symbol)
              == if right then Tree.Node(t.symbol, t.left, below) else Tree.Node(t.symbol, below, t.right)
    ensures Huffman.Insert(EMPTY, rest, symbol) == Huffman.Insert(Nil, rest, symbol)
  {
    assert ([right] + rest)[1..] == rest;
  }

  // The codeword of i + 1 bits starts with bit i and goes on with the i lower ones.
  lemma {:induction false} CodeBitsHead(x: nat, i: nat)
    ensures CodeBits(x, i + 1) == [(x / Pow2(i)) % 2 == 1] + CodeBits(x, i)
  {
    if i != 0 {
      CodeBitsHead(x / 2, i - 1);
      DivDiv(x, 2, Pow2(i - 1));
    }
  }

  method DecodeSymbol(r: BitReader, t: HuffmanTree) returns (o: Outcome<nat>)
    requires r.Valid() && t.Valid()
    modifies r
    ensures r.Valid() && r.Agrees(o, Walk(t.Model(), BitsOf(r.mem), old(r.P())))
  {
    var node := t.root;
    while node.left != null || node.right != null
      invariant r.Valid() && t.Valid() && node in t.nodes
      invariant Walk(node.model, BitsOf(r.mem), r.P()) == Walk(t.Model(), BitsOf(r.mem), old(r.P()))
      decreases node.model
    {
      assert t.Shows(node, node.model);
      var b :- r.ReadBit();
      var child := if b != 0 then node.right else node.left;
      if child == null {
        return Abort; // the source unwraps the missing child
      }
      assert t.Shows(child, child.model);
      node := child;
    }
    assert t.Shows(node, node.model);
    match node.symbol {
      case Some(s) => return Done(s);
      case None => return Fail(NoSymbol);
    }
  }

  // Counts the code lengths, derives the first codeword of each length, and inserts the codewords in order.
  method BlListToTree(bl: seq<nat>, alphabet: seq<nat>) returns (t: HuffmanTree)
    ensures t.Valid() && fresh(t) && fresh(t.nodes)
    ensures t.Model() == BuildTree(bl, alphabet)
  {
    hide CodeBits, FirstCode, Count, BuildUpTo, Huffman.Insert;
    var maxBits := MaxLength(bl);
    var blCount := CountLengths(bl, maxBits);
    var nextCode := FirstCodes(bl, maxBits, blCount);
    t := new HuffmanTree();
    NothingBuilt(bl, alphabet);
    for i := 0 to |bl|
      invariant t.Valid() && fresh(t) && fresh(t.nodes) && fresh(nextCode) && nextCode.Length == maxBits + 1
      invariant t.Model() == BuildUpTo(bl, alphabet, i)
      invariant i <= |alphabet| ==>
        forall l | 1 <= l <= maxBits :: nextCode[l] == FirstCode(bl, l) + Count(bl[..i], l)
    {
      var bitlen := bl[i];
      BuiltNext(bl, alphabet, i);
      if bitlen != 0 && i < |alphabet| {
        t.Insert(nextCode[bitlen], bitlen, alphabet[i]);
        nextCode[bitlen] := nextCode[bitlen] + 1;
      }
    }
  }

  lemma NothingBuilt(bl: seq<nat>, alphabet: seq<nat>)
    ensures BuildUpTo(bl, alphabet, 0) == EMPTY && forall l :: Count(bl[..0], l) == 0
  {
  }

  lemma BuiltNext(bl: seq<nat>, alphabet: seq<nat>, i: nat)
    requires i < |bl|
    ensures forall l :: Count(bl[..i + 1], l) == Count(bl[..i], l) + if l == bl[i] then 1 else 0
    ensures BuildUpTo(bl, alphabet, i + 1)
         == if bl[i] == 0 || i >= |alphabet| then BuildUpTo(bl, alphabet, i)
            else Huffman.Insert(BuildUpTo(bl, alphabet, i),
                                CodeBits(FirstCode(bl, bl[i]) + Count(bl[..i], bl[i]), bl[i]), alphabet[i])
  {
    assert bl[..i + 1][..i] == bl[..i];
  }

  method MaxLength(bl: seq<nat>) returns (m: nat)
    ensures AtMost(bl, m) && (m == 0 || m in bl)
  {
    m := 0;
    for i := 0 to |bl|
      invariant AtMost(bl[..i], m) && (m == 0 || m in bl[..i])
    {
      if bl[i] > m {
        m := bl[i];
      }
    }
    assert bl[..|bl|] == bl;
  }

  method CountLengths(bl: seq<nat>, maxBits: nat) returns (blCount: array<nat>)
    requires AtMost(bl, maxBits)
    ensures fresh(blCount) && blCount.Length == maxBits + 1
    ensures forall l | 1 <= l <= maxBits :: blCount[l] == Count(bl, l)
  {
    blCount := new nat[maxBits + 1](_ => 0);
    for i := 0 to |bl|
      invariant forall l | 1 <= l <= maxBits :: blCount[l] == Count(bl[..i], l)
    {
      assert bl[..i + 1][..i] == bl[..i];
      if bl[i] != 0 {
        blCount[bl[i]] := blCount[bl[i]] + 1;
      }
    }
    assert bl[..|bl|] == bl;
  }

  method FirstCodes(bl: seq<nat>, maxBits: nat, blCount: array<nat>) returns (nextCode: array<nat>)
    requires blCount.Length == maxBits + 1
    requires forall l | 1 <= l <= maxBits :: blCount[l] == Count(bl, l)
    ensures fresh(nextCode) && nextCode.Length == maxBits + 1
    ensures forall l | 0 <= l <= maxBits :: nextCode[l] == FirstCode(bl, l)
  {
    nextCode := new nat[maxBits + 1](_ => 0);
    var bits := 2;
    while bits <= maxBits
      invariant 2 <= bits
      invariant forall l | 0 <= l < bits && l <= maxBits :: nextCode[l] == FirstCode(bl, l)
    {
      nextCode[bits] := (nextCode[bits - 1] + blCount[bits - 1]) * 2;
      bits := bits + 1;
    }
  }

  method CopyLoop(out: Bytes, distance: nat, length: nat) returns (r: Bytes)
    requires 0 < distance <= |out|
    ensures r == CopyBack(out, distance, length)
  {
    r := out;
    for i := 0 to length
      invariant |r| == |out| + i
      invariant CopyBack(r, distance, length - i) == CopyBack(out, distance, length)
    {
      var idx := |r| - distance;
      r := r + [r[idx]];
    }
  }

  // The symbol loop of a block: literals, end of block, and <length, distance> pairs.
  method InflateBlockData(r: BitReader, literals: HuffmanTree, distances: HuffmanTree, out: Bytes)
    returns (o: Outcome<Bytes>)
    requires r.Valid() && literals.Valid() && distances.Valid() && literals.Model().symbol.None?
    modifies r
    ensures r.Valid()
    ensures r.Agrees(o, BlockData(BitsOf(r.mem), old(r.P()), literals.Model(), distances.Model(), out))
  {
    hide Walk, BitsOf, BitStream.ReadBits, CopyBack, LengthExtra, LengthBase, DistanceExtra, DistanceBase;
    ghost var bits, lt, dt := BitsOf(r.mem), literals.Model(), distances.Model();
    var buf := out;
    while true
      invariant r.Valid() && literals.Valid() && distances.Valid()
      invariant literals.Model() == lt && distances.Model() == dt
      invariant BlockData(bits, r.P(), lt, dt, buf) == BlockData(bits, old(r.P()), lt, dt, out)
      decreases |bits| - r.P()
    {
      RoundProgress(bits, r.P(), lt, dt, buf);
      var sym :- DecodeSymbol(r, literals);
      if sym <= 255 {
        buf := buf + [sym];
      } else if sym == 256 {
        return Done(buf);
      } else {
        buf :- InflatePair(r, distances, sym - 257, buf);
      }
    }
  }

  method InflatePair(r: BitReader, distances: HuffmanTree, k: nat, out: Bytes) returns (o: Outcome<Bytes>)
    requires r.Valid() && distances.Valid()
    modifies r
    ensures r.Valid() && r.Agrees(o, Pair(BitsOf(r.mem), old(r.P()), distances.Model(), k, out))
  {
    hide Walk, BitsOf, BitStream.ReadBits, CopyBack, LengthExtra, LengthBase, DistanceExtra, DistanceBase;
    if k >= LENGTH_SYMBOLS {
      return Fail(InvalidLengthSymbol);
    }
    var extra :- r.ReadBits(LengthExtra(k));
    var length := extra + LengthBase(k);
    var d :- DecodeSymbol(r, distances);
    if d >= DISTANCE_SYMBOLS {
      return Fail(InvalidDistanceSymbol);
    }
    var more :- r.ReadBits(DistanceExtra(d));
    var distance := more + DistanceBase(d);
    if distance > |out| {
      return Fail(DistanceTooLarge);
    }
    var buf := CopyLoop(out, distance, length);
    return Done(buf);
  }

  method ReadHeaderLengths(r: BitReader, hclen: nat) returns (o: Outcome<seq<nat>>)
    requires r.Valid() && hclen <= 19
    modifies r
    ensures r.Valid()
    ensures r.Agrees(o, ReadLengthLengths(BitsOf(r.mem), old(r.P()), 0, hclen, Repeat(0, 19)))
  {
    hide BitsOf, BitStream.ReadBits, OrderAt;
    var bl := Repeat(0, 19);
    for i := 0 to hclen
      invariant r.Valid() && |bl| == 19
      invariant ReadLengthLengths(BitsOf(r.mem), r.P(), i, hclen, bl)
             == ReadLengthLengths(BitsOf(r.mem), old(r.P()), 0, hclen, Repeat(0, 19))
    {
      var l :- r.ReadBits(3);
      bl := bl[OrderAt(i) := l];
    }
    return Done(bl);
  }

  // The loop over the code length symbols; a run at the end may overshoot the wanted number.
  method ReadCodeLengths(r: BitReader, tree: HuffmanTree, wanted: nat) returns (o: Outcome<seq<nat>>)
    requires r.Valid() && tree.Valid()
    modifies r
    ensures r.Valid()
    ensures r.Agrees(o, ReadLengths(BitsOf(r.mem), old(r.P()), tree.Model(), wanted, []))
  {
    hide Walk, BitsOf, BitStream.ReadBits, Repeat;
    ghost var bits, t := BitsOf(r.mem), tree.Model();
    var bl := [];
    while |bl| < wanted
      invariant r.Valid() && tree.Valid() && tree.Model() == t
      invariant ReadLengths(bits, r.P(), t, wanted, bl) == ReadLengths(bits, old(r.P()), t, wanted, [])
    {
      LengthProgress(bits, r.P(), t, bl);
      bl :- CodeLengthRound(r, tree, bl);
    }
    return Done(bl);
  }

  method CodeLengthRound(r: BitReader, tree: HuffmanTree, bl: seq<nat>) returns (o: Outcome<seq<nat>>)
    requires r.Valid() && tree.Valid()
    modifies r
    ensures r.Valid() && r.Agrees(o, LengthRound(BitsOf(r.mem), old(r.P()), tree.Model(), bl))
  {
    hide Walk, BitsOf, BitStream.ReadBits;
    var sym :- DecodeSymbol(r, tree);
    if sym <= 15 {
      return Done(bl + [sym]);
    } else if sym == 16 {
      if bl == [] {
        return Fail(NoPreviousLength);
      }
      var n :- r.ReadBits(2);
      return Done(bl + Repeat(bl[|bl| - 1], n + 3));
    } else if sym == 17 {
      var n :- r.ReadBits(3);
      return Done(bl + Repeat(0, n + 3));
    } else if sym == 18 {
      var n :- r.ReadBits(7);
      return Done(bl + Repeat(0, n + 11));
    } else {
      return Fail(InvalidSymbol);
    }
  }

  method ReadTreeHeader(r: BitReader) returns (o: Outcome<Header>)
    requires r.Valid()
    modifies r
    ensures r.Valid() && r.Agrees(o, ReadHeader(BitsOf(r.mem), old(r.P())))
  {
    hide BitsOf, BitStream.ReadBits, ReadLengthLengths;
    var hlit :- r.ReadBits(5);
    var hdist :- r.ReadBits(5);
    FourBits(BitsOf(r.mem), r.P());
    var hclen :- r.ReadBits(4);
    var cl :- ReadHeaderLengths(r, hclen + 4);
    return Done(Header(hlit + 257, hdist + 1, cl));
  }

  method DecodeTrees(r: BitReader) returns (o: Outcome<(HuffmanTree, HuffmanTree)>)
    requires r.Valid()
    modifies r
    ensures r.Valid()
    ensures match InflateSpec.DecodeTrees(BitsOf(r.mem), old(r.P()))
            case Ok(trees, q) =>
              && o.Done? && r.P() == q
              && o.value.0.Valid() && o.value.0.Model() == trees.literals
              && o.value.1.Valid() && o.value.1.Model() == trees.distances
            case Err(e) => o == Fail(e)
            case Panic => o == Abort
  {
    hide BitsOf, ReadHeader, ReadLengths, BuildTree;
    HeaderProgress(BitsOf(r.mem), r.P());
    var h :- ReadTreeHeader(r);
    var tree := BlListToTree(h.lengths, CODE_LENGTH_ALPHABET);
    var bl :- ReadCodeLengths(r, tree, h.hlit + h.hdist);
    var literals := BlListToTree(bl[..h.hlit], LITERAL_ALPHABET);
    var distances := BlListToTree(bl[h.hlit..], DISTANCE_ALPHABET);
    return Done((literals, distances));
  }

  // ----- Blocks

  lemma StoredNext(bits: seq<bool>, p: nat, i: nat)
    requires p % 8 == 0
    ensures ReadBytes(bits, p + 8 * i, 1)
         == if p + 8 * i + 8 <= |bits| then Ok(ByteOf(bits, p + 8 * i), p + 8 * i + 8) else Err(EndOfData)
    ensures p + 8 * i + 8 <= |bits| ==>
            StoredBytes(bits, p, i + 1) == StoredBytes(bits, p, i) + [ByteOf(bits, p + 8 * i)]
  {
    assert Align(p + 8 * i) == p + 8 * i;
    hide Align, Value;
  }

  method CopyStored(r: BitReader, len: nat, out: Bytes) returns (o: Outcome<Bytes>)
    requires r.Valid() && r.P() % 8 == 0
    modifies r
    ensures r.Valid() && r.Agrees(o, StoredData(BitsOf(r.mem), old(r.P()), len, out))
  {
    hide BitsOf, ByteOf, BitReader.Valid, BitReader.P, ReadBytes;
    ghost var bits, p := BitsOf(r.mem), r.P();
    var buf := out;
    for i := 0 to len
      invariant r.Valid() && r.P() == p + 8 * i <= |bits|
      invariant buf == out + StoredBytes(bits, p, i)
    {
      StoredNext(bits, p, i);
      var c :- r.ReadByte();
      buf := buf + [c];
    }
    return Done(buf);
  }

  method InflateStored(r: BitReader, out: Bytes) returns (o: Outcome<Bytes>)
    requires r.Valid()
    modifies r
    ensures r.Valid() && r.Agrees(o, StoredBlock(BitsOf(r.mem), old(r.P()), out))
  {
    hide BitsOf, Value, StoredData, BitReader.Valid, BitReader.P;
    var len :- r.ReadBytesLe(2);
    var nlen :- r.ReadBytesLe(2);
    o := CopyStored(r, len, out);
  }

  method InflateFixed(r: BitReader, out: Bytes) returns (o: Outcome<Bytes>)
    requires r.Valid()
    modifies r
    ensures r.Valid() && r.Agrees(o, FixedBlock(BitsOf(r.mem), old(r.P()), out))
  {
    hide BitsOf, BlockData, BuildUpTo, Repeat;
    BuiltWellFormed(FixedLengths(), LITERAL_ALPHABET, |FixedLengths()|);
    var bl := Repeat(8, 144) + Repeat(9, 112) + Repeat(7, 24) + Repeat(8, 8);
    var literals := BlListToTree(bl, LITERAL_ALPHABET);
    var distances := BlListToTree(Repeat(5, 30), DISTANCE_ALPHABET);
    o := InflateBlockData(r, literals, distances, out);
  }

  method InflateDynamic(r: BitReader, out: Bytes) returns (o: Outcome<Bytes>)
    requires r.Valid()
    modifies r
    ensures r.Valid() && r.Agrees(o, DynamicBlock(BitsOf(r.mem), old(r.P()), out))
  {
    hide BitsOf, BlockData, InflateSpec.DecodeTrees;
    TreesProgress(BitsOf(r.mem), r.P());
    var trees :- DecodeTrees(r);
    o := InflateBlockData(r, trees.0, trees.1, out);
  }

  method InflateBody(r: BitReader, out: Bytes) returns (o: Outcome<Bytes>)
    requires r.Valid()
    modifies r
    ensures r.Valid() && r.Agrees(o, BlockBody(BitsOf(r.mem), old(r.P()), out))
  {
    hide BitsOf, BitStream.ReadBits, StoredBlock, FixedBlock, DynamicBlock;
    var btype :- r.ReadBits(2);
    match btype {
      case 0 => o := InflateStored(r, out);
      case 1 => o := InflateFixed(r, out);
      case 2 => o := InflateDynamic(r, out);
      case _ => return Fail(InvalidBlockType);
    }
  }

  method Inflate(r: BitReader) returns (o: Outcome<Bytes>)
    requires r.Valid()
    modifies r
    ensures r.Valid() && r.Agrees(o, Blocks(BitsOf(r.mem), old(r.P()), []))
  {
    hide BitsOf, BlockBody;
    ghost var bits := BitsOf(r.mem);
    var bfinal, out := 0, [];
    while bfinal == 0
      invariant r.Valid()
      invariant bfinal == 0 ==> Blocks(bits, r.P(), out) == Blocks(bits, old(r.P()), [])
      invariant bfinal != 0 ==> Blocks(bits, old(r.P()), []) == Ok(out, r.P())
      decreases |bits| - r.P(), bfinal == 0
    {
      bfinal :- r.ReadBit();
      BodyProgress(bits, r.P(), out);
      out :- InflateBody(r, out);
    }
    return Done(out);
  }

  // The zlib container: header checks, the stream, and four checksum bytes that have to be there.
  method Deflate(input: Bytes) returns (o: Outcome<Bytes>)
    ensures match InflateSpec.Deflate(input)
            case Ok(out, _) => o == Done(out)
            case Err(e) => o == Fail(e)
            case Panic => o == Abort
  {
    hide BitsOf, ReadBytes, Blocks;
    var r := new BitReader(input);
    var cmf :- r.ReadByte();
    if cmf % 16 != 8 {
      return Fail(InvalidCompressionMethod);
    }
    if (cmf / 16) % 16 > 7 {
      return Fail(InvalidCompressionInfo);
    }
    var flg :- r.ReadByte();
    if (cmf * 256 + flg) % 31 != 0 {
      return Fail(HeaderChecksum);
    }
    if (flg / 32) % 2 != 0 {
      return Fail(PresetDictionary);
    }
    var out :- Inflate(r);
    var adler32 :- r.ReadBytesLe(4);
    return Done(out);
  }
}
