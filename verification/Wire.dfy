/** How the protocol lays values out in bytes, and what a reading cursor makes of any bytes at all. */
module Wire {
  import Arith
  import opened BitStream

  const WIDTH32: nat := 4294967296

  function Pow256(n: nat): (p: nat)
    ensures p > 0
  {
    if n == 0 then 1 else 256 * Pow256(n - 1)
  }

  // The n low bytes of v, least significant byte first.
  function Le(v: nat, n: nat): (bytes: Bytes)
    ensures |bytes| == n
  {
    if n == 0 then [] else [v % 256] + Le(v / 256, n - 1)
  }

  function FromLe(bytes: Bytes): nat {
    if bytes == [] then 0 else bytes[0] + 256 * FromLe(bytes[1..])
  }

  lemma {:induction false} FromLeOfLe(v: nat, n: nat)
    ensures FromLe(Le(v, n)) == v % Pow256(n)
  {
    if n != 0 {
      FromLeOfLe(v / 256, n - 1);
      assert Le(v, n)[1..] == Le(v / 256, n - 1);
      DivMod(v, Pow256(n - 1));
    }
  }

  // The least significant byte comes first: byte i has the digit of 256^i.
  lemma {:induction false} LeDigits(v: nat, n: nat, i: nat)
    requires i < n
    ensures Le(v, n)[i] == v / Pow256(i) % 256
    decreases n
  {
    if i > 0 {
      LeDigits(v / 256, n - 1, i - 1);
      DivTwice(v, Pow256(i - 1));
    }
  }

  lemma DivTwice(v: nat, p: nat)
    requires p > 0
    ensures v / 256 / p == v / (256 * p)
  {
    var r := v % 256 + 256 * (v / 256 % p);
    DivMod(v, p);
    assert v == (v / 256 / p) * (256 * p) + r by {
      assert v / 256 == (v / 256 / p) * p + v / 256 % p;
      assert 256 * ((v / 256 / p) * p) == (v / 256 / p) * (256 * p);
    }
    Arith.DivUnique(v, 256 * p, v / 256 / p, r);
  }

  lemma DivMod(v: nat, p: nat)
    requires p > 0
    ensures v % 256 + 256 * ((v / 256) % p) == v % (256 * p)
  {
    var q := (v / 256) / p;
    var r := v % 256 + 256 * ((v / 256) % p);
    assert v / 256 == q * p + (v / 256) % p;
    assert v == q * (256 * p) + r;
    assert (v / 256) % p <= p - 1;
    Arith.DivUnique(v, 256 * p, q, r);
  }

  lemma {:induction false} LeOfFromLe(bytes: Bytes)
    ensures Le(FromLe(bytes), |bytes|) == bytes
    ensures FromLe(bytes) < Pow256(|bytes|)
  {
    if bytes != [] {
      LeOfFromLe(bytes[1..]);
      assert bytes == [bytes[0]] + bytes[1..];
    }
  }

  lemma LeBack(v: nat, n: nat)
    requires v < Pow256(n)
    ensures FromLe(Le(v, n)) == v
  {
    FromLeOfLe(v, n);
  }

  lemma Widths()
    ensures Pow256(1) == 256 && Pow256(4) == WIDTH32 && Pow256(8) == WIDTH32 * WIDTH32
  {
    assert Pow256(2) == 65536 && Pow256(3) == 16777216 && Pow256(4) == WIDTH32;
    assert Pow256(5) == 256 * WIDTH32 && Pow256(6) == 65536 * WIDTH32 && Pow256(7) == 16777216 * WIDTH32;
  }

  // ----- Reading: every read gives a value and the next position, whatever the bytes are

  // An n-byte number; 0 and no movement where fewer bytes are left.
  function ReadInt(data: Bytes, p: nat, n: nat): (nat, nat) {
    if p + n > |data| then (0, p) else (FromLe(data[p..p + n]), p + n)
  }

  // A counted string. If the count claims more than is left, the rest of the data is skipped.
  function ReadString(data: Bytes, p: nat): (Bytes, nat) {
    if p + 4 > |data| then ([], p)
    else
      var size := FromLe(data[p..p + 4]);
      if p + 4 + size > |data| then ([], |data|) else (data[p + 4..p + 4 + size], p + 4 + size)
  }

  function ReadBool(data: Bytes, p: nat): (bool, nat) {
    if p >= |data| then (false, p) else (data[p] == 1, p + 1)
  }

  // No read leaves the data, and a number read fits its width.
  lemma ReadsInside(data: Bytes, p: nat, n: nat)
    requires p <= |data|
    ensures p <= ReadInt(data, p, n).1 <= |data| && ReadInt(data, p, n).0 < Pow256(n)
    ensures p <= ReadString(data, p).1 <= |data|
    ensures p <= ReadBool(data, p).1 <= |data|
  {
    if p + n <= |data| {
      LeOfFromLe(data[p..p + n]);
    }
  }

  // ----- Writing, and reading back

  // A byte string behind its length, which is counted modulo 2^32: a string on the wire, or a message as sent.
  function Counted(text: Bytes): Bytes {
    Le(|text| % WIDTH32, 4) + text
  }

  function BoolBytes(value: bool): Bytes {
    [if value then 1 else 0]
  }

  lemma IntBack(data: Bytes, p: nat, v: nat, n: nat)
    requires At(data, p, Le(v, n)) && v < Pow256(n)
    ensures ReadInt(data, p, n) == (v, p + n)
  {
    LeBack(v, n);
  }

  lemma BoolBack(data: Bytes, p: nat, value: bool)
    requires At(data, p, BoolBytes(value))
    ensures ReadBool(data, p) == (value, p + 1)
  {
    assert data[p] == data[p..p + 1][0];
  }

  // Reading a written string, wherever it stands: exactly the strings of less than 2^32 bytes come back.
  lemma StringBackIff(data: Bytes, p: nat, text: Bytes)
    requires At(data, p, Counted(text))
    ensures ReadString(data, p).0 == text <==> |text| < WIDTH32
    ensures |text| < WIDTH32 ==> ReadString(data, p).1 == p + |Counted(text)|
  {
    var count := |text| % WIDTH32;
    AtSplit(data, p, Le(count, 4), text);
    Widths();
    LeBack(count, 4);
    hide Le, FromLe, Pow256;
    assert data[p + 4..p + 4 + count] == data[p + 4..p + 4 + |text|][..count];
  }

  // ----- What was read stands there, and what does not is read as nothing

  // A number is read exactly where its bytes stand; where fewer are left, 0 is read and the cursor stays.
  lemma IntReadIff(data: Bytes, p: nat, n: nat, v: nat)
    requires n > 0
    ensures ReadInt(data, p, n) == (v, p + n) <==> v < Pow256(n) && At(data, p, Le(v, n))
    ensures p + n > |data| ==> ReadInt(data, p, n) == (0, p)
  {
    if p + n <= |data| {
      LeOfFromLe(data[p..p + n]);
    }
    if v < Pow256(n) && At(data, p, Le(v, n)) {
      IntBack(data, p, v, n);
    }
  }

  // A count that the rest of the data cannot meet makes the string empty and skips the rest; without a whole count
  // nothing is skipped.
  lemma StringRead(data: Bytes, p: nat, count: nat)
    requires count < WIDTH32
    ensures p + 4 > |data| ==> ReadString(data, p) == ([], p)
    ensures At(data, p, Le(count, 4)) && p + 4 + count > |data| ==> ReadString(data, p) == ([], |data|)
    ensures At(data, p, Le(count, 4)) && p + 4 + count <= |data| ==>
              ReadString(data, p) == (data[p + 4..p + 4 + count], p + 4 + count)
  {
    Widths();
    LeBack(count, 4);
    hide Le, FromLe, Pow256;
  }

  // A flag is true exactly as the byte 1; it is written as 1 or 0, and every other byte is read as false.
  lemma BoolReadIff(data: Bytes, p: nat, value: bool)
    ensures ReadBool(data, p).0 <==> p < |data| && data[p] == 1
    ensures ReadBool(data, p).1 == if p < |data| then p + 1 else p
    ensures At(data, p, BoolBytes(value)) <==> p < |data| && data[p] == if value then 1 else 0
  {
    if p < |data| {
      assert data[p..p + 1] == [data[p]];
    }
  }
}
