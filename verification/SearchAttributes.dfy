/** The attributes of a file on the wire: which code carries what. */
module SearchAttributes {
  import opened BitStream
  import opened Collections
  import opened SearchSpec

  // The pairs of code and value that a record is written as; any value but 0 says yes.
  function Pairs(a: FileAttributes, yes: nat): seq<(nat, nat)> {
    (if a.bitrate.Some? then [(0, a.bitrate.value)] else [])
    + (if a.duration.Some? then [(1, a.duration.value)] else [])
    + (if a.vbr.Some? then [(2, if a.vbr.value then yes else 0)] else [])
    + (if a.sampleRate.Some? then [(4, a.sampleRate.value)] else [])
    + (if a.bitDepth.Some? then [(5, a.bitDepth.value)] else [])
  }

  // The list has exactly the pairs of the record, in any order and any number of times, and pairs with other codes.
  ghost predicate Carries(attribs: seq<(nat, nat)>, a: FileAttributes, yes: nat) {
    && (forall x | x in Pairs(a, yes) :: x in attribs)
    && (forall x | x in attribs && x.0 in {0, 1, 2, 4, 5} :: x in Pairs(a, yes))
  }

  // If all pairs with a code say the same, that is the value found; if there is none, none is found.
  lemma {:induction false} OnlyValue(attribs: seq<(nat, nat)>, before: map<nat, nat>, key: nat, value: nat)
    requires forall x | x in attribs && x.0 == key :: x.1 == value
    ensures Get(Lasting(attribs, before), key)
         == if exists x | x in attribs :: x.0 == key then Some(value) else Get(before, key)
    decreases |attribs|
  {
    if attribs != [] {
      var rest, before' := attribs[1..], before[attribs[0].0 := attribs[0].1];
      assert attribs[0] in attribs;
      assert forall x | x in rest :: x in attribs;
      OnlyValue(rest, before', key, value);
      if x :| x in attribs && x.0 == key {
        assert x == attribs[0] || x in rest;
      }
    }
  }

  // Of several pairs with a code the last one counts.
  lemma {:induction false} LastWins(attribs: seq<(nat, nat)>, before: map<nat, nat>, i: nat)
    requires i < |attribs| && forall j | i < j < |attribs| :: attribs[j].0 != attribs[i].0
    ensures Get(Lasting(attribs, before), attribs[i].0) == Some(attribs[i].1)
    decreases |attribs|
  {
    var rest, before' := attribs[1..], before[attribs[0].0 := attribs[0].1];
    if i == 0 {
      forall x | x in rest ensures x.0 != attribs[0].0 {
        var j :| 0 <= j < |rest| && rest[j] == x;
        assert attribs[j + 1] == x;
      }
      OnlyValue(rest, before', attribs[0].0, 0);
    } else {
      assert forall j | i - 1 < j < |rest| :: rest[j] == attribs[j + 1];
      LastWins(rest, before', i - 1);
    }
  }

  // What the record has to say under a code.
  function Says(a: FileAttributes, yes: nat, key: nat): Option<nat> {
    match key
    case 0 => a.bitrate
    case 1 => a.duration
    case 2 => if a.vbr.Some? then Some(if a.vbr.value then yes else 0) else None
    case 4 => a.sampleRate
    case 5 => a.bitDepth
    case _ => None
  }

  lemma PairsSay(a: FileAttributes, yes: nat, x: (nat, nat))
    ensures x in Pairs(a, yes) <==> Says(a, yes, x.0) == Some(x.1)
  {
  }

  lemma CodeFound(attribs: seq<(nat, nat)>, a: FileAttributes, yes: nat, key: nat)
    requires Carries(attribs, a, yes) && key in {0, 1, 2, 4, 5}
    ensures Get(Lasting(attribs, map[]), key) == Says(a, yes, key)
  {
    hide Pairs, Lasting, Says;
    var value := Says(a, yes, key);
    forall x | x in attribs && x.0 == key ensures value == Some(x.1) {
      PairsSay(a, yes, x);
    }
    OnlyValue(attribs, map[], key, if value.Some? then value.value else 0);
    if value.Some? {
      PairsSay(a, yes, (key, value.value));
      assert (key, value.value) in attribs;
    }
  }

  // Reading what a record is written as gives the record again.
  lemma AttributesBack(attribs: seq<(nat, nat)>, a: FileAttributes, yes: nat)
    requires Carries(attribs, a, yes) && yes != 0
    ensures FromMap(Lasting(attribs, map[])) == a
  {
    hide Carries, Lasting, Get;
    CodeFound(attribs, a, yes, 0);
    CodeFound(attribs, a, yes, 1);
    CodeFound(attribs, a, yes, 2);
    CodeFound(attribs, a, yes, 4);
    CodeFound(attribs, a, yes, 5);
  }

  // The record written in the order of the codes is one way to carry it.
  lemma PairsCarry(a: FileAttributes, yes: nat)
    ensures Carries(Pairs(a, yes), a, yes)
  {
  }

  // A file of a written response comes back with its user, its path in the client's form, its size and its attributes.
  lemma FileComesBack(data: Bytes, p: nat, username: Bytes, token: nat, files: seq<Listed>, slots: byte, speed: nat,
                      i: nat, a: FileAttributes, yes: nat)
    requires ValidResult(username, token, files, speed) && i < |files|
    requires At(data, p, ResultBytes(username, token, files, slots, speed))
    requires Carries(files[i].attribs, a, yes) && yes != 0
    ensures var r := ReadResult(data, p).0;
            && |r.files| == |files|
            && r.files[i] == File(username, FromWire(files[i].name), files[i].size, a)
  {
    ResultBack(data, p, username, token, files, slots, speed);
    AttributesBack(files[i].attribs, a, yes);
    hide ReadResult, ResultBytes, Carries, ValidResult, FromWire, FromMap;
  }
}
