/** Levenshtein distance: the one-row dynamic program of ranker.rs and the true minimum over all edit scripts. */
module EditDistance {
  import opened Arith

  type Str = seq<char>

  function Max(a: nat, b: nat): nat { if a < b then b else a }
  function Init(s: Str): Str requires s != [] { s[..|s| - 1] }
  function Last(s: Str): char requires s != [] { s[|s| - 1] }

  // The recurrence of the program: equal last characters take the diagonal without looking at the neighbours.
  function Lev(a: Str, b: Str): nat
    decreases |a| + |b|
  {
    if a == [] then |b|
    else if b == [] then |a|
    else if Last(a) == Last(b) then Lev(Init(a), Init(b))
    else 1 + Min(Min(Lev(Init(a), Init(b)), Lev(Init(a), b)), Lev(a, Init(b)))
  }

  // ----- Edit scripts: edits at any position, one after the other

  datatype Edit = Insert(i: nat, c: char) | Delete(i: nat) | Substitute(i: nat, c: char) {
    predicate Fits(s: Str) {
      if Insert? then i <= |s| else i < |s|
    }

    function Apply(s: Str): Str
      requires Fits(s)
    {
      match this
      case Insert(i, c) => s[..i] + [c] + s[i..]
      case Delete(i) => s[..i] + s[i + 1..]
      case Substitute(i, c) => s[..i] + [c] + s[i + 1..]
    }
  }

  // The script turns a into b.
  predicate Turns(script: seq<Edit>, a: Str, b: Str) {
    if script == [] then a == b
    else script[0].Fits(a) && Turns(script[1..], script[0].Apply(a), b)
  }

  // ----- Steps of the table differ by at most one

  lemma {:induction false} NeighbourLeft(a: Str, b: Str)
    requires a != []
    ensures Lev(Init(a), b) <= Lev(a, b) + 1
    ensures Lev(a, b) <= Lev(Init(a), b) + 1
    decreases |a| + |b|
  {
    if b != [] {
      NeighbourRight(Init(a), b);
      NeighbourLeft(a, Init(b));
    }
  }

  lemma {:induction false} NeighbourRight(a: Str, b: Str)
    requires b != []
    ensures Lev(a, Init(b)) <= Lev(a, b) + 1
    ensures Lev(a, b) <= Lev(a, Init(b)) + 1
    decreases |a| + |b|
  {
    if a != [] {
      NeighbourLeft(a, Init(b));
      NeighbourRight(Init(a), b);
    }
  }

  lemma Unfold(a: Str, b: Str)
    requires a != [] && b != []
    ensures Lev(a, b) == if Last(a) == Last(b) then Lev(Init(a), Init(b))
                         else 1 + Min(Min(Lev(Init(a), Init(b)), Lev(Init(a), b)), Lev(a, Init(b)))
  {
  }

  // Taking the diagonal on a match loses nothing: the full recurrence over all three neighbours gives the same.
  lemma MatchIsOptimal(a: Str, b: Str)
    requires a != [] && b != []
    ensures Lev(a, b) == Min(Lev(Init(a), Init(b)) + (if Last(a) == Last(b) then 0 else 1),
                             1 + Min(Lev(Init(a), b), Lev(a, Init(b))))
  {
    hide Lev;
    Unfold(a, b);
    NeighbourRight(Init(a), b);
    NeighbourLeft(a, Init(b));
  }

  // ----- A metric

  lemma {:induction false} Symmetric(a: Str, b: Str)
    ensures Lev(a, b) == Lev(b, a)
    decreases |a| + |b|
  {
    if a != [] && b != [] {
      Symmetric(Init(a), Init(b));
      Symmetric(Init(a), b);
      Symmetric(a, Init(b));
    }
  }

  lemma {:induction false} ZeroIffEqual(a: Str, b: Str)
    ensures Lev(a, b) == 0 <==> a == b
    decreases |a| + |b|
  {
    if a != [] && b != [] && Last(a) == Last(b) {
      ZeroIffEqual(Init(a), Init(b));
      assert a == Init(a) + [Last(a)] && b == Init(b) + [Last(b)];
    }
  }

  lemma {:induction false} LengthBounds(a: Str, b: Str)
    ensures Lev(a, b) <= Max(|a|, |b|)
    ensures |a| - |b| <= Lev(a, b) && |b| - |a| <= Lev(a, b)
    decreases |a| + |b|
  {
    if a != [] && b != [] {
      LengthBounds(Init(a), Init(b));
      LengthBounds(Init(a), b);
      LengthBounds(a, Init(b));
    }
  }

  lemma {:induction false} Triangle(a: Str, b: Str, c: Str)
    ensures Lev(a, c) <= Lev(a, b) + Lev(b, c)
    decreases |a| + |b| + |c|
  {
    hide Lev, Last;
    if a == [] || b == [] || c == [] {
      LengthBounds(a, b);
      LengthBounds(b, c);
      LengthBounds(a, c);
    } else {
      MatchIsOptimal(a, b);
      MatchIsOptimal(b, c);
      MatchIsOptimal(a, c);
      Triangle(Init(a), b, c);
      Triangle(a, b, Init(c));
      Triangle(Init(a), Init(b), Init(c));
      Triangle(Init(a), Init(b), c);
      Triangle(a, Init(b), Init(c));
      Triangle(a, Init(b), c);
    }
  }

  // ----- The distance is the least length of a script

  lemma {:induction false} CommonTail(a: Str, b: Str, t: Str)
    ensures Lev(a + t, b + t) == Lev(a, b)
    decreases |t|
  {
    if t == [] {
      assert a + t == a && b + t == b;
    } else {
      assert Init(a + t) == a + Init(t) && Init(b + t) == b + Init(t);
      CommonTail(a, b, Init(t));
    }
  }

  lemma OneEdit(e: Edit, s: Str)
    requires e.Fits(s)
    ensures Lev(s, e.Apply(s)) <= 1
  {
    var head, tail := s[..e.i], if e.Insert? then s[e.i..] else s[e.i + 1..];
    ZeroIffEqual(head, head);
    var before := if e.Insert? then head else head + [s[e.i]];
    var after := if e.Delete? then head else head + [e.c];
    assert s == before + tail && e.Apply(s) == after + tail;
    CommonTail(before, after, tail);
    if e.Insert? {
      assert Init(after) == head;
      NeighbourRight(head, after);
    } else if e.Delete? {
      assert Init(before) == head;
      NeighbourLeft(before, head);
    } else {
      assert Init(before) == head && Init(after) == head;
    }
  }

  // No script is shorter than the distance.
  lemma {:induction false} NoShorterScript(script: seq<Edit>, a: Str, b: Str)
    requires Turns(script, a, b)
    ensures Lev(a, b) <= |script|
    decreases |script|
  {
    if script == [] {
      ZeroIffEqual(a, b);
    } else {
      var a' := script[0].Apply(a);
      OneEdit(script[0], a);
      NoShorterScript(script[1..], a', b);
      Triangle(a, a', b);
    }
  }

  lemma ApplyWithTail(e: Edit, a: Str, t: Str)
    requires e.Fits(a)
    ensures e.Fits(a + t) && e.Apply(a + t) == e.Apply(a) + t
  {
    var n := e.i;
    assert (a + t)[..n] == a[..n];
    if e.Insert? {
      assert (a + t)[n..] == a[n..] + t;
    } else {
      assert (a + t)[n + 1..] == a[n + 1..] + t;
    }
  }

  lemma {:induction false} TurnsWithTail(script: seq<Edit>, a: Str, b: Str, t: Str)
    requires Turns(script, a, b)
    ensures Turns(script, a + t, b + t)
    decreases |script|
  {
    hide Edit.Apply, Edit.Fits;
    if script != [] {
      ApplyWithTail(script[0], a, t);
      TurnsWithTail(script[1..], script[0].Apply(a), b, t);
    }
  }

  lemma {:induction false} TurnsThen(script: seq<Edit>, a: Str, b: Str, e: Edit)
    requires Turns(script, a, b) && e.Fits(b)
    ensures Turns(script + [e], a, e.Apply(b))
    decreases |script|
  {
    if script == [] {
      assert ([e])[1..] == [];
      assert script + [e] == [e];
    } else {
      TurnsThen(script[1..], script[0].Apply(a), b, e);
      assert (script + [e])[1..] == script[1..] + [e];
    }
  }

  lemma ThenInsert(script: seq<Edit>, a: Str, b: Str)
    requires b != [] && Turns(script, a, Init(b))
    ensures Turns(script + [Insert(|b| - 1, Last(b))], a, b)
  {
    var e := Insert(|b| - 1, Last(b));
    assert e.Apply(Init(b)) == b;
    TurnsThen(script, a, Init(b), e);
  }

  lemma ThenSubstitute(script: seq<Edit>, a: Str, b: Str)
    requires a != [] && b != [] && Turns(script, Init(a), Init(b))
    ensures Turns(script + [Substitute(|b| - 1, Last(b))], a, b)
  {
    var e, c := Substitute(|b| - 1, Last(b)), [Last(a)];
    assert a == Init(a) + c && e.Apply(Init(b) + c) == b;
    TurnsWithTail(script, Init(a), Init(b), c);
    TurnsThen(script, a, Init(b) + c, e);
  }

  lemma DeleteFirst(script: seq<Edit>, a: Str, b: Str)
    requires a != [] && Turns(script, Init(a), b)
    ensures Turns([Delete(|a| - 1)] + script, a, b)
  {
    assert Delete(|a| - 1).Apply(a) == Init(a);
    assert ([Delete(|a| - 1)] + script)[1..] == script;
  }

  lemma KeepLast(script: seq<Edit>, a: Str, b: Str)
    requires a != [] && b != [] && Last(a) == Last(b) && Turns(script, Init(a), Init(b))
    ensures Turns(script, a, b)
  {
    hide Turns;
    TurnsWithTail(script, Init(a), Init(b), [Last(a)]);
    assert a == Init(a) + [Last(a)] && b == Init(b) + [Last(b)];
  }

  // Some script has exactly the length of the distance.
  lemma {:induction false} ShortestScript(a: Str, b: Str) returns (script: seq<Edit>)
    ensures Turns(script, a, b) && |script| == Lev(a, b)
    decreases |a| + |b|
  {
    if a == [] && b == [] {
      return [];
    }
    hide Turns;
    if b == [] || (a != [] && Last(a) != Last(b) && Lev(a, b) == 1 + Lev(Init(a), b)) {
      var rest := ShortestScript(Init(a), b);
      DeleteFirst(rest, a, b);
      return [Delete(|a| - 1)] + rest;
    } else if a == [] || (Last(a) != Last(b) && Lev(a, b) == 1 + Lev(a, Init(b))) {
      var rest := ShortestScript(a, Init(b));
      ThenInsert(rest, a, b);
      return rest + [Insert(|b| - 1, Last(b))];
    }
    var rest := ShortestScript(Init(a), Init(b));
    if Last(a) == Last(b) {
      KeepLast(rest, a, b);
      return rest;
    }
    ThenSubstitute(rest, a, b);
    return rest + [Substitute(|b| - 1, Last(b))];
  }

  // Lev(a, b) is the minimum number of insertions, deletions and substitutions that turn a into b.
  ghost predicate IsEditDistance(d: nat, a: Str, b: Str) {
    && (exists script :: Turns(script, a, b) && |script| == d)
    && (forall script :: Turns(script, a, b) ==> d <= |script|)
  }

  lemma LevIsEditDistance(a: Str, b: Str)
    ensures IsEditDistance(Lev(a, b), a, b)
  {
    var script := ShortestScript(a, b);
    forall other | Turns(other, a, b) ensures Lev(a, b) <= |other| {
      NoShorterScript(other, a, b);
    }
  }

  // ----- The program: one row, overwritten in place

  method Levenshtein(a: Str, b: Str) returns (d: nat)
    ensures d == Lev(a, b)
    ensures IsEditDistance(d, a, b)
  {
    hide Lev, IsEditDistance;
    var m, n := |a|, |b|;
    var dp := new nat[n + 1](j => j);
    FirstRow(b);
    assert a[..0] == [];
    for i := 1 to m + 1
      invariant fresh(dp) && dp.Length == n + 1
      invariant forall j | 0 <= j <= n :: dp[j] == Lev(a[..i - 1], b[..j])
    {
      assert b[..0] == [];
      FirstColumn(a[..i]);
      var prev := dp[0];
      dp[0] := i;
      for j := 1 to n + 1
        invariant prev == Lev(a[..i - 1], b[..j - 1])
        invariant forall k | 0 <= k < j :: dp[k] == Lev(a[..i], b[..k])
        invariant forall k | j <= k <= n :: dp[k] == Lev(a[..i - 1], b[..k])
      {
        var current := dp[j];
        assert Init(a[..i]) == a[..i - 1] && Init(b[..j]) == b[..j - 1];
        Unfold(a[..i], b[..j]);
        dp[j] := if a[i - 1] == b[j - 1] then prev else 1 + Min(Min(prev, dp[j]), dp[j - 1]);
        prev := current;
      }
    }
    assert a[..m] == a && b[..n] == b;
    LevIsEditDistance(a, b);
    return dp[n];
  }

  lemma FirstRow(b: Str)
    ensures forall j | 0 <= j <= |b| :: Lev([], b[..j]) == j
  {
  }

  lemma FirstColumn(a: Str)
    ensures Lev(a, []) == |a|
  {
  }
}
