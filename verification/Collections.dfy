/** Optional values, and queues as sequences. */
module Collections {
  datatype Option<+T> = None | Some(value: T)

  function Repeat<T>(x: T, n: nat): (r: seq<T>)
    ensures |r| == n
  {
    seq(n, i => x)
  }

  predicate Distinct<T(==)>(q: seq<T>) {
    forall i, j | 0 <= i < j < |q| :: q[i] != q[j]
  }

  // The queue with everyone in `gone` left out.
  function Without<T(==)>(q: seq<T>, gone: set<T>): seq<T> {
    if q == [] then []
    else Without(q[..|q| - 1], gone) + if q[|q| - 1] in gone then [] else [q[|q| - 1]]
  }

  lemma DistinctTail<T>(q: seq<T>)
    requires Distinct(q)
    ensures q != [] ==> Distinct(q[1..]) && q[0] !in q[1..]
  {
  }

  lemma DistinctAppend<T>(q: seq<T>, id: T)
    requires Distinct(q) && id !in q
    ensures Distinct(q + [id])
  {
  }

  lemma {:induction false} WithoutMembers<T>(q: seq<T>, gone: set<T>)
    ensures forall x :: x in Without(q, gone) <==> x in q && x !in gone
  {
    if q != [] {
      WithoutMembers(q[..|q| - 1], gone);
      assert q == q[..|q| - 1] + [q[|q| - 1]];
    }
  }

  lemma {:induction false} WithoutDistinct<T>(q: seq<T>, gone: set<T>)
    requires Distinct(q)
    ensures Distinct(Without(q, gone))
  {
    if q != [] {
      WithoutDistinct(q[..|q| - 1], gone);
      WithoutMembers(q[..|q| - 1], gone);
    }
  }

  lemma {:induction false} WithoutNobody<T>(q: seq<T>, gone: set<T>)
    requires forall x | x in q :: x !in gone
    ensures Without(q, gone) == q
  {
    if q != [] {
      WithoutNobody(q[..|q| - 1], gone);
    }
  }

  lemma {:induction false} WithoutConcat<T>(p: seq<T>, q: seq<T>, gone: set<T>)
    ensures Without(p + q, gone) == Without(p, gone) + Without(q, gone)
  {
    if q == [] {
      assert p + q == p;
    } else {
      WithoutConcat(p, q[..|q| - 1], gone);
      assert (p + q)[..|p + q| - 1] == p + q[..|q| - 1];
    }
  }

  lemma {:induction false} WithoutTwice<T>(q: seq<T>, a: set<T>, b: set<T>)
    ensures Without(Without(q, a), b) == Without(q, a + b)
  {
    if q != [] {
      var init, last := q[..|q| - 1], q[|q| - 1];
      WithoutTwice(init, a, b);
      if last in a {
        assert Without(q, a) == Without(init, a);
      } else {
        assert (Without(init, a) + [last])[..|Without(init, a)|] == Without(init, a);
      }
    }
  }
}
