/** Facts about finite sets: cardinality of subsets, and Python's `max` over a
    non-empty collection of integers. */
module Sets {
  /** Some element of a non-empty set. */
  lemma Pick<T>(s: set<T>) returns (y: T)
    requires s != {}
    ensures y in s
  {
    y :| y in s;
  }

  /** A subset has no more elements than its superset. */
  lemma {:induction false} SubsetCard<T>(a: set<T>, b: set<T>)
    requires a <= b
    ensures |a| <= |b|
    decreases |a|
  {
    if a != {} {
      var x := Pick(a);
      SubsetCard(a - {x}, b - {x});
    }
  }

  predicate IsMaxOf(r: int, s: set<int>) {
    r in s && forall x :: x in s ==> x <= r
  }

  lemma {:induction false} MaxOfExists(s: set<int>)
    requires s != {}
    ensures exists r :: IsMaxOf(r, s)
    decreases |s|
  {
    var y := Pick(s);
    if s != {y} {
      var t := s - {y};
      MaxOfExists(t);
      var m :| IsMaxOf(m, t);
      var r := if m <= y then y else m;
      forall x | x in s ensures x <= r {
        if x != y {
          assert x in t;
        }
      }
      assert IsMaxOf(r, s);
    } else {
      assert IsMaxOf(y, s);
    }
  }

  /** Python's `max` over a non-empty collection of integers. */
  function MaxOf(s: set<int>): (r: int)
    requires s != {}
    ensures r in s
    ensures forall x :: x in s ==> x <= r
  {
    MaxOfExists(s);
    var r :| IsMaxOf(r, s);
    r
  }
}
