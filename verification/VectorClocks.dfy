/** Vector clocks as dictionaries from replica identifiers to counters.
    A missing entry reads as zero, but two clocks are equal only as
    dictionaries, so an explicit zero is visible to equality and to nothing
    else. */
module VectorClocks {

  type Clock = map<string, int>

  function At(c: Clock, r: string): int {
    if r in c then c[r] else 0
  }

  function Max(x: int, y: int): int {
    if x >= y then x else y
  }

  function Tick(c: Clock, r: string): Clock {
    c[r := At(c, r) + 1]
  }

  function Merge(a: Clock, b: Clock): Clock {
    map r | r in a.Keys + b.Keys :: Max(At(a, r), At(b, r))
  }

  /** The pointwise order over all replica identifiers. */
  ghost predicate Leq(a: Clock, b: Clock) {
    forall r :: At(a, r) <= At(b, r)
  }

  /** Strictly below in the pointwise order. */
  ghost predicate Before(a: Clock, b: Clock) {
    Leq(a, b) && !Leq(b, a)
  }

  ghost predicate Incomparable(a: Clock, b: Clock) {
    !Leq(a, b) && !Leq(b, a)
  }

  /** No entry is zero or negative: every entry was put there by a tick. */
  predicate Positive(c: Clock) {
    forall r | r in c :: c[r] > 0
  }

  /** The loop of `happens_before` decides the strict pointwise order. */
  method HappensBefore(a: Clock, b: Clock) returns (result: bool)
    ensures result <==> Before(a, b)
  {
    var keys := a.Keys + b.Keys;
    var strictlyLess := false;
    ghost var visited := {};
    while keys != {}
      invariant keys + visited == a.Keys + b.Keys
      invariant forall r | r in visited :: At(a, r) <= At(b, r)
      invariant strictlyLess <==> exists r :: r in visited && At(a, r) < At(b, r)
      decreases keys
    {
      var k :| k in keys;
      keys := keys - {k};
      visited := visited + {k};
      if At(a, k) > At(b, k) {
        return false;
      }
      if At(a, k) < At(b, k) {
        strictlyLess := true;
      }
    }
    assert visited == a.Keys + b.Keys;
    assert Leq(a, b);
    return strictlyLess;
  }

  /** The code's `concurrent_with`: neither before the other and not the same dictionary. */
  method ConcurrentWith(a: Clock, b: Clock) returns (result: bool)
    ensures result <==> !Before(a, b) && !Before(b, a) && a != b
    ensures Positive(a) && Positive(b) ==> (result <==> Incomparable(a, b))
  {
    var ab := HappensBefore(a, b);
    var ba := HappensBefore(b, a);
    result := !ab && !ba && a != b;
    if Positive(a) && Positive(b) && Leq(a, b) && Leq(b, a) {
      PositiveAntisymmetric(a, b);
    }
  }

  lemma LeqTransitive(a: Clock, b: Clock, c: Clock)
    requires Leq(a, b) && Leq(b, c)
    ensures Leq(a, c)
  {
  }

  /** `happens_before` is a strict partial order on all clocks. */
  lemma BeforeIsStrictOrder(a: Clock, b: Clock, c: Clock)
    ensures !Before(a, a)
    ensures Before(a, b) ==> !Before(b, a)
    ensures Before(a, b) && Before(b, c) ==> Before(a, c)
  {
  }

  /** `merge` is the least upper bound of the pointwise order. */
  lemma MergeIsJoin(a: Clock, b: Clock, c: Clock)
    ensures Leq(a, Merge(a, b)) && Leq(b, Merge(a, b))
    ensures Leq(a, c) && Leq(b, c) <==> Leq(Merge(a, b), c)
  {
  }

  lemma TickAdvances(c: Clock, r: string)
    ensures Before(c, Tick(c, r))
  {
  }

  /** Without explicit zeros the pointwise order is antisymmetric, so that
      dictionary equality and the order agree. */
  lemma PositiveAntisymmetric(a: Clock, b: Clock)
    requires Positive(a) && Positive(b) && Leq(a, b) && Leq(b, a)
    ensures a == b
  {
    forall r ensures r in a <==> r in b {
      assert At(a, r) == At(b, r);
    }
    forall r | r in a ensures a[r] == b[r] {
      assert At(a, r) == At(b, r);
    }
  }

  /** Pointwise equal clocks are the same dictionary exactly when they have the
      same keys; an explicit zero on one side alone makes them "concurrent". */
  lemma EqualDictionariesIffEqualKeys(a: Clock, b: Clock)
    requires Leq(a, b) && Leq(b, a)
    ensures a == b <==> a.Keys == b.Keys
  {
    if a.Keys == b.Keys {
      forall r | r in a ensures a[r] == b[r] {
        assert At(a, r) == At(b, r);
      }
    }
  }
}
