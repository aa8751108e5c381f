/** What one engine guarantees under the vector-clock policy, whatever record a
    peer hands it. */
module SyncReplica {
  import opened VectorClocks
  import opened OfflineSync

  /** A stored clock only grows, and covers every record ever offered. */
  lemma ApplyCoversBoth(e: Replica, remote: Record)
    requires e.policy.VectorClockPolicy?
    ensures remote.key in AfterApply(e, remote).store
    ensures Leq(remote.vector, AfterApply(e, remote).store[remote.key].vector)
    ensures forall key | key in e.store ::
              key in AfterApply(e, remote).store && Leq(e.store[key].vector, AfterApply(e, remote).store[key].vector)
  {
    var after := AfterApply(e, remote).store[remote.key];
    if remote.key in e.store {
      var local := e.store[remote.key];
      if Clash(local, remote) {
        var joined := Merge(local.vector, remote.vector);
        MergeIsJoin(local.vector, remote.vector, joined);
        TickAdvances(joined, e.id);
        LeqTransitive(local.vector, joined, after.vector);
        LeqTransitive(remote.vector, joined, after.vector);
      }
    }
  }

  /** A record already covered by the store is absorbed without a trace, except
      in one case: the clocks are pointwise equal but differ in an explicit zero
      entry, and then the engine logs a conflict and mints a new clock. */
  lemma RedeliveryIsNoOpIff(e: Replica, remote: Record)
    requires e.policy.VectorClockPolicy? && remote.key in e.store
    requires Leq(remote.vector, e.store[remote.key].vector)
    ensures AfterApply(e, remote) == e <==>
            remote.vector.Keys == e.store[remote.key].vector.Keys || !Leq(e.store[remote.key].vector, remote.vector)
  {
  }

  /** Two spellings of the zero clock: the engine sees a conflict between a
      record and itself. */
  lemma ExplicitZeroBreaksReplay()
    ensures var x := Record("k", Null, "A", 1, map["A" := 1, "B" := 0], 1, false);
            var local := x.(vector := map["A" := 1]);
            var e := Replica("A", VectorClockPolicy, map["k" := local], [], []);
            Leq(x.vector, local.vector) && AfterApply(e, x) != e
  {
    var x := Record("k", Null, "A", 1, map["A" := 1, "B" := 0], 1, false);
    var local := x.(vector := map["A" := 1]);
    var e := Replica("A", VectorClockPolicy, map["k" := local], [], []);
    forall r ensures At(x.vector, r) == At(local.vector, r) {
    }
    assert "B" in x.vector.Keys && "B" !in local.vector.Keys;
    RedeliveryIsNoOpIff(e, x);
  }

  /** With ticked clocks only, a covered record changes nothing at all. */
  lemma ReplayIsSafe(e: Replica, remote: Record)
    requires e.policy.VectorClockPolicy? && remote.key in e.store
    requires Positive(remote.vector) && Positive(e.store[remote.key].vector)
    requires Leq(remote.vector, e.store[remote.key].vector)
    ensures AfterApply(e, remote) == e
  {
    if Leq(e.store[remote.key].vector, remote.vector) {
      PositiveAntisymmetric(remote.vector, e.store[remote.key].vector);
    }
    RedeliveryIsNoOpIff(e, remote);
  }

  /** With ticked clocks only, a conflict is logged exactly when neither version
      has seen the other, and then the stored clock is new to both. */
  lemma ConflictLoggedIffConcurrent(e: Replica, remote: Record)
    requires e.policy.VectorClockPolicy? && remote.key in e.store
    requires Positive(remote.vector) && Positive(e.store[remote.key].vector)
    ensures var after := AfterApply(e, remote);
            var local := e.store[remote.key];
            (|after.conflicts| == |e.conflicts| + 1 <==> Incomparable(local.vector, remote.vector)) &&
            (after.conflicts == e.conflicts <==> !Incomparable(local.vector, remote.vector)) &&
            (Incomparable(local.vector, remote.vector) ==>
               Before(local.vector, after.store[remote.key].vector) && Before(remote.vector, after.store[remote.key].vector))
  {
    var local := e.store[remote.key];
    var after := AfterApply(e, remote);
    if Leq(local.vector, remote.vector) && Leq(remote.vector, local.vector) {
      PositiveAntisymmetric(local.vector, remote.vector);
    }
    if Incomparable(local.vector, remote.vector) {
      ApplyCoversBoth(e, remote);
      var merged := after.store[remote.key].vector;
      if Leq(merged, local.vector) {
        LeqTransitive(remote.vector, merged, local.vector);
      }
      if Leq(merged, remote.vector) {
        LeqTransitive(local.vector, merged, remote.vector);
      }
    }
  }
}
