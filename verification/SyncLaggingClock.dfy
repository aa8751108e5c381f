/** Three replicas, one with a wall clock that lags: a value that was seen and
    deleted comes back through a merge, so writers' clocks do have to run ahead. */
module SyncLaggingClock {
  import opened VectorClocks
  import opened OfflineSync

  const Put10 := Record("k", Json("v"), "A", 10, map["A" := 1], 1, false)
  const Deleted5 := Record("k", Null, "B", 5, map["A" := 1, "B" := 1], 2, true)
  const Other7 := Record("k", Json("w"), "C", 7, map["C" := 1], 1, false)
  const Carried := Record("k", Json("v"), "A", 10, map["A" := 2, "C" := 1], 2, false)

  function Fresh(id: string): Replica {
    Replica(id, VectorClockPolicy, map[], [], [])
  }

  lemma Clashes()
    ensures Clash(Put10, Other7) && Merged("A", Put10, Other7) == Carried
    ensures Clash(Deleted5, Carried) && SamePayload(Merged("B", Deleted5, Carried), Put10)
  {
    assert At(Put10.vector, "A") > At(Other7.vector, "A") && At(Other7.vector, "C") > At(Put10.vector, "C");
    assert Merge(Put10.vector, Other7.vector) == map["A" := 1, "C" := 1];
    assert At(Deleted5.vector, "B") > At(Carried.vector, "B") && At(Carried.vector, "C") > At(Deleted5.vector, "C");
  }

  /** A puts at 10. B receives that and deletes it at 5 on its own clock. A
      merges C's independent put at 7, keeping its own value. B receives the
      merge: the deletion was seen and yet the deleted value is back. */
  lemma DeletedValueReturns()
    ensures var a := AfterWrite(Fresh("A"), "k", Json("v"), 10, false);
            var b := AfterWrite(AfterApply(Fresh("B"), a.store["k"]), "k", Null, 5, true);
            var c := AfterWrite(Fresh("C"), "k", Json("w"), 7, false);
            var carried := AfterApply(a, c.store["k"]).store["k"];
            var shown := AfterApply(b, carried).store["k"];
            && b.store["k"].tombstone && Before(a.store["k"].vector, b.store["k"].vector)
            && Before(b.store["k"].vector, shown.vector)
            && SamePayload(shown, a.store["k"]) && !shown.tombstone
  {
    var a := AfterWrite(Fresh("A"), "k", Json("v"), 10, false);
    var b := AfterWrite(AfterApply(Fresh("B"), a.store["k"]), "k", Null, 5, true);
    assert a.store["k"] == Put10 && b.store["k"] == Deleted5;
    Clashes();
    var joined := Merge(Deleted5.vector, Carried.vector);
    MergeIsJoin(Deleted5.vector, Carried.vector, joined);
    TickAdvances(joined, "B");
    BeforeIsStrictOrder(Deleted5.vector, joined, Tick(joined, "B"));
    LeqTransitive(Deleted5.vector, joined, Tick(joined, "B"));
    assert At(Tick(joined, "B"), "B") > At(Deleted5.vector, "B");
    TickAdvances(Put10.vector, "B");
  }
}
