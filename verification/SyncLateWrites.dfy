/** Whether a write replaces a value for good: exactly if its wall clock is not
    behind the record it replaces. */
module SyncLateWrites {
  import opened VectorClocks
  import opened OfflineSync
  import opened SyncSystem
  import opened SyncCausality
  import opened SyncStamps
  import opened SyncPayload

  /** However the system goes on, with writers' clocks ahead and stamps unused, no
      record that has seen the write n shows what x shows. */
  ghost predicate StaysReplaced(t: System, x: Record, n: Record) {
    forall later: seq<Action>, y |
      ClocksAhead(t, later) && StampsUnused(t, later) &&
      y in Run(t, later).born && n in WritesSeen(Run(t, later).born, y) ::
      !SamePayload(x, y)
  }

  /** The record a write makes. */
  function New(s: System, a: Action): Record
    requires a.r in s.replicas && IsWrite(a)
  {
    Written(s.replicas[a.r], a.key, if a.Put? then a.value else Null, a.now, a.Delete?)
  }

  // ---- a write that is not behind ---------------------------------------------

  lemma StaysReplacedIfLater(s: System, a: Action)
    requires Inv(s) && StampsFollowClocks(s.born) && WritesAreNewest(s.born)
    requires Enabled(s, a) && IsWrite(a) && UnusedStamp(s, a) && a.key in s.replicas[a.r].store
    requires WrittenLater(s.replicas[a.r], a)
    ensures StaysReplaced(Step(s, a), s.replicas[a.r].store[a.key], New(s, a))
  {
    var x, n, t := s.replicas[a.r].store[a.key], New(s, a), Step(s, a);
    StepKeepsInv(s, a);
    StepKeepsOrder(s, a);
    WriteIsBorn(s, a);
    forall later: seq<Action>, y |
      ClocksAhead(t, later) && StampsUnused(t, later) &&
      y in Run(t, later).born && n in WritesSeen(Run(t, later).born, y)
      ensures !SamePayload(x, y)
    {
      ReplacedLater(t, later, x, n, y);
    }
  }

  lemma WriteIsBorn(s: System, a: Action)
    requires Inv(s) && Enabled(s, a) && IsWrite(a) && a.key in s.replicas[a.r].store
    ensures a.r in Step(s, a).replicas
    ensures var x, n, t := s.replicas[a.r].store[a.key], New(s, a), Step(s, a);
            && x in s.born && x.key == a.key && n !in s.born
            && t.born == s.born[n := Origin(a.r, CallOf(a), Closure(s.born, {x}))]
            && t.replicas == s.replicas[a.r := t.replicas[a.r]] && t.replicas[a.r].store == s.replicas[a.r].store[a.key := n]
            && n.vector == Tick(x.vector, a.r) && Before(x.vector, n.vector)
  {
    hide Inv, Placed, Bounded, Ticked, Causal, Unique, Historic, Versioned, Before, Closure;
    var e := s.replicas[a.r];
    HasItsName(s, a.r);
    LocalIsStored(e, a.key);
    WriteKeepsInv(s, a.r, a.key, if a.Put? then a.value else Null, a.now, a.Delete?);
    TickAdvances(e.store[a.key].vector, a.r);
  }

  lemma LocalIsStored(e: Replica, key: string)
    requires key in e.store
    ensures Local(e, key) == {e.store[key]}
  {
  }

  lemma ReplacedLater(t: System, later: seq<Action>, x: Record, n: Record, y: Record)
    requires Inv(t) && StampsFollowClocks(t.born) && WritesAreNewest(t.born)
    requires x in t.born && x.key == n.key && Before(x.vector, n.vector)
    requires ClocksAhead(t, later) && StampsUnused(t, later)
    requires y in Run(t, later).born && n in WritesSeen(Run(t, later).born, y)
    ensures !SameStamp(x, y)
  {
    hide Inv, StampsFollowClocks, WritesAreNewest, Before, ClocksAhead, StampsUnused, Run;
    RunKeepsInv(t, later);
    RunFollows(t, later);
    RunKeepsBirths(t, later, x);
    BelowIsReplaced(Run(t, later).born, x, n, y);
  }

  lemma BelowIsReplaced(born: Births, x: Record, n: Record, y: Record)
    requires Historic(born) && StampsFollowClocks(born) && WritesAreNewest(born)
    requires x in born && x.key == n.key && Before(x.vector, n.vector)
    requires y in born && n in WritesSeen(born, y)
    ensures !SameStamp(x, y)
  {
    assert x in born[n].past;
    Replaced(born, x, n, y);
  }

  // ---- a write that is behind -------------------------------------------------

  lemma OlderThanAll(records: set<Record>) returns (time: int)
    ensures forall z | z in records :: time < z.wallTime
  {
    if records == {} {
      time := 0;
    } else {
      var z :| z in records;
      var rest := OlderThanAll(records - {z});
      time := if rest < z.wallTime then rest else z.wallTime - 1;
    }
  }

  lemma ThreeSteps(t: System, a: Action, b: Action, c: Action)
    ensures Run(t, [a, b, c]) == Step(Step(Step(t, a), b), c)
    ensures ClockAhead(t, a) && ClockAhead(Step(t, a), b) && ClockAhead(Step(Step(t, a), b), c) ==>
              ClocksAhead(t, [a, b, c])
    ensures UnusedStamp(t, a) && UnusedStamp(Step(t, a), b) && UnusedStamp(Step(Step(t, a), b), c) ==>
              StampsUnused(t, [a, b, c])
  {
    hide Step, ClockAhead, UnusedStamp;
    var t1 := Step(t, a);
    var t2 := Step(t1, b);
    var t3 := Step(t2, c);
    assert [a, b, c][1..] == [b, c] && [b, c][1..] == [c] && [c][1..] == [];
    assert Run(t3, []) == t3 && Run(t2, [c]) == t3 && Run(t1, [b, c]) == t3;
    assert ClockAhead(t2, c) ==> ClocksAhead(t2, [c]);
    assert UnusedStamp(t2, c) ==> StampsUnused(t2, [c]);
    assert ClockAhead(t1, b) && ClocksAhead(t2, [c]) ==> ClocksAhead(t1, [b, c]);
    assert UnusedStamp(t1, b) && StampsUnused(t2, [c]) ==> StampsUnused(t1, [b, c]);
  }

  /** A replica without the key has ticked no record of it. */
  lemma NoTick(s: System, q: string, x: Record)
    requires Inv(s) && q in s.replicas && x in s.born && x.key !in s.replicas[q].store
    ensures At(x.vector, q) == 0 && s.born[x].maker != q && At(x.vector, s.born[x].maker) > 0
  {
    assert At(x.vector, q) <= Own(s.replicas[q], x.key);
  }

  /** A first write at such a replica is concurrent with everything there is, and
      merging an existing record into it keeps the payload of the newer one. */
  lemma FirstWriteClashes(x: Record, y: Record, q: string, maker: string)
    requires Positive(x.vector) && y.vector == Tick(map[], q) && At(x.vector, q) == 0
    requires maker != q && At(x.vector, maker) > 0
    ensures Clash(y, x)
    ensures forall p :: At(Merged(q, y, x).vector, p) == if p == q then 2 else At(x.vector, p)
  {
    assert At(y.vector, q) == 1 && At(y.vector, maker) == 0;
    forall p ensures At(Merged(q, y, x).vector, p) == if p == q then 2 else At(x.vector, p) {
      MergedAt(q, y, x, p);
      assert At(x.vector, p) >= 0;
    }
  }

  /** The carrier: q writes on its own, older than everything, and merges x. Its
      record then shows x and is concurrent with what replaced x at r. */
  lemma CarrierClashes(x: Record, n: Record, c: Record, r: string, q: string)
    requires r != q && At(x.vector, q) == 0 && n.vector == Tick(x.vector, r)
    requires forall p :: At(c.vector, p) == if p == q then 2 else At(x.vector, p)
    ensures Clash(n, c)
  {
    assert At(n.vector, q) == 0 < At(c.vector, q);
    assert At(n.vector, r) == At(x.vector, r) + 1 > At(c.vector, r);
  }

  /** A delivery that merges: the record it makes, and who saw what. */
  lemma DeliveryMerges(s: System, r: string, record: Record, local: Record, z: Record)
    requires r in s.replicas && record in s.born && Inv(s)
    requires record.key in s.replicas[r].store && s.replicas[r].store[record.key] == local
    requires Clash(local, record) && z == Merged(r, local, record)
    ensures r in Step(s, Deliver(r, record)).replicas
    ensures var t := Step(s, Deliver(r, record));
            && Inv(t) && z !in s.born && local in s.born
            && t.born == s.born[z := Origin(r, Joined, Closure(s.born, {local, record}))]
            && t.replicas == s.replicas[r := t.replicas[r]]
            && t.replicas[r].store == s.replicas[r].store[record.key := z]
  {
    hide Inv, Placed, Clash, Before, Closure, Merged, Mint;
    HasItsName(s, r);
    MergeBirth(s, r, record);
    MergeKeepsInv(s, r, record);
  }

  lemma FirstWriteIsBorn(s: System, q: string, key: string, time: int)
    requires Inv(s) && q in s.replicas && key !in s.replicas[q].store
    ensures q in Step(s, Put(q, key, Null, time)).replicas
    ensures var a := Put(q, key, Null, time);
            var y, t := New(s, a), Step(s, a);
            && Inv(t) && y !in s.born && t.born == s.born[y := Origin(q, Wrote(Null, false, time), Closure(s.born, {}))]
            && t.replicas == s.replicas[q := t.replicas[q]] && t.replicas[q].store == s.replicas[q].store[key := y]
            && y.vector == Tick(map[], q) && y.key == key && y.wallTime == time
  {
    hide Inv, Placed, Closure;
    HasItsName(s, q);
    WriteKeepsInv(s, q, key, Null, time, false);
  }

  /** A replica q without the key writes at a time older than everything and then
      merges x: the record c shows x, and has a tick of q on top of it. */
  lemma CarrierIsBorn(t: System, q: string, x: Record, time: int) returns (c: Record)
    requires Inv(t) && q in t.replicas && x in t.born && x.key !in t.replicas[q].store
    requires forall z | z in t.born :: time < z.wallTime
    ensures var t2 := Step(Step(t, Put(q, x.key, Null, time)), Deliver(q, x));
            && Inv(t2) && c in t2.born && c.key == x.key && SamePayload(c, x)
            && (forall p :: At(c.vector, p) == if p == q then 2 else At(x.vector, p))
            && (forall r | r in t.replicas && r != q :: r in t2.replicas && t2.replicas[r] == t.replicas[r])
            && (forall z | z in t.born :: z in t2.born && t2.born[z] == t.born[z])
  {
    hide Inv, Clash, Newer, Closure, Merged;
    NoTick(t, q, x);
    BornIsPositive(t, x);
    var t1 := Step(t, Put(q, x.key, Null, time));
    var y := New(t, Put(q, x.key, Null, time));
    FirstWriteIsBorn(t, q, x.key, time);
    FirstWriteClashes(x, y, q, t.born[x].maker);
    c := Merged(q, y, x);
    DeliveryMerges(t1, q, x, y, c);
    KeepsNewer(q, y, x);
  }

  /** In a system in which r has just replaced x by n, and n is stamped older: one
      other replica without the key can bring x back to r. */
  lemma ValueReturns(t: System, r: string, q: string, x: Record, n: Record)
    requires Inv(t) && r in t.replicas && q in t.replicas && r != q
    requires x in t.born && n in t.born && t.born[n].call.Wrote? && x.key == n.key && n.vector == Tick(x.vector, r)
    requires n.key in t.replicas[r].store && t.replicas[r].store[n.key] == n && n.key !in t.replicas[q].store
    requires Newer(x, n)
    ensures !StaysReplaced(t, x, n)
  {
    hide Inv, Clash, Newer, Closure, Merged, Step, SamePayload;
    var time := OlderThanAll(t.born.Keys);
    NoTick(t, q, x);
    var a, b := Put(q, x.key, Null, time), Deliver(q, x);
    var c := CarrierIsBorn(t, q, x, time);
    var t2 := Step(Step(t, a), b);
    // r receives the carrier and shows x again
    CarrierClashes(x, n, c, r, q);
    var d := Deliver(r, c);
    var z := Merged(r, n, c);
    DeliveryMerges(t2, r, c, n, z);
    ShowsAgain(r, x, n, c);
    SeenByMerge(Step(t2, d).born, t2.born, r, n, c, z);
    AheadAndUnused(t, a, b, d, time);
    ThreeSteps(t, a, b, d);
    assert n in WritesSeen(Run(t, [a, b, d]).born, z);
  }

  lemma ShowsAgain(r: string, x: Record, n: Record, c: Record)
    requires Newer(x, n) && SamePayload(c, x)
    ensures SamePayload(x, Merged(r, n, c))
  {
    NewerByStamp(x, c, n);
    KeepsNewer(r, n, c);
  }

  lemma BornIsPositive(t: System, x: Record)
    requires Inv(t) && x in t.born
    ensures Positive(x.vector)
  {
  }

  lemma KeepsNewer(id: string, local: Record, remote: Record)
    requires Newer(remote, local) || remote.wallTime > local.wallTime
    ensures SamePayload(Merged(id, local, remote), remote) && Merged(id, local, remote).key == remote.key
  {
  }

  lemma NewerByStamp(x: Record, c: Record, n: Record)
    requires Newer(x, n) && SameStamp(c, x)
    ensures Newer(c, n)
  {
  }

  lemma SeenByMerge(born': Births, born: Births, r: string, n: Record, c: Record, z: Record)
    requires z !in born && n in born && born[n].call.Wrote?
    requires born' == born[z := Origin(r, Joined, Closure(born, {n, c}))]
    ensures n in WritesSeen(born', z)
  {
  }

  lemma AheadAndUnused(t: System, a: Action, b: Action, d: Action, time: int)
    requires a.Put? && b.Deliver? && d.Deliver? && a.now == time
    requires a.r in t.replicas ==> a.key !in t.replicas[a.r].store
    requires forall z | z in t.born :: time < z.wallTime
    ensures ClockAhead(t, a) && ClockAhead(Step(t, a), b) && ClockAhead(Step(Step(t, a), b), d)
    ensures UnusedStamp(t, a) && UnusedStamp(Step(t, a), b) && UnusedStamp(Step(Step(t, a), b), d)
  {
    hide Step;
  }

  /** The condition is exact for the promise itself: a write replaces a value for
      good if and only if its wall clock is not behind the record it replaces, as
      soon as there is one other replica that does not have the key yet. */
  lemma ReplacesForGoodIff(s: System, a: Action, q: string)
    requires Inv(s) && StampsFollowClocks(s.born) && WritesAreNewest(s.born)
    requires Enabled(s, a) && IsWrite(a) && UnusedStamp(s, a) && a.key in s.replicas[a.r].store
    requires q in s.replicas && q != a.r && a.key !in s.replicas[q].store
    ensures StaysReplaced(Step(s, a), s.replicas[a.r].store[a.key], New(s, a)) <==> WrittenLater(s.replicas[a.r], a)
  {
    hide Inv, StampsFollowClocks, WritesAreNewest, StaysReplaced, UnusedStamp, Before, Closure;
    if WrittenLater(s.replicas[a.r], a) {
      StaysReplacedIfLater(s, a);
    } else {
      StepKeepsInv(s, a);
      WriteIsBorn(s, a);
      ValueReturns(Step(s, a), a.r, q, s.replicas[a.r].store[a.key], New(s, a));
    }
  }

  /** So it is in every reachable state. */
  lemma ReachableReplacesForGoodIff(s: System, actions: seq<Action>, a: Action, q: string)
    requires Init(s) && StampsUnused(s, actions) && ClocksAhead(s, actions)
    requires var t := Run(s, actions);
             && Enabled(t, a) && IsWrite(a) && UnusedStamp(t, a) && a.key in t.replicas[a.r].store
             && q in t.replicas && q != a.r && a.key !in t.replicas[q].store
    ensures var t := Run(s, actions);
            StaysReplaced(Step(t, a), t.replicas[a.r].store[a.key], New(t, a)) <==> WrittenLater(t.replicas[a.r], a)
  {
    hide StaysReplaced, ClocksAhead, StampsUnused, UnusedStamp, Step, New, WrittenLater;
    InitInv(s);
    RunKeepsInv(s, actions);
    RunFollows(s, actions);
    ReplacesForGoodIff(Run(s, actions), a, q);
  }
}
