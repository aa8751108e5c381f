/** The vector-clock theorems, for every run of every number of replicas. */
module SyncCausality {
  import opened VectorClocks
  import opened OfflineSync
  import opened SyncSystem
  import opened SyncReplica

  /** Vector-clock causality: a record that carries a tick carries everything
      the record minted by that tick carried. */
  lemma TickImpliesHistory(s: System, actions: seq<Action>, x: Record, y: Record)
    requires Init(s)
    requires var born := Run(s, actions).born;
             x in born && y in born && x.key == y.key && At(y.vector, born[x].maker) >= At(x.vector, born[x].maker)
    ensures Leq(x.vector, y.vector)
  {
    InitInv(s);
    RunKeepsInv(s, actions);
  }

  /** The clocks characterise derivation: x was used, directly or through other
      records, to make y exactly when x's clock is strictly below y's. */
  lemma ClocksCharacteriseDerivation(s: System, actions: seq<Action>, x: Record, y: Record)
    requires Init(s)
    requires x in Run(s, actions).born && y in Run(s, actions).born && x.key == y.key
    ensures x in Run(s, actions).born[y].past <==> Before(x.vector, y.vector)
  {
    InitInv(s);
    RunKeepsInv(s, actions);
  }

  /** The version is a scalar clock consistent with causality, merges included. */
  lemma VersionFollowsCausality(s: System, actions: seq<Action>, x: Record, y: Record)
    requires Init(s)
    requires x in Run(s, actions).born && y in Run(s, actions).born && x.key == y.key
    requires Before(x.vector, y.vector)
    ensures x.version < y.version
  {
    InitInv(s);
    RunKeepsInv(s, actions);
  }

  /** Equal clocks mean the identical record. */
  lemma EqualClocksSameRecord(s: System, actions: seq<Action>, x: Record, y: Record)
    requires Init(s)
    requires x in Run(s, actions).born && y in Run(s, actions).born && x.key == y.key
    requires x.vector == y.vector || (Leq(x.vector, y.vector) && Leq(y.vector, x.vector))
    ensures x == y
  {
    InitInv(s);
    RunKeepsInv(s, actions);
    if x.vector != y.vector {
      PositiveAntisymmetric(x.vector, y.vector);
    }
  }

  lemma NewRecordIsMinted(s: System, a: Action, n: Record)
    requires Inv(s) && n in Step(s, a).born && n !in s.born
    ensures exists parents :: Mint(s.born, a.r, n, parents)
  {
    match a
    case Put(r, key, value, now) => WriteMints(s, r, key, value, now, false);
    case Delete(r, key, now) => WriteMints(s, r, key, Null, now, true);
    case Deliver(r, record) => MergeMints(s, r, record);
  }

  /** Every record a step adds has a clock that no earlier record of the key
      reaches, so a tick is never mistaken for something already seen. */
  lemma TicksAreFresh(s: System, actions: seq<Action>, a: Action, n: Record, x: Record)
    requires Init(s)
    requires var t := Run(s, actions);
             n in Step(t, a).born && n !in t.born && x in t.born && x.key == n.key
    ensures !Leq(n.vector, x.vector)
  {
    var t := Run(s, actions);
    InitInv(s);
    RunKeepsInv(s, actions);
    NewRecordIsMinted(t, a, n);
    var parents :| Mint(t.born, a.r, n, parents);
    MintNotBelow(t.born, a.r, n, parents, x);
  }

  /** A replica never forgets: its clock for a key only grows. */
  lemma StepGrows(s: System, a: Action, r: string, key: string)
    requires Inv(s) && r in s.replicas && key in s.replicas[r].store
    ensures r in Step(s, a).replicas && key in Step(s, a).replicas[r].store
    ensures Leq(s.replicas[r].store[key].vector, Step(s, a).replicas[r].store[key].vector)
  {
    hide Bounded, Ticked, Causal, Unique, Historic, Versioned, Closure, Merged, Clash, Before;
    if Enabled(s, a) && a.r == r {
      if a.Deliver? {
        ApplyCoversBoth(s.replicas[r], a.record);
      } else {
        TickAdvances(s.replicas[r].store[key].vector, r);
      }
    }
  }

  lemma {:induction false} RunGrows(s: System, actions: seq<Action>, r: string, key: string)
    requires Inv(s) && r in s.replicas && key in s.replicas[r].store
    ensures r in Run(s, actions).replicas && key in Run(s, actions).replicas[r].store
    ensures Leq(s.replicas[r].store[key].vector, Run(s, actions).replicas[r].store[key].vector)
    decreases |actions|
  {
    if actions != [] {
      var t := Step(s, actions[0]);
      StepKeepsInv(s, actions[0]);
      StepGrows(s, actions[0], r, key);
      RunGrows(t, actions[1..], r, key);
      LeqTransitive(s.replicas[r].store[key].vector, t.replicas[r].store[key].vector,
                    Run(t, actions[1..]).replicas[r].store[key].vector);
    }
  }

  lemma {:induction false} RunKeepsBirths(s: System, actions: seq<Action>, x: Record)
    requires x in s.born
    ensures x in Run(s, actions).born
    decreases |actions|
  {
    if actions != [] {
      RunKeepsBirths(Step(s, actions[0]), actions[1..], x);
    }
  }

  /** A record the replica already covers changes nothing in the system. */
  lemma CoveredDeliveryIsNoOp(t: System, r: string, x: Record)
    requires Inv(t) && Enabled(t, Deliver(r, x)) && x.key in t.replicas[r].store
    requires Leq(x.vector, t.replicas[r].store[x.key].vector)
    ensures Step(t, Deliver(r, x)) == t
  {
    var e := t.replicas[r];
    assert e.store[x.key] in t.born;
    ReplayIsSafe(e, x);
    if Leq(e.store[x.key].vector, x.vector) {
      PositiveAntisymmetric(e.store[x.key].vector, x.vector);
    }
    assert t.replicas[r := e] == t.replicas;
  }

  lemma DeliveryCovers(s: System, r: string, x: Record)
    requires Placed(s) && Enabled(s, Deliver(r, x))
    ensures var t := Step(s, Deliver(r, x));
            r in t.replicas && x.key in t.replicas[r].store && Leq(x.vector, t.replicas[r].store[x.key].vector)
            && x in t.born
  {
    ApplyCoversBoth(s.replicas[r], x);
  }

  /** Replay safety over whole runs: once delivered, a record stays covered, and
      delivering it again, however much later, changes nothing in the system. */
  lemma RedeliveryNeverMatters(s: System, before: seq<Action>, r: string, x: Record, later: seq<Action>)
    requires Init(s) && Enabled(Run(s, before), Deliver(r, x))
    ensures var t := Run(Step(Run(s, before), Deliver(r, x)), later);
            Enabled(t, Deliver(r, x)) && x.key in t.replicas[r].store &&
            Leq(x.vector, t.replicas[r].store[x.key].vector) && Step(t, Deliver(r, x)) == t
  {
    InitInv(s);
    RunKeepsInv(s, before);
    CoveredFromNowOn(Run(s, before), r, x, later);
  }

  lemma CoveredFromNowOn(s: System, r: string, x: Record, later: seq<Action>)
    requires Inv(s) && Enabled(s, Deliver(r, x))
    ensures var t := Run(Step(s, Deliver(r, x)), later);
            Enabled(t, Deliver(r, x)) && x.key in t.replicas[r].store &&
            Leq(x.vector, t.replicas[r].store[x.key].vector) && Step(t, Deliver(r, x)) == t
  {
    var s2 := Step(s, Deliver(r, x));
    var t := Run(s2, later);
    StepKeepsInv(s, Deliver(r, x));
    RunKeepsInv(s2, later);
    DeliveryCovers(s, r, x);
    RunGrows(s2, later, r, x.key);
    RunKeepsBirths(s2, later, x);
    LeqTransitive(x.vector, s2.replicas[r].store[x.key].vector, t.replicas[r].store[x.key].vector);
    CoveredDeliveryIsNoOp(t, r, x);
  }
}
