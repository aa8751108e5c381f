/** When replicas end up showing the same thing: two replicas exchanging under
    the vector-clock policy, and any delivery order under last-write-wins. */
module SyncConvergence {
  import opened VectorClocks
  import opened OfflineSync
  import opened SyncStamps
  import opened SyncSystem
  import opened SyncPayload

  // ---- two replicas, vector-clock policy ------------------------------------

  /** Both replicas merge what the other held before the exchange. */
  ghost function Exchange(a: string, b: string, x: Record, y: Record): (Record, Record) {
    (ResolveVector(a, x, y), ResolveVector(b, y, x))
  }

  ghost function Exchanges(n: nat, a: string, b: string, x: Record, y: Record): (Record, Record)
    decreases n
  {
    if n == 0 then (x, y)
    else var next := Exchange(a, b, x, y); Exchanges(n - 1, a, b, next.0, next.1)
  }

  /** The two records may be told apart: neither stamps nor clocks are reused. */
  ghost predicate Distinguishable(x: Record, y: Record) {
    && Positive(x.vector) && Positive(y.vector) && x.key == y.key
    && (SameStamp(x, y) ==> SamePayload(x, y))
    && (x.vector == y.vector ==> x == y)
  }

  lemma MergedVector(id: string, x: Record, y: Record)
    requires Positive(x.vector) && Positive(y.vector)
    ensures Positive(Merged(id, x, y).vector)
    ensures forall r :: At(Merged(id, x, y).vector, r)
                        == Max(At(x.vector, r), At(y.vector, r)) + if r == id then 1 else 0
  {
  }

  /** One exchange: both show the same payload, namely that of the later version
      if one had seen the other, and of the newer stamp if neither had. */
  lemma ExchangeAgrees(a: string, b: string, x: Record, y: Record)
    requires Distinguishable(x, y) && a != b
    ensures var (x', y') := Exchange(a, b, x, y);
            SamePayload(x', y') && Distinguishable(x', y') &&
            SamePayload(x', if Before(x.vector, y.vector) then y
                        else if Before(y.vector, x.vector) then x
                        else Winner(x, y))
  {
    if Leq(x.vector, y.vector) && Leq(y.vector, x.vector) {
      PositiveAntisymmetric(x.vector, y.vector);
    }
    if Clash(x, y) {
      NewerTrichotomy(x, y);
      MergedVector(a, x, y);
      MergedVector(b, y, x);
      assert At(Merged(a, x, y).vector, a) != At(Merged(b, y, x).vector, a);
    }
  }

  /** Payload convergence: from the first exchange on both show the same payload
      and keep it, however often they exchange. */
  lemma {:induction false} ExchangesConverge(n: nat, a: string, b: string, x: Record, y: Record)
    requires Distinguishable(x, y) && a != b && n > 0
    ensures var (x', y') := Exchanges(n, a, b, x, y);
            var (x1, y1) := Exchange(a, b, x, y);
            SamePayload(x', y') && SamePayload(x', x1) && Distinguishable(x', y')
    decreases n
  {
    var (x1, y1) := Exchange(a, b, x, y);
    ExchangeAgrees(a, b, x, y);
    if n > 1 {
      ExchangesConverge(n - 1, a, b, x1, y1);
      ExchangeAgrees(a, b, x1, y1);
    }
  }

  lemma ExchangeStaysConcurrent(a: string, b: string, x: Record, y: Record)
    requires Positive(x.vector) && Positive(y.vector) && a != b && Incomparable(x.vector, y.vector)
    ensures var (x', y') := Exchange(a, b, x, y);
            Positive(x'.vector) && Positive(y'.vector) && Incomparable(x'.vector, y'.vector)
  {
    MergedVector(a, x, y);
    MergedVector(b, y, x);
    var (x', y') := Exchange(a, b, x, y);
    assert Clash(x, y) && Clash(y, x);
    assert At(x'.vector, a) > At(y'.vector, a);
    assert At(y'.vector, b) > At(x'.vector, b);
  }

  /** Exchanging at the same time never ends a conflict: the clocks of two
      concurrent versions are still concurrent after any number of rounds. */
  lemma {:induction false} ExchangesNeverSettle(n: nat, a: string, b: string, x: Record, y: Record)
    requires Positive(x.vector) && Positive(y.vector) && a != b && Incomparable(x.vector, y.vector)
    ensures var (x', y') := Exchanges(n, a, b, x, y); Incomparable(x'.vector, y'.vector)
    decreases n
  {
    if n > 0 {
      var (x1, y1) := Exchange(a, b, x, y);
      ExchangeStaysConcurrent(a, b, x, y);
      ExchangesNeverSettle(n - 1, a, b, x1, y1);
    }
  }

  /** Exactly the conflicts do not settle: after one exchange both hold the identical
      record, and keep it, if and only if the versions were not concurrent. */
  lemma ExchangeSettlesIff(a: string, b: string, x: Record, y: Record)
    requires Distinguishable(x, y) && a != b
    ensures var (x', y') := Exchange(a, b, x, y);
            && (x' == y' <==> !Incomparable(x.vector, y.vector))
            && (x' == y' ==> Exchange(a, b, x', y') == (x', y'))
  {
    if Incomparable(x.vector, y.vector) {
      ExchangeStaysConcurrent(a, b, x, y);
    } else if Leq(x.vector, y.vector) && Leq(y.vector, x.vector) {
      PositiveAntisymmetric(x.vector, y.vector);
    }
  }

  /** Taking turns does end it: if b applies what a holds after merging b's
      record, both hold the identical record and a further turn changes nothing. */
  lemma TakingTurnsSettles(a: string, b: string, x: Record, y: Record)
    requires Distinguishable(x, y)
    ensures var x' := ResolveVector(a, x, y);
            ResolveVector(b, y, x') == x' && ResolveVector(a, x', ResolveVector(b, y, x')) == x'
  {
    if Leq(x.vector, y.vector) && Leq(y.vector, x.vector) {
      PositiveAntisymmetric(x.vector, y.vector);
    }
    if Clash(x, y) {
      MergedVector(a, x, y);
      var m := Merged(a, x, y).vector;
      assert At(m, a) > At(y.vector, a);
      assert Leq(y.vector, m);
    }
  }

  /** In every reachable state in which no stamp was reused, any two stored
      records of a key are distinguishable, so the above applies to them. */
  lemma ReachableAreDistinguishable(s: System, actions: seq<Action>, x: Record, y: Record)
    requires Init(s) && StampsUnused(s, actions)
    requires x in Run(s, actions).born && y in Run(s, actions).born && x.key == y.key
    ensures Distinguishable(x, y)
  {
    InitInv(s);
    RunKeepsInv(s, actions);
    RunStamps(s, actions);
  }

  // ---- the same inside a running system -------------------------------------

  ghost predicate BothHold(s: System, a: string, b: string, key: string) {
    a in s.replicas && b in s.replicas && key in s.replicas[a].store && key in s.replicas[b].store
  }

  /** The versions of a key that two replicas hold. */
  ghost function Held(s: System, a: string, b: string, key: string): (Record, Record)
    requires BothHold(s, a, b, key)
  {
    (s.replicas[a].store[key], s.replicas[b].store[key])
  }

  /** Each of two replicas is delivered what the other held before the round. */
  ghost function Round(s: System, a: string, b: string, key: string): System {
    if !BothHold(s, a, b, key) then s
    else
      var (x, y) := Held(s, a, b, key);
      Step(Step(s, Deliver(a, y)), Deliver(b, x))
  }

  ghost function Rounds(n: nat, s: System, a: string, b: string, key: string): System
    decreases n
  {
    if n == 0 then s else Rounds(n - 1, Round(s, a, b, key), a, b, key)
  }

  lemma DeliveryResolves(s: System, r: string, key: string, y: Record)
    requires Inv(s) && r in s.replicas && key in s.replicas[r].store && y in s.born && y.key == key
    ensures var t := Step(s, Deliver(r, y));
            && Inv(t) && t.replicas.Keys == s.replicas.Keys && s.born.Keys <= t.born.Keys
            && key in t.replicas[r].store
            && t.replicas[r].store[key] == ResolveVector(r, s.replicas[r].store[key], y)
            && forall q | q in s.replicas && q != r :: t.replicas[q] == s.replicas[q]
  {
    hide Inv, Placed, AfterApply, ResolveVector, Merged, Merges, Closure, WriteStep;
    StepKeepsInv(s, Deliver(r, y));
    HasItsName(s, r);
    ApplyResolves(s.replicas[r], y);
  }

  lemma ApplyResolves(e: Replica, remote: Record)
    requires e.policy.VectorClockPolicy? && remote.key in e.store
    ensures remote.key in AfterApply(e, remote).store
    ensures AfterApply(e, remote).store[remote.key] == ResolveVector(e.id, e.store[remote.key], remote)
  {
  }

  /** A round between two replicas of a system is an exchange of their versions. */
  lemma RoundIsExchange(s: System, a: string, b: string, key: string)
    requires Inv(s) && BothHold(s, a, b, key) && a != b
    ensures var t := Round(s, a, b, key);
            && Inv(t) && BothHold(t, a, b, key)
            && Held(t, a, b, key) == Exchange(a, b, Held(s, a, b, key).0, Held(s, a, b, key).1)
  {
    hide Bounded, Ticked, Causal, Unique, Historic, Versioned, Step, ResolveVector;
      var (x, y) := Held(s, a, b, key);
    DeliveryResolves(s, a, key, y);
    DeliveryResolves(Step(s, Deliver(a, y)), b, key, x);
  }

  lemma {:induction false} RoundsAreExchanges(n: nat, s: System, a: string, b: string, key: string)
    requires Inv(s) && BothHold(s, a, b, key) && a != b
    ensures var t := Rounds(n, s, a, b, key);
            && Inv(t) && BothHold(t, a, b, key)
            && Held(t, a, b, key) == Exchanges(n, a, b, Held(s, a, b, key).0, Held(s, a, b, key).1)
    decreases n
  {
    hide Inv, Round, Exchange, BothHold;
    if n > 0 {
      RoundIsExchange(s, a, b, key);
      RoundsAreExchanges(n - 1, Round(s, a, b, key), a, b, key);
    }
  }

  /** Payload convergence in a running system: whatever any number of replicas
      did before, two of them that exchange a key show the same payload after one
      round, and still that payload after any number of further rounds. */
  lemma ReplicasConverge(n: nat, s: System, actions: seq<Action>, a: string, b: string, key: string)
    requires Init(s) && StampsUnused(s, actions)
    requires BothHold(Run(s, actions), a, b, key) && a != b && n > 0
    ensures var t := Run(s, actions);
            && BothHold(Round(t, a, b, key), a, b, key) && BothHold(Rounds(n, t, a, b, key), a, b, key)
            && SamePayload(Held(Rounds(n, t, a, b, key), a, b, key).0, Held(Rounds(n, t, a, b, key), a, b, key).1)
            && SamePayload(Held(Rounds(n, t, a, b, key), a, b, key).0, Held(Round(t, a, b, key), a, b, key).0)
  {
    var t := Run(s, actions);
    InitInv(s);
    RunKeepsInv(s, actions);
    var (x, y) := Held(t, a, b, key);
    ReachableAreDistinguishable(s, actions, x, y);
    RoundIsExchange(t, a, b, key);
    RoundsAreExchanges(n, t, a, b, key);
    ExchangesConverge(n, a, b, x, y);
  }

  // ---- last-write-wins, any delivery order ----------------------------------

  ghost predicate KeyedByKey(store: map<string, Record>) {
    forall key | key in store :: store[key].key == key
  }

  /** Everything an engine may end up storing: what it starts with and what it is sent. */
  ghost function Candidates(store: map<string, Record>, records: seq<Record>): set<Record> {
    store.Values + Sent(records)
  }

  /** A stamp names one record of a key. */
  ghost predicate StampsNameRecords(candidates: set<Record>) {
    forall x, y | x in candidates && y in candidates && x.key == y.key && SameStamp(x, y) :: x == y
  }

  /** r is the candidate with the greatest stamp of its key. */
  ghost predicate Greatest(r: Record, key: string, candidates: set<Record>) {
    r in candidates && r.key == key && forall c | c in candidates && c.key == key :: !Newer(c, r)
  }

  /** The store holds, for every key any candidate has, the greatest one. */
  ghost predicate HoldsGreatest(store: map<string, Record>, candidates: set<Record>) {
    && (forall key | key in store :: Greatest(store[key], key, candidates))
    && (forall c | c in candidates :: c.key in store)
  }

  lemma WinnerIsGreatest(e: Replica, remote: Record, candidates: set<Record>)
    requires e.policy.LastWriteWins? && HoldsGreatest(e.store, candidates)
    ensures HoldsGreatest(AfterApply(e, remote).store, candidates + {remote})
  {
    var store := AfterApply(e, remote).store;
    var all := candidates + {remote};
    NewerTrichotomy(remote, remote);
    forall key | key in store ensures Greatest(store[key], key, all) {
      if key == remote.key && key in e.store {
        var local := e.store[key];
        NewerTrichotomy(local, remote);
        forall c | c in candidates && c.key == key ensures !Newer(c, store[key]) {
          NewerTransitive(c, local, remote);
        }
      }
    }
  }

  ghost function Sent(records: seq<Record>): set<Record> {
    set r | r in records
  }

  lemma SentCons(records: seq<Record>, candidates: set<Record>)
    requires records != []
    ensures candidates + {records[0]} + Sent(records[1..]) == candidates + Sent(records)
  {
  }

  lemma {:induction false} DeliveryHoldsGreatest(e: Replica, records: seq<Record>, candidates: set<Record>)
    requires e.policy.LastWriteWins? && HoldsGreatest(e.store, candidates)
    ensures HoldsGreatest(AfterApplyAll(e, records).store, candidates + Sent(records))
    decreases |records|
  {
    if records == [] {
      assert candidates + Sent(records) == candidates;
    } else {
      WinnerIsGreatest(e, records[0], candidates);
      SentCons(records, candidates);
      DeliveryHoldsGreatest(AfterApply(e, records[0]), records[1..], candidates + {records[0]});
    }
  }

  /** After any deliveries, the store is the per-key maximum by stamp of what the
      engine had and what it was sent. */
  lemma StoreIsMaximum(e: Replica, records: seq<Record>)
    requires e.policy.LastWriteWins? && KeyedByKey(e.store)
    ensures HoldsGreatest(AfterApplyAll(e, records).store, Candidates(e.store, records))
  {
    forall key | key in e.store ensures Greatest(e.store[key], key, e.store.Values) {
      forall c | c in e.store.Values && c.key == key ensures !Newer(c, e.store[key]) {
        NewerTrichotomy(c, c);
        assert c == e.store[key];
      }
    }
    DeliveryHoldsGreatest(e, records, e.store.Values);
  }

  lemma GreatestIsUnique(s1: map<string, Record>, s2: map<string, Record>, candidates: set<Record>)
    requires StampsNameRecords(candidates) && HoldsGreatest(s1, candidates) && HoldsGreatest(s2, candidates)
    ensures s1 == s2
  {
    forall key ensures key in s1 <==> key in s2 {
      if key in s1 { assert s1[key] in candidates && s1[key].key == key; }
      if key in s2 { assert s2[key] in candidates && s2[key].key == key; }
    }
    forall key | key in s1 ensures s1[key] == s2[key] {
      assert Greatest(s1[key], key, candidates) && Greatest(s2[key], key, candidates);
      NewerTrichotomy(s1[key], s2[key]);
    }
  }

  /** Strong eventual consistency: engines that started from, or were sent, the
      same records hold the same store, whatever the order and duplication of
      the deliveries and whoever had which record first. */
  lemma LwwConverges(e1: Replica, records1: seq<Record>, e2: Replica, records2: seq<Record>)
    requires e1.policy.LastWriteWins? && KeyedByKey(e1.store)
    requires e2.policy.LastWriteWins? && KeyedByKey(e2.store)
    requires Candidates(e1.store, records1) == Candidates(e2.store, records2)
    requires StampsNameRecords(Candidates(e1.store, records1))
    ensures AfterApplyAll(e1, records1).store == AfterApplyAll(e2, records2).store
  {
    StoreIsMaximum(e1, records1);
    StoreIsMaximum(e2, records2);
    GreatestIsUnique(AfterApplyAll(e1, records1).store, AfterApplyAll(e2, records2).store,
                     Candidates(e1.store, records1));
  }

  /** A snapshot of a store in some order, possibly with repetitions. */
  ghost predicate Lists(records: seq<Record>, store: map<string, Record>) {
    Sent(records) == store.Values
  }

  /** Two engines that sync from each other's stores end with equal stores. */
  lemma MutualSyncEqualises(e1: Replica, e2: Replica, from1: seq<Record>, from2: seq<Record>)
    requires e1.policy.LastWriteWins? && KeyedByKey(e1.store) && Lists(from1, e1.store)
    requires e2.policy.LastWriteWins? && KeyedByKey(e2.store) && Lists(from2, e2.store)
    requires StampsNameRecords(e1.store.Values + e2.store.Values)
    ensures AfterApplyAll(e1, from2).store == AfterApplyAll(e2, from1).store
  {
    assert Candidates(e1.store, from2) == e1.store.Values + e2.store.Values == Candidates(e2.store, from1);
    LwwConverges(e1, from2, e2, from1);
  }

  /** The assumption is exact for a pair: two engines holding x and y agree after
      exchanging them if and only if the stamps differ or the records are equal. */
  lemma PairConvergesIff(x: Record, y: Record)
    ensures Winner(x, y) == Winner(y, x) <==> !SameStamp(x, y) || x == y
  {
    NewerTrichotomy(x, y);
  }
}
