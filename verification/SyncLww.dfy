/** Any number of last-write-wins replicas that write and exchange records over a
    network that loses, duplicates and reorders them. */
module SyncLww {
  import opened OfflineSync
  import opened SyncStamps
  import opened SyncSystem
  import opened SyncPayload
  import opened SyncConvergence

  /** The replicas, what each wrote or was delivered, and every record ever written
      with the call that wrote it. */
  datatype Net = Net(replicas: map<string, Replica>, seen: map<string, set<Record>>, calls: map<Record, Call>)

  ghost predicate Start(s: Net) {
    && s.calls == map[] && s.seen.Keys == s.replicas.Keys
    && forall r | r in s.replicas :: s.replicas[r] == Replica(r, LastWriteWins, map[], [], []) && s.seen[r] == {}
  }

  ghost predicate Possible(s: Net, a: Action) {
    a.r in s.replicas && a.r in s.seen && (a.Deliver? ==> a.record in s.calls)
  }

  function Made(e: Replica, a: Action): Record
    requires IsWrite(a)
  {
    Written(e, a.key, if a.Put? then a.value else Null, a.now, a.Delete?)
  }

  ghost function After(s: Net, a: Action): Net {
    if !Possible(s, a) then s
    else if a.Deliver? then
      Net(s.replicas[a.r := AfterApply(s.replicas[a.r], a.record)], s.seen[a.r := s.seen[a.r] + {a.record}], s.calls)
    else
      var e := s.replicas[a.r];
      var n := Made(e, a);
      Net(s.replicas[a.r := AfterWrite(e, a.key, n.value, a.now, a.Delete?)], s.seen[a.r := s.seen[a.r] + {n}], s.calls[n := CallOf(a)])
  }

  ghost function AfterAll(s: Net, actions: seq<Action>): Net
    decreases |actions|
  {
    if actions == [] then s else AfterAll(After(s, actions[0]), actions[1..])
  }

  // ---- the conditions on writes ---------------------------------------------

  /** No record of the key has this stamp yet. */
  ghost predicate NewStamp(s: Net, a: Action) {
    Possible(s, a) && IsWrite(a) ==>
      forall x | x in s.calls && x.key == a.key :: !(x.replicaId == a.r && x.wallTime == a.now)
  }

  ghost predicate NotBehind(s: Net, a: Action) {
    Possible(s, a) && IsWrite(a) ==> WrittenLater(s.replicas[a.r], a)
  }

  ghost predicate NewStamps(s: Net, actions: seq<Action>)
    decreases |actions|
  {
    actions != [] ==> NewStamp(s, actions[0]) && NewStamps(After(s, actions[0]), actions[1..])
  }

  ghost predicate NeverBehind(s: Net, actions: seq<Action>)
    decreases |actions|
  {
    actions != [] ==> NotBehind(s, actions[0]) && NeverBehind(After(s, actions[0]), actions[1..])
  }

  // ---- what every run keeps -------------------------------------------------

  ghost predicate Sound(s: Net) {
    && s.seen.Keys == s.replicas.Keys
    && forall r | r in s.replicas ::
         && s.replicas[r].id == r && s.replicas[r].policy.LastWriteWins?
         && s.seen[r] <= s.calls.Keys
         && KeyedByKey(s.replicas[r].store) && s.replicas[r].store.Values <= s.calls.Keys
  }

  ghost predicate AllGreatest(s: Net) {
    s.seen.Keys == s.replicas.Keys &&
    forall r | r in s.replicas :: HoldsGreatest(s.replicas[r].store, s.seen[r])
  }

  lemma UpdateValues(store: map<string, Record>, key: string, n: Record, sent: set<Record>)
    requires store.Values <= sent + {n} && KeyedByKey(store) && n.key == key
    ensures store[key := n].Values <= sent + {n} && KeyedByKey(store[key := n])
  {
  }

  lemma StepKeepsSound(s: Net, a: Action)
    requires Sound(s)
    ensures Sound(After(s, a))
  {
    hide KeyedByKey, Newer;
    if Possible(s, a) {
      var e := s.replicas[a.r];
      if a.Deliver? {
        UpdateValues(e.store, a.record.key, a.record, s.calls.Keys);
        if a.record.key in e.store {
          StoredKey(e.store, a.record.key);
          UpdateValues(e.store, a.record.key, e.store[a.record.key], s.calls.Keys);
        }
      } else {
        UpdateValues(e.store, a.key, Made(e, a), s.calls.Keys);
      }
    }
  }

  lemma StoredKey(store: map<string, Record>, key: string)
    requires KeyedByKey(store) && key in store
    ensures store[key].key == key && store[key] in store.Values
  {
  }

  lemma StepKeepsNames(s: Net, a: Action)
    requires Sound(s) && StampsNameRecords(s.calls.Keys) && NewStamp(s, a)
    ensures StampsNameRecords(After(s, a).calls.Keys)
  {
  }

  lemma WriteKeepsGreatestIff(e: Replica, a: Action, seen: set<Record>)
    requires IsWrite(a) && HoldsGreatest(e.store, seen)
    ensures HoldsGreatest(e.store[a.key := Made(e, a)], seen + {Made(e, a)}) <==> WrittenLater(e, a)
  {
    var n := Made(e, a);
    NewerTrichotomy(n, n);
    if a.key in e.store {
      var x := e.store[a.key];
      assert Greatest(x, a.key, seen);
      if WrittenLater(e, a) {
        forall c | c in seen && c.key == a.key ensures !Newer(c, n) {
          NewerTransitive(c, x, n);
        }
      } else {
        assert x in seen + {n} && Newer(x, n);
      }
    }
    if WrittenLater(e, a) {
      assert Greatest(n, a.key, seen + {n});
    }
  }

  lemma StepKeepsGreatest(s: Net, a: Action)
    requires Sound(s) && AllGreatest(s) && NotBehind(s, a)
    ensures AllGreatest(After(s, a))
  {
    hide HoldsGreatest, KeyedByKey, WrittenLater;
    if Possible(s, a) {
      if a.Deliver? {
        WinnerIsGreatest(s.replicas[a.r], a.record, s.seen[a.r]);
      } else {
        WriteKeepsGreatestIff(s.replicas[a.r], a, s.seen[a.r]);
      }
    }
  }

  lemma {:induction false} RunKeepsSound(s: Net, actions: seq<Action>)
    requires Sound(s)
    ensures Sound(AfterAll(s, actions))
    ensures StampsNameRecords(s.calls.Keys) && NewStamps(s, actions) ==> StampsNameRecords(AfterAll(s, actions).calls.Keys)
    ensures AllGreatest(s) && NeverBehind(s, actions) ==> AllGreatest(AfterAll(s, actions))
    decreases |actions|
  {
    hide Sound, StampsNameRecords, AllGreatest, After, NewStamp, NotBehind;
    if actions != [] {
      StepKeepsSound(s, actions[0]);
      if StampsNameRecords(s.calls.Keys) && NewStamp(s, actions[0]) {
        StepKeepsNames(s, actions[0]);
      }
      if AllGreatest(s) && NotBehind(s, actions[0]) {
        StepKeepsGreatest(s, actions[0]);
      }
      RunKeepsSound(After(s, actions[0]), actions[1..]);
    }
  }

  lemma StartIsSound(s: Net)
    requires Start(s)
    ensures Sound(s) && StampsNameRecords(s.calls.Keys) && AllGreatest(s)
  {
  }

  // ---- the theorems ---------------------------------------------------------

  /** If no replica reuses a stamp for a key, a stamp names one record in every
      reachable state, and every store holds records that were sent. */
  lemma ReachableStampsName(s: Net, actions: seq<Action>, r: string)
    requires Start(s) && NewStamps(s, actions) && r in AfterAll(s, actions).replicas
    ensures var t := AfterAll(s, actions);
            && StampsNameRecords(t.calls.Keys)
            && t.replicas[r].policy.LastWriteWins? && KeyedByKey(t.replicas[r].store)
            && t.replicas[r].store.Values <= t.calls.Keys
  {
    StartIsSound(s);
    RunKeepsSound(s, actions);
  }

  /** Any two replicas of a running system that had or are sent the same records end
      with the same store, in any order and with any duplication. */
  lemma ReachableConverge(s: Net, actions: seq<Action>, r1: string, r2: string, to1: seq<Record>, to2: seq<Record>)
    requires Start(s) && NewStamps(s, actions)
    requires r1 in AfterAll(s, actions).replicas && r2 in AfterAll(s, actions).replicas
    requires var t := AfterAll(s, actions);
             Sent(to1) <= t.calls.Keys && Sent(to2) <= t.calls.Keys &&
             Candidates(t.replicas[r1].store, to1) == Candidates(t.replicas[r2].store, to2)
    ensures var t := AfterAll(s, actions);
            AfterApplyAll(t.replicas[r1], to1).store == AfterApplyAll(t.replicas[r2], to2).store
  {
    var t := AfterAll(s, actions);
    ReachableStampsName(s, actions, r1);
    ReachableStampsName(s, actions, r2);
    FewerNames(Candidates(t.replicas[r1].store, to1), t.calls.Keys);
    LwwConverges(t.replicas[r1], to1, t.replicas[r2], to2);
  }

  lemma FewerNames(few: set<Record>, many: set<Record>)
    requires few <= many && StampsNameRecords(many)
    ensures StampsNameRecords(few)
  {
  }

  /** Strong eventual consistency over whole runs, local writes included: with
      unused stamps and no write behind what it replaces, replicas that have seen
      the same records hold the same store. */
  lemma SameSeenSameStore(s: Net, actions: seq<Action>, r1: string, r2: string)
    requires Start(s) && NewStamps(s, actions) && NeverBehind(s, actions)
    requires var t := AfterAll(s, actions);
             r1 in t.replicas && r2 in t.replicas && r1 in t.seen && r2 in t.seen && t.seen[r1] == t.seen[r2]
    ensures AfterAll(s, actions).replicas[r1].store == AfterAll(s, actions).replicas[r2].store
  {
    var t := AfterAll(s, actions);
    StartIsSound(s);
    RunKeepsSound(s, actions);
    FewerNames(t.seen[r1], t.calls.Keys);
    GreatestIsUnique(t.replicas[r1].store, t.replicas[r2].store, t.seen[r1]);
  }

  /** The condition on the wall clock is exact: a replica that wrote agrees with a
      new replica that is sent everything it has seen, in any order, if and only if
      the write was not behind what it replaced. */
  lemma LateWriteSplitsIff(e: Replica, a: Action, seen: set<Record>, q: Replica, records: seq<Record>)
    requires IsWrite(a) && HoldsGreatest(e.store, seen) && StampsNameRecords(seen + {Made(e, a)})
    requires q.policy.LastWriteWins? && q.store == map[] && Sent(records) == seen + {Made(e, a)}
    ensures AfterApplyAll(q, records).store == AfterWrite(e, a.key, Made(e, a).value, a.now, a.Delete?).store <==>
            WrittenLater(e, a)
  {
    var n := Made(e, a);
    DeliveryHoldsGreatest(q, records, {});
    assert {} + Sent(records) == seen + {n};
    WriteKeepsGreatestIff(e, a, seen);
    if WrittenLater(e, a) {
      GreatestIsUnique(AfterApplyAll(q, records).store, e.store[a.key := n], seen + {n});
    }
  }

  // ---- what a reader sees ------------------------------------------------------

  /** Every record shows the arguments of the call that wrote it. */
  ghost predicate CallsShown(s: Net) {
    forall w | w in s.calls ::
      && s.calls[w].Wrote?
      && w.value == s.calls[w].value && w.tombstone == s.calls[w].deleted && w.wallTime == s.calls[w].time
  }

  lemma {:induction false} RunKeepsCalls(s: Net, actions: seq<Action>)
    requires CallsShown(s)
    ensures CallsShown(AfterAll(s, actions))
    decreases |actions|
  {
    hide CallsShown, After;
    if actions != [] {
      StepKeepsCalls(s, actions[0]);
      RunKeepsCalls(After(s, actions[0]), actions[1..]);
    }
  }

  lemma StepKeepsCalls(s: Net, a: Action)
    requires CallsShown(s)
    ensures CallsShown(After(s, a))
  {
    hide AfterWrite, AfterApply;
  }

  /** A read at any replica, after any run, returns the argument of a call the replica
      has seen that no other call it has seen for the key was made later than, and
      nothing if that call was a deletion. */
  lemma ReadsLatestCall(s: Net, actions: seq<Action>, r: string, key: string) returns (w: Record)
    requires Start(s) && NewStamps(s, actions) && NeverBehind(s, actions)
    requires r in AfterAll(s, actions).replicas && key in AfterAll(s, actions).replicas[r].store
    ensures var t := AfterAll(s, actions);
            && r in t.seen && w in t.seen[r] && w in t.calls && w.key == key && t.calls[w].Wrote?
            && Reads(t.replicas[r], key) == (if t.calls[w].deleted then Null else t.calls[w].value)
            && forall x | x in t.seen[r] && x.key == key :: x in t.calls && t.calls[x].Wrote? && t.calls[x].time <= t.calls[w].time
  {
    var t := AfterAll(s, actions);
    StartIsSound(s);
    RunKeepsSound(s, actions);
    RunKeepsCalls(s, actions);
    w := t.replicas[r].store[key];
    assert Greatest(w, key, t.seen[r]);
    assert t.seen[r] <= t.calls.Keys;
    forall x | x in t.seen[r] && x.key == key ensures x in t.calls && t.calls[x].Wrote? && t.calls[x].time <= t.calls[w].time {
      assert x in t.calls && !Newer(x, w);
    }
  }
}
