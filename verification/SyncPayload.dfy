/** Which value survives under the vector-clock policy. A concurrent merge picks
    the payload by wall time, so what users see depends on how the wall clocks of
    the writers relate to causality. */
module SyncPayload {
  import opened VectorClocks
  import opened OfflineSync
  import opened SyncSystem
  import opened SyncStamps

  // ---- assumptions a deployment can check at each write ---------------------

  predicate IsWrite(a: Action) {
    a.Put? || a.Delete?
  }

  /** The stamp of this write is not yet taken by any record of the key. */
  ghost predicate UnusedStamp(s: System, a: Action) {
    Enabled(s, a) && IsWrite(a) ==>
      forall x | x in s.born && x.key == a.key :: !(x.replicaId == a.r && x.wallTime == a.now)
  }

  /** The write is not stamped older than the record it replaces. */
  predicate WrittenLater(e: Replica, a: Action)
    requires IsWrite(a)
  {
    a.key in e.store ==> !Newer(e.store[a.key], Written(e, a.key, Null, a.now, false))
  }

  ghost predicate ClockAhead(s: System, a: Action) {
    Enabled(s, a) && IsWrite(a) ==> WrittenLater(s.replicas[a.r], a)
  }

  ghost predicate StampsUnused(s: System, actions: seq<Action>)
    decreases |actions|
  {
    actions != [] ==> UnusedStamp(s, actions[0]) && StampsUnused(Step(s, actions[0]), actions[1..])
  }

  ghost predicate ClocksAhead(s: System, actions: seq<Action>)
    decreases |actions|
  {
    actions != [] ==> ClockAhead(s, actions[0]) && ClocksAhead(Step(s, actions[0]), actions[1..])
  }

  // ---- invariants -----------------------------------------------------------

  /** Equal stamps carry equal payloads, across all merges. */
  ghost predicate StampsNamePayloads(born: Births) {
    forall x, y | x in born && y in born && x.key == y.key && SameStamp(x, y) :: SamePayload(x, y)
  }

  /** A record is never stamped older than what it was derived from. */
  ghost predicate StampsFollowClocks(born: Births) {
    forall x, y | x in born && y in born && x.key == y.key && Before(x.vector, y.vector) :: !Newer(x, y)
  }

  /** A user write is stamped newer than everything it replaces. */
  ghost predicate WritesAreNewest(born: Births) {
    forall x, w | x in born && w in born && born[w].call.Wrote? && x.key == w.key && Before(x.vector, w.vector) :: Newer(w, x)
  }

  /** A record together with everything it was derived from. */
  ghost function Seen(born: Births, y: Record): set<Record>
    requires y in born
  {
    born[y].past + {y}
  }

  ghost function WritesSeen(born: Births, y: Record): set<Record>
    requires y in born
  {
    set w | w in Seen(born, y) && w in born && born[w].call.Wrote?
  }

  /** Every record shows the payload of some user write it has seen. */
  ghost predicate ShowsWrite(born: Births, y: Record)
    requires y in born
  {
    exists w :: w in WritesSeen(born, y) && SamePayload(w, y)
  }

  ghost predicate PayloadsAreWritten(born: Births) {
    forall y | y in born :: ShowsWrite(born, y)
  }

  // ---- minting keeps them ---------------------------------------------------

  ghost predicate NoneNewer(parents: set<Record>, n: Record) {
    forall p | p in parents :: !Newer(p, n)
  }

  lemma MintKeepsStampsNamePayloads(born: Births, n: Record, o: Origin)
    requires StampsNamePayloads(born)
    requires forall x | x in born && x.key == n.key && SameStamp(x, n) :: SamePayload(x, n)
    ensures StampsNamePayloads(born[n := o])
  {
  }

  /** A record below a minted one is one of its parents or below one. */
  lemma ParentAbove(born: Births, r: string, n: Record, parents: set<Record>, x: Record) returns (p: Record)
    requires Ticked(born) && Causal(born) && Unique(born) && Mint(born, r, n, parents)
    requires x in born && x.key == n.key && Leq(x.vector, n.vector)
    ensures p in parents && p in born && p.key == n.key && (x == p || Before(x.vector, p.vector))
  {
    MintBelow(born, r, n, parents, x);
    p :| p in parents && Leq(x.vector, p.vector);
    if Leq(p.vector, x.vector) {
      PositiveAntisymmetric(x.vector, p.vector);
    }
  }

  lemma MintIsNewest(born: Births, r: string, n: Record, parents: set<Record>, x: Record)
    requires Ticked(born) && Causal(born) && Unique(born) && StampsFollowClocks(born)
    requires Mint(born, r, n, parents) && NoneNewer(parents, n)
    requires x in born && x.key == n.key && Leq(x.vector, n.vector)
    ensures !Newer(x, n)
  {
    var p := ParentAbove(born, r, n, parents, x);
    if x != p {
      assert !Newer(x, p);
      NewerTransitive(x, p, n);
    }
  }

  lemma MintKeepsStampsFollowClocks(born: Births, r: string, n: Record, parents: set<Record>, o: Origin)
    requires Ticked(born) && Causal(born) && Unique(born) && StampsFollowClocks(born)
    requires Mint(born, r, n, parents) && NoneNewer(parents, n)
    ensures StampsFollowClocks(born[n := o])
  {
    hide Mint, Ticked, Causal, Unique;
    var born' := born[n := o];
    forall x, y | x in born' && y in born' && x.key == y.key && Before(x.vector, y.vector) ensures !Newer(x, y) {
      if x == n && y != n {
        MintNotBelow(born, r, n, parents, y);
      } else if x != n && y == n {
        MintIsNewest(born, r, n, parents, x);
      }
    }
  }

  lemma MintKeepsWritesAreNewest(born: Births, r: string, n: Record, parents: set<Record>, o: Origin)
    requires Ticked(born) && Causal(born) && Unique(born) && StampsFollowClocks(born) && WritesAreNewest(born)
    requires Mint(born, r, n, parents) && NoneNewer(parents, n) && n !in born
    requires o.call.Wrote? ==> forall x | x in born && x.key == n.key :: !SameStamp(x, n)
    ensures WritesAreNewest(born[n := o])
  {
    hide Mint, Ticked, Causal, Unique, StampsFollowClocks;
    var born' := born[n := o];
    forall x, w | x in born' && w in born' && born'[w].call.Wrote? && x.key == w.key && Before(x.vector, w.vector)
      ensures Newer(w, x)
    {
      if x == n && w != n {
        MintNotBelow(born, r, n, parents, w);
      } else if x != n && w == n {
        MintIsNewest(born, r, n, parents, x);
        NewerTrichotomy(x, n);
      }
    }
  }

  lemma SeenGrows(born: Births, n: Record, o: Origin, y: Record)
    requires y in born && n !in born && Historic(born)
    ensures WritesSeen(born[n := o], y) == WritesSeen(born, y)
  {
  }

  lemma MintSeesParents(born: Births, n: Record, parents: set<Record>, o: Origin, p: Record)
    requires n !in born && p in parents && p in born && o.past == Closure(born, parents)
    ensures WritesSeen(born, p) <= WritesSeen(born[n := o], n)
  {
  }

  lemma MintShowsWrite(born: Births, n: Record, parents: set<Record>, o: Origin, p: Record)
    requires n !in born && o.past == Closure(born, parents)
    requires p in parents && p in born && SamePayload(p, n) && ShowsWrite(born, p)
    ensures ShowsWrite(born[n := o], n)
  {
    MintSeesParents(born, n, parents, o, p);
    var w :| w in WritesSeen(born, p) && SamePayload(w, p);
    assert w in WritesSeen(born[n := o], n);
  }

  lemma MintKeepsPayloadsAreWritten(born: Births, n: Record, parents: set<Record>, o: Origin)
    requires PayloadsAreWritten(born) && Historic(born) && n !in born && o.past == Closure(born, parents)
    requires o.call.Wrote? || exists p :: p in parents && p in born && SamePayload(p, n)
    ensures PayloadsAreWritten(born[n := o])
  {
    var born' := born[n := o];
    forall y | y in born' ensures ShowsWrite(born', y) {
      if y != n {
        assert ShowsWrite(born, y);
        SeenGrows(born, n, o, y);
      } else if o.call.Wrote? {
        assert n in WritesSeen(born', n);
      } else {
        var p :| p in parents && p in born && SamePayload(p, n);
        MintShowsWrite(born, n, parents, o, p);
      }
    }
  }

  // ---- so do writes and merges ----------------------------------------------

  /** Stamps keep following clocks as long as the minted record is not stamped
      older than a parent; user writes stay newest if their stamp is unused. */
  lemma MintKeepsOrder(born: Births, r: string, n: Record, parents: set<Record>, o: Origin)
    requires Ticked(born) && Causal(born) && Unique(born) && StampsFollowClocks(born)
    requires Mint(born, r, n, parents) && n !in born && NoneNewer(parents, n)
    ensures StampsFollowClocks(born[n := o])
    ensures WritesAreNewest(born) && (o.call.Wrote? ==> forall x | x in born && x.key == n.key :: !SameStamp(x, n)) ==>
              WritesAreNewest(born[n := o])
  {
    hide Mint, Ticked, Causal, Unique, StampsFollowClocks, WritesAreNewest;
    MintKeepsStampsFollowClocks(born, r, n, parents, o);
    if WritesAreNewest(born) && (o.call.Wrote? ==> forall x | x in born && x.key == n.key :: !SameStamp(x, n)) {
      MintKeepsWritesAreNewest(born, r, n, parents, o);
    }
  }

  ghost predicate Unused(born: Births, r: string, key: string, now: int) {
    forall x | x in born && x.key == key :: !(x.replicaId == r && x.wallTime == now)
  }

  lemma WriteKeepsOrder(s: System, r: string, key: string, value: Value, now: int, tombstone: bool)
    requires Inv(s) && r in s.replicas && StampsFollowClocks(s.born)
    requires key in s.replicas[r].store ==>
               !Newer(s.replicas[r].store[key], Written(s.replicas[r], key, value, now, tombstone))
    ensures StampsFollowClocks(WriteStep(s, r, key, value, now, tombstone).born)
    ensures WritesAreNewest(s.born) && Unused(s.born, r, key, now) ==>
              WritesAreNewest(WriteStep(s, r, key, value, now, tombstone).born)
  {
    hide Placed, Bounded, Ticked, Causal, Unique, Historic, Versioned, StampsFollowClocks, WritesAreNewest, Closure;
    var e := s.replicas[r];
    var n := Written(e, key, value, now, tombstone);
    WriteMints(s, r, key, value, now, tombstone);
    WriteKeepsInv(s, r, key, value, now, tombstone);
    MintKeepsOrder(s.born, r, n, Local(e, key), Origin(r, Wrote(value, tombstone, now), Closure(s.born, Local(e, key))));
  }

  lemma WriteKeepsNames(s: System, r: string, key: string, value: Value, now: int, tombstone: bool)
    requires Inv(s) && r in s.replicas
    ensures StampsNamePayloads(s.born) && Unused(s.born, r, key, now) ==>
              StampsNamePayloads(WriteStep(s, r, key, value, now, tombstone).born)
    ensures PayloadsAreWritten(s.born) ==> PayloadsAreWritten(WriteStep(s, r, key, value, now, tombstone).born)
  {
    var e := s.replicas[r];
    var n := Written(e, key, value, now, tombstone);
    var o := Origin(r, Wrote(value, tombstone, now), Closure(s.born, Local(e, key)));
    WriteKeepsInv(s, r, key, value, now, tombstone);
    if StampsNamePayloads(s.born) && Unused(s.born, r, key, now) {
      MintKeepsStampsNamePayloads(s.born, n, o);
    }
    if PayloadsAreWritten(s.born) {
      MintKeepsPayloadsAreWritten(s.born, n, Local(e, key), o);
    }
  }

  lemma MergedPayload(id: string, local: Record, remote: Record)
    ensures var n := Merged(id, local, remote);
            (SamePayload(n, local) || SamePayload(n, remote)) && NoneNewer({local, remote}, n)
  {
    NewerTrichotomy(local, remote);
    NewerTrichotomy(local, local);
    NewerTrichotomy(remote, remote);
  }

  /** The record a merging delivery adds. */
  lemma MergeBirth(s: System, r: string, record: Record)
    requires Inv(s) && r in s.replicas && record in s.born && Merges(s.replicas[r], record)
    ensures var local := s.replicas[r].store[record.key];
            var n := Merged(r, local, record);
            var parents := {local, record};
            && local in s.born && local.key == record.key && n !in s.born && Mint(s.born, r, n, parents)
            && DeliverStep(s, r, record).born == s.born[n := Origin(r, Joined, Closure(s.born, parents))]
  {
    MergeMints(s, r, record);
    MergeKeepsInv(s, r, record);
  }

  lemma MergeKeepsOrder(s: System, r: string, record: Record)
    requires Inv(s) && r in s.replicas && record in s.born && Merges(s.replicas[r], record)
    requires StampsFollowClocks(s.born)
    ensures StampsFollowClocks(DeliverStep(s, r, record).born)
    ensures WritesAreNewest(s.born) ==> WritesAreNewest(DeliverStep(s, r, record).born)
  {
    var local := s.replicas[r].store[record.key];
    MergeBirth(s, r, record);
    MergedPayload(r, local, record);
    MintKeepsOrder(s.born, r, Merged(r, local, record), {local, record},
                   Origin(r, Joined, Closure(s.born, {local, record})));
  }

  /** A minted record with the payload of a parent adds no new meaning to a stamp. */
  lemma CopyKeepsNames(born: Births, n: Record, p: Record, parents: set<Record>, o: Origin)
    requires p in born && p in parents && p.key == n.key && SamePayload(p, n) && n !in born
    requires Historic(born) && o.past == Closure(born, parents)
    ensures StampsNamePayloads(born) ==> StampsNamePayloads(born[n := o])
    ensures PayloadsAreWritten(born) ==> PayloadsAreWritten(born[n := o])
  {
    hide PayloadsAreWritten, Historic, Closure;
    if StampsNamePayloads(born) {
      forall x | x in born && x.key == n.key && SameStamp(x, n) ensures SamePayload(x, n) {
        assert SamePayload(x, p);
      }
      MintKeepsStampsNamePayloads(born, n, o);
    }
    if PayloadsAreWritten(born) {
      MintKeepsPayloadsAreWritten(born, n, parents, o);
    }
  }

  lemma MergeKeepsNames(s: System, r: string, record: Record)
    requires Inv(s) && r in s.replicas && record in s.born && Merges(s.replicas[r], record)
    ensures StampsNamePayloads(s.born) ==> StampsNamePayloads(DeliverStep(s, r, record).born)
    ensures PayloadsAreWritten(s.born) ==> PayloadsAreWritten(DeliverStep(s, r, record).born)
  {
    var local := s.replicas[r].store[record.key];
    MergeBirth(s, r, record);
    CopyKeepsNames(s.born, Merged(r, local, record), Winner(local, record), {local, record},
                   Origin(r, Joined, Closure(s.born, {local, record})));
  }

  lemma StepKeepsNames(s: System, a: Action)
    requires Inv(s)
    ensures StampsNamePayloads(s.born) && UnusedStamp(s, a) ==> StampsNamePayloads(Step(s, a).born)
    ensures PayloadsAreWritten(s.born) ==> PayloadsAreWritten(Step(s, a).born)
  {
    hide Inv, StampsNamePayloads, PayloadsAreWritten, StampsFollowClocks, WritesAreNewest;
    if Enabled(s, a) {
      match a
      case Put(r, key, value, now) => WriteKeepsNames(s, r, key, value, now, false);
      case Delete(r, key, now) => WriteKeepsNames(s, r, key, Null, now, true);
      case Deliver(r, record) => if Merges(s.replicas[r], record) { MergeKeepsNames(s, r, record); }
    }
  }

  lemma StepKeepsOrder(s: System, a: Action)
    requires Inv(s) && StampsFollowClocks(s.born) && ClockAhead(s, a)
    ensures StampsFollowClocks(Step(s, a).born)
    ensures WritesAreNewest(s.born) && UnusedStamp(s, a) ==> WritesAreNewest(Step(s, a).born)
  {
    hide Inv, StampsNamePayloads, PayloadsAreWritten, StampsFollowClocks, WritesAreNewest;
    if Enabled(s, a) {
      match a
      case Put(r, key, value, now) => WriteKeepsOrder(s, r, key, value, now, false);
      case Delete(r, key, now) => WriteKeepsOrder(s, r, key, Null, now, true);
      case Deliver(r, record) => if Merges(s.replicas[r], record) { MergeKeepsOrder(s, r, record); }
    }
  }

  // ---- runs -----------------------------------------------------------------

  lemma {:induction false} RunStamps(s: System, actions: seq<Action>)
    requires Inv(s) && StampsNamePayloads(s.born) && StampsUnused(s, actions)
    ensures StampsNamePayloads(Run(s, actions).born)
    decreases |actions|
  {
    hide Inv, StampsNamePayloads, PayloadsAreWritten, StampsFollowClocks, WritesAreNewest;
    if actions != [] {
      StepKeepsInv(s, actions[0]);
      StepKeepsNames(s, actions[0]);
      RunStamps(Step(s, actions[0]), actions[1..]);
    }
  }

  lemma {:induction false} RunPayloads(s: System, actions: seq<Action>)
    requires Inv(s) && PayloadsAreWritten(s.born)
    ensures PayloadsAreWritten(Run(s, actions).born)
    decreases |actions|
  {
    hide Inv, StampsNamePayloads, PayloadsAreWritten, StampsFollowClocks, WritesAreNewest;
    if actions != [] {
      StepKeepsInv(s, actions[0]);
      StepKeepsNames(s, actions[0]);
      RunPayloads(Step(s, actions[0]), actions[1..]);
    }
  }

  lemma {:induction false} RunFollows(s: System, actions: seq<Action>)
    requires Inv(s) && StampsFollowClocks(s.born) && ClocksAhead(s, actions)
    ensures StampsFollowClocks(Run(s, actions).born)
    ensures WritesAreNewest(s.born) && StampsUnused(s, actions) ==> WritesAreNewest(Run(s, actions).born)
    decreases |actions|
  {
    hide Inv, StampsNamePayloads, PayloadsAreWritten, StampsFollowClocks, WritesAreNewest;
    if actions != [] {
      StepKeepsInv(s, actions[0]);
      StepKeepsOrder(s, actions[0]);
      RunFollows(Step(s, actions[0]), actions[1..]);
    }
  }

  /** If no replica reuses a stamp for a key, a stamp determines the payload in
      every reachable state, no matter how often it was merged along. */
  lemma StampsDeterminePayloads(s: System, actions: seq<Action>, x: Record, y: Record)
    requires Init(s) && StampsUnused(s, actions)
    requires x in Run(s, actions).born && y in Run(s, actions).born && x.key == y.key && SameStamp(x, y)
    ensures SamePayload(x, y)
  {
    InitInv(s);
    RunStamps(s, actions);
  }

  lemma NewestSeen(born: Births, y: Record, x: Record)
    requires Historic(born) && StampsFollowClocks(born) && y in born && x in Seen(born, y)
    ensures x in born && x.key == y.key && !Newer(x, y)
  {
    NewerTrichotomy(y, y);
    if x != y {
      assert x in born[y].past;
    }
  }

  lemma SameStampOrder(w: Record, y: Record, x: Record)
    requires SameStamp(w, y)
    ensures Newer(x, w) == Newer(x, y) && Newer(w, x) == Newer(y, x)
  {
  }

  /** If writers' clocks run ahead of what they overwrite, every record shows the
      newest of all user writes it was derived from. */
  lemma PayloadIsNewestWriteSeen(s: System, actions: seq<Action>, y: Record) returns (w: Record)
    requires Init(s) && ClocksAhead(s, actions) && y in Run(s, actions).born
    ensures var born := Run(s, actions).born;
            w in WritesSeen(born, y) && SamePayload(w, y) && forall x | x in Seen(born, y) :: !Newer(x, w)
  {
    hide Placed, Bounded, Ticked, Causal, Unique, Historic, Versioned;
    InitInv(s);
    RunKeepsInv(s, actions);
    RunPayloads(s, actions);
    RunFollows(s, actions);
    w := NewestWrite(Run(s, actions).born, y);
  }

  lemma NewestWrite(born: Births, y: Record) returns (w: Record)
    requires Historic(born) && StampsFollowClocks(born) && PayloadsAreWritten(born) && y in born
    ensures w in WritesSeen(born, y) && SamePayload(w, y) && forall x | x in Seen(born, y) :: !Newer(x, w)
  {
    hide Historic, StampsFollowClocks;
    assert ShowsWrite(born, y);
    w :| w in WritesSeen(born, y) && SamePayload(w, y);
    forall x | x in Seen(born, y) ensures !Newer(x, w) {
      NewestSeen(born, y, x);
      SameStampOrder(w, y, x);
    }
  }

  /** Strong convergence of the vector-clock policy: replicas whose records have
      seen the same user writes show the same payload, however the writes were
      delivered, merged and re-merged on the way. */
  lemma SameWritesSamePayload(s: System, actions: seq<Action>, y1: Record, y2: Record)
    requires Init(s) && ClocksAhead(s, actions) && StampsUnused(s, actions)
    requires var born := Run(s, actions).born;
             y1 in born && y2 in born && WritesSeen(born, y1) == WritesSeen(born, y2)
    ensures SamePayload(y1, y2)
  {
    var born := Run(s, actions).born;
    var w1 := PayloadIsNewestWriteSeen(s, actions, y1);
    var w2 := PayloadIsNewestWriteSeen(s, actions, y2);
    NewerTrichotomy(w1, w2);
    InitInv(s);
    RunKeepsInv(s, actions);
    SeenHasKey(born, y1, w1);
    SeenHasKey(born, y1, w2);
    StampsDeterminePayloads(s, actions, w1, w2);
  }

  lemma SeenHasKey(born: Births, y: Record, w: Record)
    requires Historic(born) && y in born && w in Seen(born, y)
    ensures w in born && w.key == y.key
  {
  }

  /** What a write replaced never comes back: a record that has seen the write
      shows the write or something newer. A deletion stays a deletion. */
  lemma ReplacedNeverReturns(s: System, actions: seq<Action>, x: Record, w: Record, y: Record)
    requires Init(s) && ClocksAhead(s, actions) && StampsUnused(s, actions)
    requires var born := Run(s, actions).born;
             y in born && w in WritesSeen(born, y) && x in born[w].past
    ensures !SameStamp(x, y) && Newer(y, x)
  {
    InitInv(s);
    RunKeepsInv(s, actions);
    RunFollows(s, actions);
    Replaced(Run(s, actions).born, x, w, y);
  }

  lemma Replaced(born: Births, x: Record, w: Record, y: Record)
    requires Historic(born) && StampsFollowClocks(born) && WritesAreNewest(born)
    requires y in born && w in WritesSeen(born, y) && x in born[w].past
    ensures !SameStamp(x, y) && Newer(y, x)
  {
    assert x in born && Newer(w, x);
    NewestSeen(born, y, w);
    NewerTransitive(y, w, x);
    NewerTransitive(w, y, x);
    NewerTrichotomy(y, x);
  }

  /** A write keeps stamps in step with causality if and only if its wall clock is
      not behind the record it replaces. */
  lemma WriteKeepsOrderIff(s: System, a: Action)
    requires Inv(s) && StampsFollowClocks(s.born) && IsWrite(a) && Enabled(s, a)
    ensures StampsFollowClocks(Step(s, a).born) <==> WrittenLater(s.replicas[a.r], a)
  {
    if WrittenLater(s.replicas[a.r], a) {
      StepKeepsOrder(s, a);
    } else {
      var e := s.replicas[a.r];
      var n := Written(e, a.key, if a.Put? then a.value else Null, a.now, a.Delete?);
      var local := e.store[a.key];
      TickAdvances(local.vector, a.r);
      assert local in Step(s, a).born && n in Step(s, a).born && Newer(local, n);
    }
  }
}
