/** What a reader sees, told by the calls that were made and not by the records
    they left. */
module SyncReads {
  import opened StringOrder
  import opened VectorClocks
  import opened OfflineSync
  import opened SyncStamps
  import opened SyncSystem
  import opened SyncPayload

  // ---- one engine -------------------------------------------------------------

  /** A read after a write is told what was written, or nothing after a deletion,
      whatever the key held before; every other key reads as before, and the write
      is one version and one own tick on. */
  lemma WriteThenRead(e: Replica, key: string, value: Value, now: int, tombstone: bool, other: string)
    ensures var e' := AfterWrite(e, key, value, now, tombstone);
            && Reads(e', key) == (if tombstone then Null else value)
            && (other != key ==> Reads(e', other) == Reads(e, other))
            && key in e'.store && e'.store[key].replicaId == e.id && e'.store[key].wallTime == now
            && e'.queue == e.queue + [e'.store[key]] && e'.conflicts == e.conflicts
            && e'.store[key].version == 1 + (if key in e.store then e.store[key].version else 0)
            && At(e'.store[key].vector, e.id) == 1 + (if key in e.store then At(e.store[key].vector, e.id) else 0)
            && (other != e.id ==>
                  At(e'.store[key].vector, other) == if key in e.store then At(e.store[key].vector, other) else 0)
  {
  }

  /** A record for a key that the engine does not have is read as it was sent. */
  lemma FirstRecordIsRead(e: Replica, remote: Record)
    requires remote.key !in e.store
    ensures Reads(AfterApply(e, remote), remote.key) == if remote.tombstone then Null else remote.value
    ensures AfterApply(e, remote).conflicts == e.conflicts && StatusOf(e, remote) == Synced("remote")
  {
  }

  /** The last write wins: the later wall time stays, a tie goes to the greater
      replica identifier, and the same stamp twice leaves what was there. */
  lemma LastWriteWins(e: Replica, remote: Record)
    requires e.policy.LastWriteWins? && remote.key in e.store
    ensures var local := e.store[remote.key];
            var kept := AfterApply(e, remote).store[remote.key];
            && (local.wallTime < remote.wallTime ==> kept == remote)
            && (local.wallTime > remote.wallTime ==> kept == local)
            && (local.wallTime == remote.wallTime ==> kept == if Less(local.replicaId, remote.replicaId) then remote else local)
  {
  }

  /** What two records that have not seen each other are merged into: the later wall
      time and the greater identifier decide the payload as under last-write-wins,
      and the version is one above both. */
  lemma LastWriteWinsMerges(e: Replica, remote: Record)
    requires e.policy.VectorClockPolicy? && remote.key in e.store
    requires Clash(e.store[remote.key], remote)
    ensures var local := e.store[remote.key];
            var kept := AfterApply(e, remote).store[remote.key];
            && (local.wallTime < remote.wallTime ==> SamePayload(kept, remote))
            && (local.wallTime > remote.wallTime ==> SamePayload(kept, local))
            && (local.wallTime == remote.wallTime ==>
                  SamePayload(kept, if Less(local.replicaId, remote.replicaId) then remote else local))
            && kept.version > local.version && kept.version > remote.version
            && (kept.version == local.version + 1 || kept.version == remote.version + 1)
  {
  }

  /** A conflict report tells the truth: it names the two records, the winner it
      names is the record that is kept, and the reason it gives is the comparison
      that decided. */
  lemma ConflictTellsTruth(e: Replica, remote: Record)
    requires remote.key in e.store && AfterApply(e, remote).conflicts != e.conflicts
    ensures var e' := AfterApply(e, remote);
            var local := e.store[remote.key];
            var c := e'.conflicts[|e'.conflicts| - 1];
            && e'.conflicts == e.conflicts + [c]
            && c.local == local && c.remote == remote && c.key == local.key && c.policy == e.policy
            && (c.winner == "remote" ==> e'.store[remote.key] == remote)
            && (c.winner == "local" ==> e'.store[remote.key] == local)
            && (c.winner in {"remote", "local"} <==> e.policy.LastWriteWins?)
            && (c.winner == "merged_lww_fallback" <==> e.policy.VectorClockPolicy?)
            && var reason := if e.policy.LastWriteWins? then c.reason
                             else (if "concurrent_then_" <= c.reason then c.reason[|"concurrent_then_"|..] else "");
            && (reason == "remote_newer_wall_time" <==> remote.wallTime > local.wallTime)
            && (reason == "local_newer_wall_time" <==> remote.wallTime < local.wallTime)
            && (reason == "tie_break_replica_id" <==> remote.wallTime == local.wallTime)
  {
    ReasonTellsTruth(local := e.store[remote.key], remote := remote);
    var local := e.store[remote.key];
    if e.policy.VectorClockPolicy? {
      assert ("concurrent_then_" + LwwReason(local, remote))[|"concurrent_then_"|..] == LwwReason(local, remote);
    }
  }

  lemma ReasonTellsTruth(local: Record, remote: Record)
    ensures LwwReason(local, remote) == "remote_newer_wall_time" <==> remote.wallTime > local.wallTime
    ensures LwwReason(local, remote) == "local_newer_wall_time" <==> remote.wallTime < local.wallTime
    ensures LwwReason(local, remote) == "tie_break_replica_id" <==> remote.wallTime == local.wallTime
  {
    assert "remote_newer_wall_time"[0] == 'r' && "local_newer_wall_time"[0] == 'l' && "tie_break_replica_id"[0] == 't';
  }

  // ---- whole runs ---------------------------------------------------------------

  /** A record made by a call shows the arguments of the call, its time and who made it. */
  ghost predicate ShowsCall(w: Record, o: Origin) {
    o.call.Wrote? ==>
      w.value == o.call.value && w.tombstone == o.call.deleted && w.wallTime == o.call.time && w.replicaId == o.maker
  }

  ghost predicate CallsShown(born: Births) {
    forall w | w in born :: ShowsCall(w, born[w])
  }

  lemma StepKeepsCalls(s: System, a: Action)
    requires Placed(s) && CallsShown(s.born)
    ensures CallsShown(Step(s, a).born)
  {
    hide Clash, Merged, Closure, AfterWrite, AfterApply;
    if Enabled(s, a) && IsWrite(a) {
      HasName(s, a.r);
    }
  }

  lemma HasName(s: System, r: string)
    requires Placed(s) && r in s.replicas
    ensures s.replicas[r].id == r
  {
  }

  lemma {:induction false} RunKeepsCalls(s: System, actions: seq<Action>)
    requires Inv(s) && CallsShown(s.born)
    ensures CallsShown(Run(s, actions).born)
    decreases |actions|
  {
    hide Bounded, Ticked, Causal, Unique, Historic, Versioned, Placed, CallsShown, Step;
    if actions != [] {
      StepKeepsInv(s, actions[0]);
      StepKeepsCalls(s, actions[0]);
      RunKeepsCalls(Step(s, actions[0]), actions[1..]);
    }
  }

  /** Call x was stamped later than call w, by the time it was made at and then by
      who made it. */
  predicate Later(x: Origin, w: Origin) {
    && x.call.Wrote? && w.call.Wrote?
    && (x.call.time > w.call.time || (x.call.time == w.call.time && Less(w.maker, x.maker)))
  }

  /** Every record in the system shows the argument of the newest call it has seen,
      and is a tombstone exactly if that call was a deletion. */
  lemma ShowsNewestCall(s: System, actions: seq<Action>, y: Record) returns (w: Record)
    requires Init(s) && ClocksAhead(s, actions) && y in Run(s, actions).born
    ensures var born := Run(s, actions).born;
            && w in WritesSeen(born, y)
            && y.value == born[w].call.value && y.tombstone == born[w].call.deleted
            && forall x | x in WritesSeen(born, y) :: !Later(born[x], born[w])
  {
    hide Inv, CallsShown, StampsFollowClocks, ClocksAhead, WritesSeen;
    var born := Run(s, actions).born;
    InitInv(s);
    NoCallsYet(s);
    RunKeepsInv(s, actions);
    RunKeepsCalls(s, actions);
    w := PayloadIsNewestWriteSeen(s, actions, y);
    NewestByCall(born, y, w);
  }

  lemma NoCallsYet(s: System)
    requires Init(s)
    ensures CallsShown(s.born)
  {
  }

  lemma NewestByCall(born: Births, y: Record, w: Record)
    requires CallsShown(born) && y in born && w in WritesSeen(born, y) && SamePayload(w, y)
    requires forall x | x in Seen(born, y) :: !Newer(x, w)
    ensures y.value == born[w].call.value && y.tombstone == born[w].call.deleted
    ensures forall x | x in WritesSeen(born, y) :: !Later(born[x], born[w])
  {
    assert ShowsCall(w, born[w]);
    forall x | x in WritesSeen(born, y) ensures !Later(born[x], born[w]) {
      assert ShowsCall(x, born[x]) && x in Seen(born, y);
    }
  }

  /** A read at any replica, after any run, returns the argument of the newest call
      its record has seen, and nothing if that call was a deletion. */
  lemma ReadsNewestCall(s: System, actions: seq<Action>, r: string, key: string) returns (w: Record)
    requires Init(s) && ClocksAhead(s, actions)
    requires r in Run(s, actions).replicas && key in Run(s, actions).replicas[r].store
    ensures var t := Run(s, actions);
            var y := t.replicas[r].store[key];
            && y in t.born && w in WritesSeen(t.born, y)
            && Reads(t.replicas[r], key) == (if t.born[w].call.deleted then Null else t.born[w].call.value)
            && forall x | x in WritesSeen(t.born, y) :: !Later(t.born[x], t.born[w])
  {
    InitInv(s);
    RunKeepsInv(s, actions);
    HasItsName(Run(s, actions), r);
    w := ShowsNewestCall(s, actions, Run(s, actions).replicas[r].store[key]);
  }

  /** The call just made is among the calls the record has seen. */
  lemma WriteIsSeen(s: System, actions: seq<Action>, a: Action)
    requires Init(s) && Enabled(Run(s, actions), a) && IsWrite(a)
    ensures var t := Step(Run(s, actions), a);
            && a.r in t.replicas && a.key in t.replicas[a.r].store
            && var n := t.replicas[a.r].store[a.key];
            && n in t.born && n in WritesSeen(t.born, n)
            && t.born[n].call == CallOf(a) && t.born[n].maker == a.r
            && Reads(t.replicas[a.r], a.key) == if a.Put? then a.value else Null
  {
    hide Inv, Closure;
  }
}
