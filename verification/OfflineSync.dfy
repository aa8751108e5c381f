/** One replica of the offline sync engine: records, the two conflict policies,
    and the engine object whose store, queue and conflict log change in place. */
module OfflineSync {
  import opened StringOrder
  import opened VectorClocks

  /** A stored JSON value; deletion stores `Null`. */
  datatype Value = Null | Json(text: string)

  datatype Policy = LastWriteWins | VectorClockPolicy

  datatype Record = Record(
    key: string,
    value: Value,
    replicaId: string,
    wallTime: int,
    vector: Clock,
    version: int,
    tombstone: bool)

  datatype Conflict = Conflict(
    key: string,
    local: Record,
    remote: Record,
    policy: Policy,
    winner: string,
    reason: string)

  /** What `apply_remote` reports. */
  datatype Status = Synced(applied: string) | Resolved(info: Conflict) | Conflicted(info: Conflict, value: Value)

  /** The value of an engine: everything its methods read and write. */
  datatype Replica = Replica(
    id: string,
    policy: Policy,
    store: map<string, Record>,
    queue: seq<Record>,
    conflicts: seq<Conflict>)

  /** Wall time first, replica identifier second. */
  predicate Newer(a: Record, b: Record) {
    a.wallTime > b.wallTime || (a.wallTime == b.wallTime && Less(b.replicaId, a.replicaId))
  }

  predicate SameStamp(a: Record, b: Record) {
    a.wallTime == b.wallTime && a.replicaId == b.replicaId
  }

  /** What a reader of the key can see, and what later merges decide by. */
  predicate SamePayload(a: Record, b: Record) {
    SameStamp(a, b) && a.value == b.value && a.tombstone == b.tombstone
  }

  /** The last-write-wins choice: the remote record only if it is newer. */
  function Winner(local: Record, remote: Record): Record {
    if Newer(remote, local) then remote else local
  }

  function LwwReason(local: Record, remote: Record): string {
    if remote.wallTime > local.wallTime then "remote_newer_wall_time"
    else if remote.wallTime < local.wallTime then "local_newer_wall_time"
    else "tie_break_replica_id"
  }

  function LwwInfo(local: Record, remote: Record): Conflict {
    Conflict(local.key, local, remote, LastWriteWins,
             if Newer(remote, local) then "remote" else "local", LwwReason(local, remote))
  }

  /** The clock a new local write gets. */
  function WriteClock(e: Replica, key: string): Clock {
    Tick(if key in e.store then e.store[key].vector else map[], e.id)
  }

  function Written(e: Replica, key: string, value: Value, now: int, tombstone: bool): Record {
    Record(key, value, e.id, now, WriteClock(e, key),
           if key in e.store then e.store[key].version + 1 else 1, tombstone)
  }

  /** `put` (tombstone false) and `delete` (tombstone true, value null). */
  function AfterWrite(e: Replica, key: string, value: Value, now: int, tombstone: bool): Replica {
    var record := Written(e, key, value, now, tombstone);
    e.(store := e.store[key := record], queue := e.queue + [record])
  }

  /** What a reader of the key is told: a deleted key reads as missing. */
  function Reads(e: Replica, key: string): Value {
    if key in e.store && !e.store[key].tombstone then e.store[key].value else Null
  }

  /** Neither record supersedes the other as the code decides it. */
  ghost predicate Clash(local: Record, remote: Record) {
    !Before(remote.vector, local.vector) && remote.vector != local.vector && !Before(local.vector, remote.vector)
  }

  /** A concurrent merge keeps the newer payload and stamp, joins the clocks
      and ticks the replica that merges. */
  function Merged(id: string, local: Record, remote: Record): Record {
    Winner(local, remote).(
    vector := Tick(Merge(local.vector, remote.vector), id),
    version := Max(local.version, remote.version) + 1)
  }

  ghost function ResolveVector(id: string, local: Record, remote: Record): Record {
    if Clash(local, remote) then Merged(id, local, remote)
    else if Before(local.vector, remote.vector) then remote
    else local
  }

  function ClashInfo(local: Record, remote: Record): Conflict {
    LwwInfo(local, remote).(
    policy := VectorClockPolicy,
    winner := "merged_lww_fallback",
    reason := "concurrent_then_" + LwwReason(local, remote))
  }

  /** The effect of `apply_remote` on one engine. */
  ghost function AfterApply(e: Replica, remote: Record): Replica {
    if remote.key !in e.store then e.(store := e.store[remote.key := remote])
    else
      var local := e.store[remote.key];
      if e.policy.LastWriteWins? then
        e.(store := e.store[remote.key := Winner(local, remote)],
        conflicts := e.conflicts + [LwwInfo(local, remote)])
      else
        e.(store := e.store[remote.key := ResolveVector(e.id, local, remote)],
        conflicts := if Clash(local, remote) then e.conflicts + [ClashInfo(local, remote)] else e.conflicts)
  }

  /** What `apply_remote` reports for a record: whether it was taken over without
      a conflict, and otherwise the conflict it logs and the value it keeps. */
  ghost function StatusOf(e: Replica, remote: Record): Status {
    if remote.key !in e.store then Synced("remote")
    else
      var local := e.store[remote.key];
      if e.policy.LastWriteWins? then Resolved(LwwInfo(local, remote))
      else if Clash(local, remote) then Conflicted(ClashInfo(local, remote), Winner(local, remote).value)
      else Synced("causal")
  }

  ghost function AfterApplyAll(e: Replica, records: seq<Record>): Replica
    decreases |records|
  {
    if records == [] then e else AfterApplyAll(AfterApply(e, records[0]), records[1..])
  }

  lemma AfterApplyNone(e: Replica)
    ensures AfterApplyAll(e, []) == e
  {
  }

  lemma {:induction false} AfterApplyAllAppend(e: Replica, records: seq<Record>, r: Record)
    ensures AfterApplyAll(e, records + [r]) == AfterApply(AfterApplyAll(e, records), r)
    decreases |records|
  {
    if records == [] {
      assert (records + [r])[1..] == [];
    } else {
      assert (records + [r])[1..] == records[1..] + [r];
      AfterApplyAllAppend(AfterApply(e, records[0]), records[1..], r);
    }
  }

  class OfflineSyncEngine {
    const replicaId: string
    const policy: Policy
    var store: map<string, Record>
    var queue: seq<Record>
    var conflicts: seq<Conflict>

    constructor (replicaId: string, policy: Policy)
      ensures Contents() == Replica(replicaId, policy, map[], [], [])
    {
      this.replicaId := replicaId;
      this.policy := policy;
      store := map[];
      queue := [];
      conflicts := [];
    }

    function Contents(): Replica
      reads this
    {
      Replica(replicaId, policy, store, queue, conflicts)
    }

    method Put(key: string, value: Value, now: int) returns (record: Record)
      modifies this
      ensures Contents() == AfterWrite(old(Contents()), key, value, now, false)
      // the record shows the call, is what the key now holds, and is queued; no other key is touched
      ensures record.key == key && record.value == value && !record.tombstone
      ensures record.replicaId == replicaId && record.wallTime == now
      ensures store == old(store)[key := record] && queue == old(queue) + [record]
      ensures Reads(Contents(), key) == value
    {
      var base := if key in store then store[key].vector else map[];
      var vector := Tick(base, replicaId);
      var version := if key in store then store[key].version + 1 else 1;
      record := Record(key, value, replicaId, now, vector, version, false);
      store := store[key := record];
      queue := queue + [record];
    }

    method Delete(key: string, now: int) returns (record: Record)
      modifies this
      ensures Contents() == AfterWrite(old(Contents()), key, Null, now, true)
      ensures record.key == key && record.value == Null && record.tombstone
      ensures record.replicaId == replicaId && record.wallTime == now
      ensures store == old(store)[key := record] && queue == old(queue) + [record]
      ensures Reads(Contents(), key) == Null
    {
      var base := if key in store then store[key].vector else map[];
      var version := if key in store then store[key].version + 1 else 1;
      record := Record(key, Null, replicaId, now, Tick(base, replicaId), version, true);
      store := store[key := record];
      queue := queue + [record];
    }

    method ClearQueue()
      modifies this`queue
      ensures queue == []
    {
      queue := [];
    }

    static method LwwChoice(local: Record, remote: Record) returns (chosen: Record, info: Conflict)
      ensures chosen == Winner(local, remote) && info == LwwInfo(local, remote)
    {
      var winner, reason;
      if remote.wallTime > local.wallTime {
        winner, reason, chosen := "remote", "remote_newer_wall_time", remote;
      } else if remote.wallTime < local.wallTime {
        winner, reason, chosen := "local", "local_newer_wall_time", local;
      } else if Less(local.replicaId, remote.replicaId) {
        winner, reason, chosen := "remote", "tie_break_replica_id", remote;
      } else {
        winner, reason, chosen := "local", "tie_break_replica_id", local;
      }
      info := Conflict(local.key, local, remote, LastWriteWins, winner, reason);
    }

    method ApplyRemote(remote: Record) returns (status: Status)
      modifies this`store, this`conflicts
      ensures Contents() == AfterApply(old(Contents()), remote)
      ensures status == StatusOf(old(Contents()), remote)
      // a conflict is reported exactly when one is logged, and it is the one logged
      ensures status.Synced? <==> conflicts == old(conflicts)
      ensures !status.Synced? ==> conflicts == old(conflicts) + [status.info]
      ensures status.Conflicted? ==> status.value == store[remote.key].value
      ensures status.Synced? ==> status.applied == if remote.key in old(store) then "causal" else "remote"
    {
      if remote.key !in store {
        store := store[remote.key := remote];
        return Synced("remote");
      }
      var local := store[remote.key];
      var chosen, info := LwwChoice(local, remote);
      if policy.LastWriteWins? {
        store := store[remote.key := chosen];
        conflicts := conflicts + [info];
        return Resolved(info);
      }
      var stale := HappensBefore(remote.vector, local.vector);
      if stale || remote.vector == local.vector {
        store := store[remote.key := local];
        return Synced("causal");
      }
      var fresher := HappensBefore(local.vector, remote.vector);
      if fresher {
        store := store[remote.key := remote];
        return Synced("causal");
      }
      info := info.(policy := VectorClockPolicy, winner := "merged_lww_fallback",
      reason := "concurrent_then_" + info.reason);
      chosen := Record(chosen.key, chosen.value, chosen.replicaId, chosen.wallTime,
                       Tick(Merge(local.vector, remote.vector), replicaId),
                       Max(local.version, remote.version) + 1, chosen.tombstone);
      store := store[remote.key := chosen];
      conflicts := conflicts + [info];
      return Conflicted(info, chosen.value);
    }

    method SyncFromPeer(records: seq<Record>) returns (results: seq<Status>)
      modifies this`store, this`conflicts, this`queue
      ensures Contents() == AfterApplyAll(old(Contents()), records).(queue := [])
      ensures |results| == |records|
      ensures forall i | 0 <= i < |records| ::
                results[i] == StatusOf(AfterApplyAll(old(Contents()), records[..i]), records[i])
    {
      hide AfterApply, AfterApplyAll, StatusOf;
      results := [];
      AfterApplyNone(old(Contents()));
      for i := 0 to |records|
        invariant Contents() == AfterApplyAll(old(Contents()), records[..i])
        invariant |results| == i
        invariant forall k | 0 <= k < i ::
            results[k] == StatusOf(AfterApplyAll(old(Contents()), records[..k]), records[k])
      {
        AfterApplyAllAppend(old(Contents()), records[..i], records[i]);
        assert records[..i + 1] == records[..i] + [records[i]];
        var status := ApplyRemote(records[i]);
        results := results + [status];
      }
      assert records[..|records|] == records;
      ClearQueue();
    }

    /** A deleted key reads as missing. */
    method Get(key: string) returns (value: Value)
      ensures value == Reads(Contents(), key)
      ensures value == if key in store && !store[key].tombstone then store[key].value else Null
    {
      if key !in store || store[key].tombstone {
        return Null;
      }
      return store[key].value;
    }
  }
}
