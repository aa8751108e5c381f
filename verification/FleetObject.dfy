/** The fleet simulator object: loops over the devices in enrolment order. */
module FleetObject {
  import opened Options
  import opened Fleet

  class FleetOpsSimulator {
    var order: seq<string>
    var devices: map<string, Device>
    var rollout: Option<string>
    var canaryPercent: real
    var failures: int
    var successes: int
    const threshold: int

    constructor (threshold: int)
      ensures Valid() && Contents() == State([], map[], None, 5.0, 0, 0, threshold)
    {
      order, devices, rollout := [], map[], None;
      canaryPercent, failures, successes := 5.0, 0, 0;
      this.threshold := threshold;
    }

    function Contents(): State
      reads this
    {
      State(order, devices, rollout, canaryPercent, failures, successes, threshold)
    }

    ghost predicate Valid()
      reads this
    {
      Consistent(Contents())
    }

    method Enroll(id: string, ring: Ring)
      requires Valid()
      modifies this
      ensures Valid() && Contents() == Fleet.Enroll(old(Contents()), id, ring)
    {
      if id !in devices {
        order := order + [id];
      }
      devices := devices[id := Device(ring, Enrolled, Healthy, FactoryVersion, None, ring == Canary)];
    }

    method Revoke(id: string) returns (known: bool)
      requires Valid()
      modifies this`devices
      ensures Valid() && (known <==> id in old(devices))
      ensures Contents() == if known then Change(old(Contents()), id, old(devices)[id].(enrollment := Revoked))
                            else old(Contents())
    {
      if id !in devices {
        return false;
      }
      devices := devices[id := devices[id].(enrollment := Revoked)];
      return true;
    }

    method AssignRing(id: string, ring: Ring) returns (known: bool)
      requires Valid()
      modifies this`devices
      ensures Valid() && (known <==> id in old(devices))
      ensures Contents() == if known then Change(old(Contents()), id, old(devices)[id].(ring := ring, canary := ring.Canary?))
                            else old(Contents())
    {
      if id !in devices {
        return false;
      }
      devices := devices[id := devices[id].(ring := ring)];
      devices := devices[id := devices[id].(canary := ring == Canary)];
      return true;
    }

    /** The ids of the devices that pass the test, in enrolment order. */
    method SelectIds(test: Device -> bool) returns (ids: seq<string>)
      requires Valid()
      ensures ids == Select(order, devices, test)
    {
      ids := [];
      for i := 0 to |order|
        invariant ids == Select(order[..i], devices, test)
      {
        SelectStep(order, i, devices, test);
        if test(devices[order[i]]) {
          ids := ids + [order[i]];
        }
      }
      assert order[..|order|] == order;
    }

    method StartRollout(id: string, version: string, percent: Option<real>) returns (canaries: seq<string>)
      requires Valid()
      modifies this`devices, this`rollout, this`canaryPercent, this`failures, this`successes
      ensures Valid() && Contents() == Fleet.StartRollout(old(Contents()), id, version, percent)
      ensures canaries == Chosen(old(order), old(devices), canaryPercent)
    {
      hide Select, Pick;
      rollout := Some(id);
      if percent.Some? {
        canaryPercent := percent.value;
      }
      failures, successes := 0, 0;
      ghost var was := Contents();
      var enrolled := SelectIds(IsEnrolled());
      canaries := SelectIds(IsCanary());
      var ringed := canaries != [];
      canaries := PickCanaries(enrolled, canaries, canaryPercent);
      assert canaries == Chosen(order, devices, canaryPercent);
      assert forall d | d in canaries :: d in devices by {
        ChosenAreKnown(order, devices, canaryPercent);
      }
      MarkCanaries(canaries, ringed, version);
      SameDevicesConsistent(was, Contents());
    }

    /** Prefer the canary ring; else the first few enrolled devices, at least one. */
    static method PickCanaries(enrolled: seq<string>, ringed: seq<string>, percent: real) returns (canaries: seq<string>)
      ensures canaries == Pick(enrolled, ringed, percent)
    {
      if ringed != [] || enrolled == [] {
        return ringed;
      }
      var n := AtLeastOne(Round(|enrolled| as real * (percent / 100.0)));
      canaries := if n <= |enrolled| then enrolled[..n] else enrolled;
    }

    /** Give the canaries their target, moving them into the canary ring if they
        were picked from outside it. */
    method MarkCanaries(canaries: seq<string>, ringed: bool, version: string)
      requires forall d | d in canaries :: d in devices
      modifies this`devices
      ensures devices == Marked(old(devices), canaries, ringed, version)
    {
      ghost var was, done := devices, {};
      for i := 0 to |canaries|
        invariant devices.Keys == was.Keys
        invariant done == set k | 0 <= k < i :: canaries[k]
        invariant forall d | d in was :: devices[d] ==
                                         if d !in done then was[d]
                                         else if ringed then was[d].(target := Some(version))
                                         else MakeCanary(was[d], version)
      {
        var d := canaries[i];
        if !ringed {
          devices := devices[d := devices[d].(ring := Canary, canary := true)];
        }
        devices := devices[d := devices[d].(target := Some(version))];
        done := done + {d};
      }
      assert forall d :: d in done <==> d in canaries;
    }

    method ReportCanaryResult(id: string, success: bool) returns (accepted: bool, aborted: bool)
      requires Valid()
      modifies this`devices, this`failures, this`successes
      ensures Valid() && (accepted <==> id in old(devices) && (old(devices)[id].canary || old(devices)[id].ring.Canary?))
      ensures Contents() == if accepted then Report(old(Contents()), id, success) else old(Contents())
      ensures aborted <==> accepted && Aborted(Contents())
      ensures failures == old(failures) + (if accepted && !success then 1 else 0)
      ensures successes == old(successes) + (if accepted && success then 1 else 0)
    {
      hide ChangeSome, RolledBack;
      if id !in devices || (!devices[id].canary && devices[id].ring != Canary) {
        return false, false;
      }
      var d := devices[id];
      if success {
        successes := successes + 1;
        if HasTarget(d) {
          d := d.(current := d.target.value);
        }
        d := d.(health := Healthy);
      } else {
        failures := failures + 1;
        d := d.(health := Critical);
      }
      devices := devices[id := d];
      accepted, aborted := true, failures >= threshold;
      if aborted {
        var _ := RollbackRollout(DefaultKnownGood);
      }
    }

    method PromoteRings() returns (promoted: bool, moved: nat)
      requires Valid()
      modifies this`devices
      ensures Valid() && Contents() == Promote(old(Contents()))
      ensures promoted <==> MayPromote(old(Contents()))
      ensures moved == if promoted then |Select(old(order), old(devices), Moving())| else 0
    {
      if failures >= threshold {
        return false, 0;
      }
      if successes < 1 {
        return false, 0;
      }
      promoted := true;
      moved := MoveAll();
    }

    /** The loop of a promotion: every device that moves goes one ring on. */
    method MoveAll() returns (moved: nat)
      requires Valid()
      modifies this`devices
      ensures Valid() && devices == ChangeSome(old(devices), old(devices).Keys, Promoting())
      ensures moved == |Select(old(order), old(devices), Moving())|
    {
      hide Sweep, Select, Promoted;
      moved := 0;
      ghost var s := Contents();
      SweepNone(s.order, s.devices, Promoting(), Moving());
      for i := 0 to |order|
        invariant devices == Sweep(s.devices, order, i, Promoting())
        invariant moved == |Select(order[..i], s.devices, Moving())|
      {
        SweepNext(s, i, Promoting());
        SelectStep(order, i, s.devices, Moving());
        var d, moves := Advance(devices[order[i]]);
        if moves {
          moved := moved + 1;
        }
        devices := devices[order[i] := d];
      }
      SweepAll(s, Promoting());
      assert order[..|order|] == order;
      SameDevicesConsistent(s, Contents());
    }

    /** One device's part of a promotion. */
    static method Advance(d0: Device) returns (d: Device, moves: bool)
      ensures d == Promoted(d0) && moves == Moves(d0)
    {
      d := d0;
      if d.enrollment != Enrolled || d.ring !in {Canary, Early} {
        return d, false;
      }
      d := d.(ring := if d.ring == Canary then Early else Broad);
      d := d.(canary := d.ring == Canary);
      if HasTarget(d) {
        d := d.(current := d.target.value);
      }
      return d, true;
    }

    /** One device's part of a rollback. */
    static method FallBack(d0: Device, knownGood: string) returns (d: Device, hit: bool)
      ensures d == RolledBack(d0, knownGood) && hit == Affected()(d0)
    {
      d := d0;
      if !HasTarget(d) && !d.canary {
        return d, false;
      }
      d := d.(current := knownGood);
      d := d.(target := None);
      d := d.(health := Degraded);
      return d, true;
    }

    method RollbackRollout(knownGood: string) returns (rolled: seq<string>)
      requires Valid()
      modifies this`devices
      ensures Valid() && Contents() == Rollback(old(Contents()), knownGood)
      ensures rolled == Select(old(order), old(devices), Affected())
    {
      hide Sweep, Select, RolledBack;
      rolled := [];
      ghost var s := Contents();
      SweepNone(s.order, s.devices, RollingBack(knownGood), Affected());
      for i := 0 to |order|
        invariant devices == Sweep(s.devices, order, i, RollingBack(knownGood))
        invariant rolled == Select(order[..i], s.devices, Affected())
      {
        SweepNext(s, i, RollingBack(knownGood));
        SelectStep(order, i, s.devices, Affected());
        var d, hit := FallBack(devices[order[i]], knownGood);
        if hit {
          rolled := rolled + [order[i]];
        }
        devices := devices[order[i] := d];
      }
      SweepAll(s, RollingBack(knownGood));
      assert order[..|order|] == order;
      SameDevicesConsistent(s, Contents());
    }
  }
}
