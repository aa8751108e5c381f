/** What the rollout calls achieve: results are counted, enough failures abort and
    take everything back, and promotion moves exactly whom it should. */
module FleetLaws {
  import opened Options
  import opened Fleet
  import opened FleetRuns

  // ---- counting -----------------------------------------------------------------

  /** A result is accepted from a device that has the canary flag or is in the ring. */
  predicate Accepted(s: State, id: string) {
    id in s.devices && (s.devices[id].canary || s.devices[id].ring.Canary?)
  }

  /** How many accepted results of this kind a run of calls reports. */
  function Results(s: State, ops: seq<Op>, success: bool): nat
    requires OrderKnown(s)
    decreases |ops|
  {
    if ops == [] then 0
    else
      StepKeepsOrder(s, ops[0]);
      (if ops[0].ReportResult? && ops[0].success == success && Accepted(s, ops[0].id) then 1 else 0)
      + Results(Step(s, ops[0]), ops[1..], success)
  }

  lemma StepCounts(s: State, op: Op)
    requires OrderKnown(s) && !op.Start?
    ensures var counted := op.ReportResult? && Accepted(s, op.id);
            && Step(s, op).failures == s.failures + (if counted && !op.success then 1 else 0)
            && Step(s, op).successes == s.successes + (if counted && op.success then 1 else 0)
            && Step(s, op).threshold == s.threshold
  {
    hide StartRollout;
  }

  lemma {:induction false} RunCounts(s: State, ops: seq<Op>)
    requires OrderKnown(s) && NoStart(ops)
    ensures Run(s, ops).failures == s.failures + Results(s, ops, false)
    ensures Run(s, ops).successes == s.successes + Results(s, ops, true)
    ensures Run(s, ops).threshold == s.threshold
    decreases |ops|
  {
    hide Step, Accepted;
    if ops != [] {
      StepKeepsOrder(s, ops[0]);
      StepCounts(s, ops[0]);
      RunCounts(Step(s, ops[0]), ops[1..]);
    }
  }

  /** From the start of a rollout, whatever is called: it is aborted exactly if the
      failures reported by canaries since have reached the threshold, and may be
      promoted exactly if they have not and some canary has reported success. */
  lemma AbortedIffFailuresReported(s: State, start: Op, ops: seq<Op>)
    requires OrderKnown(s) && start.Start? && NoStart(ops)
    ensures OrderKnown(Step(s, start))
    ensures var s0 := Step(s, start);
            var t := Run(s0, ops);
            && t.failures == Results(s0, ops, false) && t.successes == Results(s0, ops, true)
            && (Aborted(t) <==> Results(s0, ops, false) >= s.threshold)
            && (MayPromote(t) <==> Results(s0, ops, false) < s.threshold && Results(s0, ops, true) >= 1)
  {
    StepKeepsOrder(s, start);
    RunCounts(Step(s, start), ops);
  }

  // ---- what a report does ---------------------------------------------------------

  /** A failure that reaches the threshold takes every canary and every device with a
      target back to the known-good version; one that does not touches the reporter's
      health alone. */
  lemma FailureIsFelt(s: State, id: string, other: string)
    requires Accepted(s, id) && other in s.devices
    ensures var t := Report(s, id, false);
            var d := s.devices[other];
            && t.failures == s.failures + 1 && t.successes == s.successes && other in t.devices
            && (if s.failures + 1 >= s.threshold && (HasTarget(d) || d.canary) then
                  t.devices[other].current == DefaultKnownGood && t.devices[other].target.None? && t.devices[other].health.Degraded?
                else if other == id then t.devices[other] == d.(health := Critical)
                else t.devices[other] == d)
  {
  }

  /** A success puts the reporter on its target, healthy; nobody else is touched
      unless the rollout was aborted before. */
  lemma SuccessIsFelt(s: State, id: string, other: string)
    requires Accepted(s, id) && other in s.devices && s.failures < s.threshold
    ensures var t := Report(s, id, true);
            var d := s.devices[other];
            && t.failures == s.failures && t.successes == s.successes + 1 && other in t.devices
            && t.devices[other].target == d.target && t.devices[other].ring == d.ring
            && (if other == id then
                  && t.devices[other].health.Healthy?
                  && t.devices[other].current == if d.target.Some? && d.target.value != "" then d.target.value else d.current
                else t.devices[other] == d)
  {
  }

  /** A result from anyone else is refused and changes nothing. */
  lemma OthersAreRefused(s: State, id: string, success: bool)
    requires OrderKnown(s) && !Accepted(s, id)
    ensures Step(s, ReportResult(id, success)) == s
  {
    hide StartRollout;
  }

  // ---- start, promotion, rollback ---------------------------------------------------

  /** A promotion moves an enrolled canary to the early ring and an enrolled early
      device to the broad one, onto its target; it leaves everyone else exactly as
      before, and does nothing at all once aborted or before the first success. */
  lemma PromotionMoves(s: State, id: string)
    requires id in s.devices
    ensures id in Promote(s).devices && Promote(s).failures == s.failures && Promote(s).successes == s.successes
    ensures var d, p := s.devices[id], Promote(s).devices[id];
            if s.failures < s.threshold && s.successes >= 1 && d.enrollment.Enrolled? && (d.ring.Canary? || d.ring.Early?) then
              && (d.ring.Canary? ==> p.ring.Early?) && (d.ring.Early? ==> p.ring.Broad?) && !p.canary
              && p.current == (if d.target.Some? && d.target.value != "" then d.target.value else d.current)
              && p.target == d.target && p.enrollment == d.enrollment && p.health == d.health
            else p == d
  {
  }

  /** So nobody is promoted on no evidence: until a canary reports success, calling
      for promotion changes nothing. */
  lemma NoPromotionWithoutSuccess(s: State, start: Op, ops: seq<Op>)
    requires OrderKnown(s) && start.Start? && NoStart(ops)
    requires OrderKnown(Step(s, start)) && Results(Step(s, start), ops, true) == 0
    ensures OrderKnown(Run(Step(s, start), ops))
    ensures Step(Run(Step(s, start), ops), PromoteAll) == Run(Step(s, start), ops)
  {
    hide StartRollout, Report;
    AbortedIffFailuresReported(s, start, ops);
    RunKeepsOrder(Step(s, start), ops);
  }

  lemma {:induction false} RunKeepsOrder(s: State, ops: seq<Op>)
    requires OrderKnown(s)
    ensures OrderKnown(Run(s, ops))
    decreases |ops|
  {
    if ops != [] {
      StepKeepsOrder(s, ops[0]);
      RunKeepsOrder(Step(s, ops[0]), ops[1..]);
    }
  }

  /** Starting a rollout forgets the old counts, makes exactly the chosen devices
      canaries on the new target, and leaves versions and everyone else alone. */
  lemma StartMarks(s: State, rollout: string, version: string, percent: Option<real>, id: string)
    requires OrderKnown(s) && FlagsMatch(s) && id in s.devices
    ensures var asked := if percent.Some? then percent.value else s.canaryPercent;
            var t := Step(s, Start(rollout, version, percent));
            && t.rollout == Some(rollout) && t.failures == 0 && t.successes == 0 && t.canaryPercent == asked
            && t.order == s.order && id in t.devices
            && (if id in Chosen(s.order, s.devices, asked) then
                  && t.devices[id].ring.Canary? && t.devices[id].canary && t.devices[id].target == Some(version)
                  && t.devices[id].current == s.devices[id].current && t.devices[id].health == s.devices[id].health
                  && t.devices[id].enrollment.Enrolled?
                else t.devices[id] == s.devices[id])
  {
    hide Promote, Report, Rollback;
    if id in Chosen(s.order, s.devices, if percent.Some? then percent.value else s.canaryPercent) {
      StartMakesCanary(s, rollout, version, percent, id);
    }
  }

  /** Enrolling gives a healthy device on the factory version without a target,
      known once in the order; the others stay. */
  lemma EnrollStartsFresh(s: State, id: string, ring: Ring, other: string)
    requires Consistent(s)
    ensures var t := Enroll(s, id, ring);
            && Consistent(t) && id in t.devices
            && t.devices[id].enrollment.Enrolled? && t.devices[id].health.Healthy? && t.devices[id].ring == ring
            && t.devices[id].current == "0.1.0-evt1-alpha" && t.devices[id].target.None?
            && (t.devices[id].canary <==> ring.Canary?)
            && (other in s.devices && other != id ==> other in t.devices && t.devices[other] == s.devices[other])
            && s.order <= t.order && |t.order| == |s.order| + if id in s.devices then 0 else 1
  {
  }

  // ---- revocation -------------------------------------------------------------------

  /** The device is revoked, and has the target it had then or none. */
  predicate Out(s: State, id: string, target: Option<string>) {
    id in s.devices && s.devices[id].enrollment.Revoked? && s.devices[id].target in {target, None}
  }

  lemma StaysOut(s: State, op: Op, id: string, target: Option<string>)
    requires OrderKnown(s) && Out(s, id, target) && NotEnrolledAnew([op], id)
    ensures Out(Step(s, op), id, target)
    ensures !op.AssignRing? ==> Step(s, op).devices[id].ring == s.devices[id].ring
  {
    hide Rollback, Report, Promote, StartRollout, Pick;
    assert op in [op];
    match op
    case Start(rollout, version, percent) => OutOfStart(s, rollout, version, percent, id, target);
    case ReportResult(other, success) => OutOfReport(s, other, success, id, target);
    case PromoteAll => OutOfSweeps(s, "", id, target);
    case RollBack(knownGood) => OutOfSweeps(s, knownGood, id, target);
    case _ =>
  }

  lemma OutOfStart(s: State, rollout: string, version: string, percent: Option<real>, id: string, target: Option<string>)
    requires OrderKnown(s) && Out(s, id, target)
    ensures StartRollout(s, rollout, version, percent).devices.Keys == s.devices.Keys
    ensures StartRollout(s, rollout, version, percent).devices[id] == s.devices[id]
  {
    SelectElements(s.order, s.devices, IsCanary());
    SelectElements(s.order, s.devices, IsEnrolled());
  }

  lemma OutOfReport(s: State, other: string, success: bool, id: string, target: Option<string>)
    requires Out(s, id, target)
    ensures other in s.devices ==> Out(Report(s, other, success), id, target)
    ensures other in s.devices ==> Report(s, other, success).devices[id].ring == s.devices[id].ring
  {
  }

  lemma OutOfSweeps(s: State, knownGood: string, id: string, target: Option<string>)
    requires Out(s, id, target)
    ensures Promote(s).devices.Keys == Rollback(s, knownGood).devices.Keys == s.devices.Keys
    ensures Promote(s).devices[id] == s.devices[id]
    ensures Out(Rollback(s, knownGood), id, target) && Rollback(s, knownGood).devices[id].ring == s.devices[id].ring
  {
  }

  /** A revoked device stays revoked, and no rollout gives it a target, until it is
      enrolled anew, whatever is called. */
  lemma {:induction false} RevokedStaysOut(s: State, ops: seq<Op>, id: string, target: Option<string>)
    requires OrderKnown(s) && Out(s, id, target) && NotEnrolledAnew(ops, id)
    ensures Out(Run(s, ops), id, target)
    decreases |ops|
  {
    hide Step, Out;
    if ops != [] {
      StepKeepsOrder(s, ops[0]);
      StaysOut(s, ops[0], id, target);
      RevokedStaysOut(Step(s, ops[0]), ops[1..], id, target);
    }
  }

  /** And revoking is what brings a device into that state. */
  lemma RevokedIsOut(s: State, ops: seq<Op>, id: string)
    requires OrderKnown(s) && id in s.devices && NotEnrolledAnew(ops, id)
    ensures OrderKnown(Step(s, Revoke(id)))
    ensures var t := Run(Step(s, Revoke(id)), ops);
            id in t.devices && t.devices[id].enrollment.Revoked? && t.devices[id].target in {s.devices[id].target, None}
  {
    StepKeepsOrder(s, Revoke(id));
    RevokedStaysOut(Step(s, Revoke(id)), ops, id, s.devices[id].target);
  }
}
