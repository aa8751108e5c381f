/** Rollout safety over every run of the fleet. */
module FleetRuns {
  import opened Options
  import opened Fleet

  datatype Op =
    | Enrol(id: string, ring: Ring)
    | Revoke(id: string)
    | AssignRing(id: string, ring: Ring)
    | Start(rollout: string, version: string, percent: Option<real>)
    | ReportResult(id: string, success: bool)
    | PromoteAll
    | RollBack(knownGood: string)
    | SetHealth(id: string, health: Health)

  function Step(s: State, op: Op): State
    requires forall id | id in s.order :: id in s.devices
  {
    match op
    case Enrol(id, ring) => Enroll(s, id, ring)
    case Revoke(id) => if id in s.devices then Change(s, id, s.devices[id].(enrollment := Revoked)) else s
    case AssignRing(id, ring) =>
      if id in s.devices then Change(s, id, s.devices[id].(ring := ring, canary := ring.Canary?)) else s
    case Start(rollout, version, percent) => StartRollout(s, rollout, version, percent)
    case ReportResult(id, success) => if id in s.devices then Report(s, id, success) else s
    case PromoteAll => Promote(s)
    case RollBack(knownGood) => Rollback(s, knownGood)
    case SetHealth(id, health) => if id in s.devices then Change(s, id, s.devices[id].(health := health)) else s
  }

  predicate OrderKnown(s: State) {
    forall id | id in s.order :: id in s.devices
  }

  function Run(s: State, ops: seq<Op>): State
    requires OrderKnown(s)
    decreases |ops|
  {
    if ops == [] then s
    else
      StepKeepsOrder(s, ops[0]);
      Run(Step(s, ops[0]), ops[1..])
  }

  lemma StepKeepsOrder(s: State, op: Op)
    requires OrderKnown(s)
    ensures OrderKnown(Step(s, op))
    ensures s.devices.Keys <= Step(s, op).devices.Keys && Step(s, op).threshold == s.threshold
  {
  }

  // ---- the canary flag is the canary ring -----------------------------------

  predicate FlagsMatch(s: State) {
    forall id | id in s.devices :: s.devices[id].canary <==> s.devices[id].ring.Canary?
  }

  lemma StepKeepsFlags(s: State, op: Op)
    requires OrderKnown(s) && FlagsMatch(s)
    ensures FlagsMatch(Step(s, op))
  {
  }

  lemma {:induction false} FlagsAlwaysMatch(s: State, ops: seq<Op>)
    requires OrderKnown(s) && FlagsMatch(s)
    ensures FlagsMatch(Run(s, ops))
    decreases |ops|
  {
    if ops != [] {
      StepKeepsOrder(s, ops[0]);
      StepKeepsFlags(s, ops[0]);
      FlagsAlwaysMatch(Step(s, ops[0]), ops[1..]);
    }
  }

  lemma FourSteps(s: State, a: Op, b: Op, c: Op, d: Op)
    requires OrderKnown(s)
    ensures OrderKnown(Step(s, a)) && OrderKnown(Step(Step(s, a), b)) && OrderKnown(Step(Step(Step(s, a), b), c))
    ensures Run(s, [a, b, c, d]) == Step(Step(Step(Step(s, a), b), c), d)
  {
    hide Step;
    var s1 := Step(s, a);
    StepKeepsOrder(s, a);
    var s2 := Step(s1, b);
    StepKeepsOrder(s1, b);
    var s3 := Step(s2, c);
    StepKeepsOrder(s2, c);
    var s4 := Step(s3, d);
    StepKeepsOrder(s3, d);
    assert [a, b, c, d][1..] == [b, c, d] && [b, c, d][1..] == [c, d] && [c, d][1..] == [d] && [d][1..] == [];
    assert Run(s3, [d]) == Run(s4, []);
    assert Run(s2, [c, d]) == Run(s3, [d]);
    assert Run(s1, [b, c, d]) == Run(s2, [c, d]);
  }

  // ---- how a version can change ---------------------------------------------

  /** The known-good versions a step may put a device on. */
  function KnownGood(op: Op): set<string> {
    match op
    case RollBack(knownGood) => {knownGood}
    case ReportResult(_, _) => {DefaultKnownGood}
    case _ => {}
  }

  /** A device that is not enrolled anew keeps its version, or takes its own
      target, or falls back to a known-good version; and it gets a target only
      from the start of a rollout, as a canary. */
  lemma VersionChangesOnlyTo(s: State, op: Op, id: string)
    requires OrderKnown(s) && id in s.devices && !(op.Enrol? && op.id == id)
    ensures id in Step(s, op).devices
    ensures var d, d' := s.devices[id], Step(s, op).devices[id];
            && (d'.current == d.current || (HasTarget(d) && d'.current == d.target.value) || d'.current in KnownGood(op))
            && (d'.target == d.target || d'.target.None? ||
                (op.Start? && d'.target == Some(op.version) && d'.ring.Canary? && d'.enrollment.Enrolled?))
  {
    hide StartRollout, Report, Promote, Rollback;
    if op.Start? {
      StartTargets(s, op, id);
    } else if op.ReportResult? {
      ReportChanges(s, op, id);
    } else if op.PromoteAll? || op.RollBack? {
      SweepChanges(s, op, id);
    }
  }

  lemma StartTargets(s: State, op: Op, id: string)
    requires OrderKnown(s) && id in s.devices && op.Start?
    ensures id in Step(s, op).devices
    ensures var d, d' := s.devices[id], Step(s, op).devices[id];
            && d'.current == d.current
            && (d'.target == d.target || (d'.target == Some(op.version) && d'.ring.Canary? && d'.enrollment.Enrolled?))
  {
    hide Report, Promote, Rollback;
    SelectElements(s.order, s.devices, IsCanary());
    SelectElements(s.order, s.devices, IsEnrolled());
  }

  lemma ReportChanges(s: State, op: Op, id: string)
    requires OrderKnown(s) && id in s.devices && op.ReportResult?
    ensures id in Step(s, op).devices
    ensures var d, d' := s.devices[id], Step(s, op).devices[id];
            && (d'.current == d.current || (HasTarget(d) && d'.current == d.target.value) || d'.current in KnownGood(op))
            && (d'.target == d.target || d'.target.None?)
  {
    hide StartRollout, Promote;
  }

  lemma SweepChanges(s: State, op: Op, id: string)
    requires OrderKnown(s) && id in s.devices && (op.PromoteAll? || op.RollBack?)
    ensures id in Step(s, op).devices
    ensures var d, d' := s.devices[id], Step(s, op).devices[id];
            && (d'.current == d.current || (HasTarget(d) && d'.current == d.target.value) || d'.current in KnownGood(op))
            && (d'.target == d.target || d'.target.None?)
  {
    hide StartRollout, Report;
  }

  lemma StartMakesCanary(s: State, rollout: string, version: string, percent: Option<real>, id: string)
    requires OrderKnown(s) && FlagsMatch(s)
    requires id in Chosen(s.order, s.devices, if percent.Some? then percent.value else s.canaryPercent)
    ensures var t := StartRollout(s, rollout, version, percent);
            && t.order == s.order && t.threshold == s.threshold
            && t.canaryPercent == (if percent.Some? then percent.value else s.canaryPercent)
            && id in t.devices && t.failures == t.successes == 0
            && t.devices[id] == MakeCanary(s.devices[id], version) && s.devices[id].enrollment.Enrolled?
  {
    SelectElements(s.order, s.devices, IsCanary());
    SelectElements(s.order, s.devices, IsEnrolled());
    if Select(s.order, s.devices, IsCanary()) != [] {
      assert id in Select(s.order, s.devices, IsCanary());
    }
  }

  lemma ReportLands(s: State, id: string)
    requires id in s.devices && s.devices[id].canary && HasTarget(s.devices[id])
    requires s.failures == s.successes == 0 && s.threshold >= 1
    ensures var t := Report(s, id, true);
            && t.order == s.order && t.threshold == s.threshold && t.canaryPercent == s.canaryPercent
            && id in t.devices && MayPromote(t)
            && t.devices[id] == s.devices[id].(current := s.devices[id].target.value, health := Healthy)
  {
  }

  // ---- rollback -------------------------------------------------------------

  predicate NoTargets(s: State) {
    forall id | id in s.devices :: !HasTarget(s.devices[id])
  }

  predicate NoStart(ops: seq<Op>) {
    forall op | op in ops :: !op.Start?
  }

  predicate NotEnrolledAnew(ops: seq<Op>, id: string) {
    forall op | op in ops :: !(op.Enrol? && op.id == id)
  }

  /** The known-good versions named by a run. */
  function KnownGoods(ops: seq<Op>): set<string>
    decreases |ops|
  {
    if ops == [] then {} else KnownGood(ops[0]) + KnownGoods(ops[1..])
  }

  lemma UntargetedSweep(s: State, op: Op, id: string)
    requires OrderKnown(s) && NoTargets(s) && id in s.devices
    requires op.PromoteAll? || op.RollBack?
    ensures NoTargets(Step(s, op)) && id in Step(s, op).devices
    ensures Step(s, op).devices[id].current in {s.devices[id].current} + KnownGood(op)
  {
    hide StartRollout, Report, Enroll;
  }

  lemma UntargetedReport(s: State, op: Op, id: string)
    requires OrderKnown(s) && NoTargets(s) && id in s.devices && op.ReportResult?
    ensures NoTargets(Step(s, op)) && id in Step(s, op).devices
    ensures Step(s, op).devices[id].current in {s.devices[id].current} + KnownGood(op)
  {
    hide StartRollout, Promote, Enroll;
  }

  lemma UntargetedStep(s: State, op: Op, id: string)
    requires OrderKnown(s) && NoTargets(s) && !op.Start? && id in s.devices && !(op.Enrol? && op.id == id)
    ensures NoTargets(Step(s, op)) && id in Step(s, op).devices
    ensures Step(s, op).devices[id].current in {s.devices[id].current} + KnownGood(op)
  {
    hide StartRollout, Report, Promote, Rollback;
    if op.PromoteAll? || op.RollBack? {
      UntargetedSweep(s, op, id);
    } else if op.ReportResult? {
      UntargetedReport(s, op, id);
    }
  }

  /** Without a target anywhere nothing can be rolled out: until the next rollout
      starts, reports and promotions only ever leave known-good versions. */
  lemma {:induction false} UntargetedRun(s: State, ops: seq<Op>, id: string)
    requires OrderKnown(s) && NoTargets(s) && NoStart(ops) && NotEnrolledAnew(ops, id) && id in s.devices
    ensures NoTargets(Run(s, ops)) && id in Run(s, ops).devices
    ensures Run(s, ops).devices[id].current in {s.devices[id].current} + KnownGoods(ops)
    decreases |ops|
  {
    hide NoTargets, Step, KnownGood;
    if ops != [] {
      StepKeepsOrder(s, ops[0]);
      UntargetedStep(s, ops[0], id);
      UntargetedRun(Step(s, ops[0]), ops[1..], id);
    }
  }

  /** A rollback is complete and lasts: an affected device is on the known-good
      version, any other as it was, and until the next rollout starts no sequence
      of calls gives a target or brings the rolled-out version back. */
  lemma RollbackIsComplete(s: State, knownGood: string, ops: seq<Op>, id: string)
    requires OrderKnown(s) && id in s.devices && NoStart(ops) && NotEnrolledAnew(ops, id)
    ensures OrderKnown(Rollback(s, knownGood))
    ensures var d, t := s.devices[id], Run(Rollback(s, knownGood), ops);
            && id in t.devices && NoTargets(t)
            && t.devices[id].current in
                 {if HasTarget(d) || d.canary then knownGood else d.current} + KnownGoods(ops)
    ensures !HasTarget(s.devices[id]) && !s.devices[id].canary ==>
              Rollback(s, knownGood).devices[id] == s.devices[id]
  {
    UntargetedRun(Rollback(s, knownGood), ops, id);
  }

  /** Every version ever put on a device by a run other than by a rollout. */
  function BaseVersions(ops: seq<Op>): set<string>
    decreases |ops|
  {
    if ops == [] then {FactoryVersion, DefaultKnownGood} else KnownGood(ops[0]) + BaseVersions(ops[1..])
  }

  /** A device without a target runs a base version. */
  predicate Traceable(s: State, base: set<string>) {
    forall id | id in s.devices :: HasTarget(s.devices[id]) || s.devices[id].current in base
  }

  /** A rollout names a version, or wipes the target of no device that already runs
      a rolled-out one. */
  predicate StartGuard(s: State, op: Op, base: set<string>)
    requires OrderKnown(s)
  {
    op.Start? && op.version == "" ==>
      forall id | id in Chosen(s.order, s.devices, if op.percent.Some? then op.percent.value else s.canaryPercent) &&
                  id in s.devices ::
        s.devices[id].current in base
  }

  /** Call by call, the guard is exact. */
  lemma StepTraceableIff(s: State, op: Op, base: set<string>)
    requires OrderKnown(s) && Traceable(s, base) && FactoryVersion in base && KnownGood(op) <= base
    ensures Traceable(Step(s, op), base) <==> StartGuard(s, op, base)
  {
    if op.Start? {
      StartTraceableIff(s, op, base);
    }
  }

  lemma StartTraceableIff(s: State, op: Op, base: set<string>)
    requires OrderKnown(s) && Traceable(s, base) && op.Start?
    ensures Traceable(Step(s, op), base) <==> StartGuard(s, op, base)
  {
    var chosen := Chosen(s.order, s.devices, if op.percent.Some? then op.percent.value else s.canaryPercent);
    if id :| id in chosen && id in s.devices && op.version == "" && s.devices[id].current !in base {
      assert id in Step(s, op).devices && !HasTarget(Step(s, op).devices[id]);
    }
  }

  predicate Guarded(s: State, ops: seq<Op>, base: set<string>)
    requires OrderKnown(s)
    decreases |ops|
  {
    if ops == [] then true
    else
      StepKeepsOrder(s, ops[0]);
      StartGuard(s, ops[0], base) && Guarded(Step(s, ops[0]), ops[1..], base)
  }

  /** Rollouts that name their version need no other guard. */
  lemma {:induction false} NamedIsGuarded(s: State, ops: seq<Op>, base: set<string>)
    requires OrderKnown(s) && forall op | op in ops && op.Start? :: op.version != ""
    ensures Guarded(s, ops, base)
    decreases |ops|
  {
    if ops != [] {
      StepKeepsOrder(s, ops[0]);
      NamedIsGuarded(Step(s, ops[0]), ops[1..], base);
    }
  }

  lemma {:induction false} RunKeepsTraceable(s: State, ops: seq<Op>, base: set<string>)
    requires OrderKnown(s) && Traceable(s, base) && BaseVersions(ops) <= base && Guarded(s, ops, base)
    ensures Traceable(Run(s, ops), base) && OrderKnown(Run(s, ops))
    decreases |ops|
  {
    hide StartGuard, Traceable, Step;
    if ops != [] {
      StepKeepsOrder(s, ops[0]);
      BaseHasFactory(ops);
      StepTraceableIff(s, ops[0], base);
      RunKeepsTraceable(Step(s, ops[0]), ops[1..], base);
    }
  }

  lemma {:induction false} BaseHasFactory(ops: seq<Op>)
    ensures FactoryVersion in BaseVersions(ops) && DefaultKnownGood in BaseVersions(ops)
    decreases |ops|
  {
    if ops != [] {
      BaseHasFactory(ops[1..]);
    }
  }

  predicate Fresh(s: State) {
    s.devices == map[] && s.order == [] && s.failures == 0 && s.successes == 0
  }

  /** A rollback takes every rolled-out version back, however many rollouts and
      promotions came before and wherever the devices moved since: no device is
      left on a version that only a rollout put there. */
  lemma RollbackLeavesNoTrace(s: State, ops: seq<Op>, knownGood: string, id: string)
    requires Fresh(s) && Guarded(s, ops, BaseVersions(ops))
    requires id in Run(s, ops).devices
    ensures Rollback(Run(s, ops), knownGood).devices[id].current in BaseVersions(ops) + {knownGood}
  {
    BaseHasFactory(ops);
    RunKeepsTraceable(s, ops, BaseVersions(ops));
  }

  /** From here on, no rollback after any guarded calls leaves a trace. */
  ghost predicate RollbacksClean(s: State, base: set<string>)
    requires OrderKnown(s)
  {
    forall ops: seq<Op>, knownGood, id |
      Guarded(s, ops, base) && BaseVersions(ops) <= base && knownGood in base && id in Run(s, ops).devices ::
      Rollback(Run(s, ops), knownGood).devices[id].current in base
  }

  lemma UntraceableEscapes(s: State, base: set<string>, id: string)
    requires OrderKnown(s) && FactoryVersion in base && DefaultKnownGood in base
    requires id in s.devices && !HasTarget(s.devices[id]) && s.devices[id].current !in base
    ensures !RollbacksClean(s, base)
  {
    var ops := [AssignRing(id, Dev)];
    var t := Step(s, ops[0]);
    assert ops[1..] == [] && Run(t, []) == t;
    assert Run(s, ops) == t;
    NamedIsGuarded(s, ops, base);
    assert BaseVersions(ops) <= base;
    assert Rollback(Run(s, ops), DefaultKnownGood).devices[id].current == s.devices[id].current;
  }

  lemma RollbacksCleanIff(s: State, base: set<string>)
    requires OrderKnown(s) && FactoryVersion in base && DefaultKnownGood in base
    ensures RollbacksClean(s, base) <==> Traceable(s, base)
  {
    if id :| id in s.devices && !HasTarget(s.devices[id]) && s.devices[id].current !in base {
      UntraceableEscapes(s, base, id);
    } else {
      forall ops: seq<Op>, knownGood, id |
        Guarded(s, ops, base) && BaseVersions(ops) <= base && knownGood in base && id in Run(s, ops).devices
        ensures Rollback(Run(s, ops), knownGood).devices[id].current in base
      {
        RunKeepsTraceable(s, ops, base);
      }
    }
  }

  /** The guard is exact for the promise itself: after the start of a rollout no
      rollback ever leaves a trace if and only if the rollout named a version, or
      none of its canaries ran a rolled-out version at that moment. */
  lemma StartLeavesNoTraceIff(s: State, op: Op, base: set<string>)
    requires OrderKnown(s) && Traceable(s, base) && FactoryVersion in base && DefaultKnownGood in base && op.Start?
    ensures OrderKnown(Step(s, op))
    ensures RollbacksClean(Step(s, op), base) <==> StartGuard(s, op, base)
  {
    StepKeepsOrder(s, op);
    StepTraceableIff(s, op, base);
    RollbacksCleanIff(Step(s, op), base);
  }

  lemma FiveSteps(s: State, a: Op, b: Op, c: Op, d: Op, e: Op)
    requires OrderKnown(s)
    ensures OrderKnown(Step(s, a)) && OrderKnown(Step(Step(s, a), b)) && OrderKnown(Step(Step(Step(s, a), b), c))
    ensures OrderKnown(Step(Step(Step(Step(s, a), b), c), d))
    ensures Run(s, [a, b, c, d, e]) == Step(Step(Step(Step(Step(s, a), b), c), d), e)
    ensures BaseVersions([a, b, c, d, e]) == KnownGood(a) + KnownGood(b) + KnownGood(c) + KnownGood(d) + KnownGood(e)
                                             + {FactoryVersion, DefaultKnownGood}
  {
    hide Step, KnownGood;
    StepKeepsOrder(s, a);
    FourSteps(Step(s, a), b, c, d, e);
    assert [a, b, c, d, e][1..] == [b, c, d, e] && [b, c, d, e][1..] == [c, d, e] && [c, d, e][1..] == [d, e];
    assert [d, e][1..] == [e] && [e][1..] == [];
    assert BaseVersions([e]) == KnownGood(e) + {FactoryVersion, DefaultKnownGood};
    assert BaseVersions([d, e]) == KnownGood(d) + BaseVersions([e]);
    assert BaseVersions([c, d, e]) == KnownGood(c) + BaseVersions([d, e]);
    assert BaseVersions([b, c, d, e]) == KnownGood(b) + BaseVersions([c, d, e]);
  }

  /** The failing input, from an empty fleet: a canary takes version 2, a rollout
      with an empty version wipes its target, it leaves the ring, and the rollback
      no longer finds it. */
  lemma EmptyVersionHidesADevice()
    ensures var s := State([], map[], None, 5.0, 0, 0, 2);
            var ops := [Enrol("x", Canary), Start("r1", "2", None), ReportResult("x", true), Start("r2", "", None),
                        AssignRing("x", Dev)];
            && Fresh(s) && "x" in Run(s, ops).devices
            && Rollback(Run(s, ops), "1").devices["x"].current == "2"
            && "2" !in BaseVersions(ops) + {"1"}
  {
    hide StartRollout, Report, Select, Chosen, FlagsMatch, Run, BaseVersions;
    var s := State([], map[], None, 5.0, 0, 0, 2);
    var ops := [Enrol("x", Canary), Start("r1", "2", None), ReportResult("x", true), Start("r2", "", None),
                AssignRing("x", Dev)];
    FiveSteps(s, ops[0], ops[1], ops[2], ops[3], ops[4]);
    FreshFlags(s);
    var s1 := Step(s, ops[0]);
    StepKeepsFlags(s, ops[0]);
    OnlyCanary(s1, "x", 5.0);
    StartMakesCanary(s1, "r1", "2", None, "x");
    var s2 := Step(s1, ops[1]);
    StepKeepsFlags(s1, ops[1]);
    ReportLands(s2, "x");
    var s3 := Step(s2, ops[2]);
    StepKeepsFlags(s2, ops[2]);
    OnlyCanary(s3, "x", 5.0);
    StartMakesCanary(s3, "r2", "", None, "x");
    var s4 := Step(s3, ops[3]);
    var s5 := Step(s4, ops[4]);
    assert s5.devices["x"] == Device(Dev, Enrolled, Healthy, "2", Some(""), false);
  }

  lemma FreshFlags(s: State)
    requires Fresh(s)
    ensures FlagsMatch(s)
  {
  }

  lemma OnlyCanary(s: State, id: string, percent: real)
    requires s.order == [id] && id in s.devices && s.devices[id].enrollment.Enrolled? && s.devices[id].ring.Canary?
    ensures Select(s.order, s.devices, IsCanary()) == [id] && Chosen(s.order, s.devices, percent) == [id]
  {
    assert s.order[..0] == [];
  }

  // ---- an aborted rollout is over -------------------------------------------

  /** Once the canary failures reach the threshold no device has a target left. */
  predicate AbortIsClean(s: State) {
    Aborted(s) ==> forall id | id in s.devices :: !HasTarget(s.devices[id])
  }

  lemma StepKeepsAbortClean(s: State, op: Op)
    requires OrderKnown(s) && AbortIsClean(s) && s.threshold >= 1
    ensures AbortIsClean(Step(s, op))
  {
  }

  lemma {:induction false} AbortStaysClean(s: State, ops: seq<Op>)
    requires OrderKnown(s) && AbortIsClean(s) && s.threshold >= 1
    ensures AbortIsClean(Run(s, ops)) && Run(s, ops).threshold == s.threshold
    decreases |ops|
  {
    if ops != [] {
      StepKeepsOrder(s, ops[0]);
      StepKeepsAbortClean(s, ops[0]);
      AbortStaysClean(Step(s, ops[0]), ops[1..]);
    }
  }

  /** The threshold condition is exact: a rollout of a named version to a fleet
      with an enrolled device starts out clean if and only if the threshold is positive. */
  lemma StartIsCleanIff(s: State, rollout: string, version: string, percent: Option<real>, id: string)
    requires OrderKnown(s) && version != "" && id in s.order && s.devices[id].enrollment.Enrolled?
    ensures AbortIsClean(Step(s, Start(rollout, version, percent))) <==> s.threshold >= 1
  {
    var percent' := if percent.Some? then percent.value else s.canaryPercent;
    ChosenIsNonempty(s.order, s.devices, percent', id);
    var first := Chosen(s.order, s.devices, percent')[0];
    ChosenAreKnown(s.order, s.devices, percent');
    assert first in s.devices;
    assert HasTarget(Step(s, Start(rollout, version, percent)).devices[first]);
  }

  lemma ChosenIsNonempty(order: seq<string>, devices: map<string, Device>, percent: real, id: string)
    requires (forall d | d in order :: d in devices) && id in order && devices[id].enrollment.Enrolled?
    ensures Chosen(order, devices, percent) != []
  {
    SelectElements(order, devices, IsEnrolled());
    var enrolled := Select(order, devices, IsEnrolled());
    assert id in enrolled;
    assert CanaryCount(|enrolled|, percent) >= 1;
  }

  lemma AbortedStep(s: State, op: Op, id: string)
    requires OrderKnown(s) && Aborted(s) && !op.Start? && id in s.devices && !(op.Enrol? && op.id == id)
    ensures Aborted(Step(s, op)) && id in Step(s, op).devices
    ensures Step(s, op).devices[id].current in {s.devices[id].current} + KnownGood(op)
    ensures op.PromoteAll? ==> Step(s, op) == s
  {
    hide StartRollout, Report;
    if op.ReportResult? && op.id in s.devices {
      AbortedReport(s, op.id, op.success, id);
    }
  }

  /** Even a success reported late ends in a rollback. */
  lemma AbortedReport(s: State, reporter: string, success: bool, id: string)
    requires Aborted(s) && reporter in s.devices && id in s.devices
    ensures var t := Report(s, reporter, success);
            && Aborted(t) && id in t.devices && t.devices[id].current in {s.devices[id].current, DefaultKnownGood}
  {
  }

  /** After an abort nothing moves on until the next rollout is started, whatever the
      threshold: no promotion happens, and a device's version only ever becomes a
      known-good one. */
  lemma {:induction false} NothingAfterAbort(s: State, ops: seq<Op>, id: string)
    requires OrderKnown(s) && Aborted(s) && NoStart(ops) && NotEnrolledAnew(ops, id) && id in s.devices
    ensures Aborted(Run(s, ops)) && !MayPromote(Run(s, ops)) && id in Run(s, ops).devices
    ensures Run(s, ops).devices[id].current in {s.devices[id].current} + KnownGoods(ops)
    decreases |ops|
  {
    hide Step, KnownGood;
    if ops != [] {
      StepKeepsOrder(s, ops[0]);
      AbortedStep(s, ops[0], id);
      NothingAfterAbort(Step(s, ops[0]), ops[1..], id);
    }
  }

  // ---- a rollout that goes well ---------------------------------------------

  lemma PromoteLands(s: State, id: string)
    requires id in s.devices && MayPromote(s)
    ensures var t := Promote(s);
            id in t.devices && MayPromote(t) && t.devices[id] == Promoted(s.devices[id])
  {
  }

  /** A canary that reports success and is promoted twice runs the rolled-out
      version in the broad ring, whatever the rest of the fleet looks like. */
  lemma RolloutArrives(s: State, rollout: string, version: string, percent: Option<real>, id: string)
    requires OrderKnown(s) && FlagsMatch(s) && version != "" && s.threshold >= 1
    requires id in Chosen(s.order, s.devices, if percent.Some? then percent.value else s.canaryPercent)
    ensures var t := Run(s, [Start(rollout, version, percent), ReportResult(id, true), PromoteAll, PromoteAll]);
            && id in t.devices && t.devices[id].ring.Broad? && !t.devices[id].canary
            && t.devices[id].current == version && t.devices[id].health.Healthy?
  {
    hide StartRollout, Report, Promote, Run, Chosen, MayPromote, FlagsMatch;
    var ops := [Start(rollout, version, percent), ReportResult(id, true), PromoteAll, PromoteAll];
    StartMakesCanary(s, rollout, version, percent, id);
    FourSteps(s, ops[0], ops[1], ops[2], ops[3]);
    var s1 := Step(s, ops[0]);
    StepKeepsOrder(s, ops[0]);
    ReportLands(s1, id);
    var s2 := Step(s1, ops[1]);
    PromoteLands(s2, id);
    PromoteLands(Step(s2, PromoteAll), id);
  }

  // ---- canary selection -----------------------------------------------------

  /** Rounding is to the nearest integer, and to the even one of two nearest. */
  lemma RoundIsNearest(x: real, n: int)
    ensures -0.5 <= x - Round(x) as real <= 0.5
    ensures x - Round(x) as real == 0.5 || x - Round(x) as real == -0.5 ==> Round(x) % 2 == 0
    ensures x - n as real <= 0.5 && n as real - x <= 0.5 ==>
              n == Round(x) || x - n as real == 0.5 || n as real - x == 0.5
  {
  }

  /** The count of n devices is the asked number of hundredths of a device to within
      half a device: never none of some, and never more than there are. */
  predicate AsAsked(n: nat, hundredths: real, count: int) {
    && 1 <= count <= n
    && (100.0 <= hundredths <= 100.0 * n as real ==> -50.0 <= 100.0 * count as real - hundredths <= 50.0)
    && (hundredths <= 100.0 ==> count == 1)
    && (hundredths >= 100.0 * n as real ==> count == n)
  }

  /** How many canaries are picked among n enrolled devices: the percentage of them. */
  lemma CountIsAsAsked(n: nat, percent: real)
    requires n > 0
    ensures AsAsked(n, n as real * percent, CanaryCount(n, percent))
  {
    hide Share, Round, AsAsked;
    ShareInHundredths(n, percent);
    CountOf(n, Share(n, percent), n as real * percent);
  }

  lemma CountOf(n: nat, share: real, asked: real)
    requires n > 0 && 100.0 * share == asked
    ensures var wanted := AtLeastOne(Round(share));
            AsAsked(n, asked, if wanted <= n then wanted else n)
  {
    RoundIsNearest(share, n);
  }

  lemma ShareInHundredths(n: nat, percent: real)
    ensures 100.0 * Share(n, percent) == n as real * percent
  {
    var x := n as real;
    assert 100.0 * (x * (percent / 100.0)) == x * (100.0 * (percent / 100.0));
    assert 100.0 * (percent / 100.0) == percent;
  }

  /** The devices a rollout could start on: enrolled, in enrolment order. */
  ghost predicate Lists(ids: seq<string>, order: seq<string>, devices: map<string, Device>, ringOnly: bool)
    requires forall id | id in order :: id in devices
  {
    forall id :: id in ids <==>
                 id in order && devices[id].enrollment.Enrolled? && (ringOnly ==> devices[id].ring.Canary?)
  }

  lemma CountFits(n: nat, percent: real)
    ensures CanaryCount(n, percent) <= n && (n > 0 ==> CanaryCount(n, percent) >= 1)
  {
    hide Share, Round;
  }

  lemma PickedFirst(enrolled: seq<string>, percent: real)
    ensures var chosen := Pick(enrolled, [], percent);
            chosen <= enrolled && |chosen| == CanaryCount(|enrolled|, percent)
  {
    hide CanaryCount;
    CountFits(|enrolled|, percent);
  }

  /** A rollout never starts on everyone by accident and never on no one: the
      canaries are the enrolled devices of the canary ring if there are any, and
      otherwise the first enrolled ones, as many as asked for. */
  lemma CanariesAreAsAsked(order: seq<string>, devices: map<string, Device>, percent: real)
    requires forall id | id in order :: id in devices
    ensures var enrolled := Select(order, devices, IsEnrolled());
            var chosen := Chosen(order, devices, percent);
            && Lists(enrolled, order, devices, false)
            && (if exists id :: id in order && devices[id].enrollment.Enrolled? && devices[id].ring.Canary? then
                  Lists(chosen, order, devices, true)
                else
                  chosen <= enrolled && |chosen| == CanaryCount(|enrolled|, percent))
  {
    hide CanaryCount;
    var enrolled, ring := Select(order, devices, IsEnrolled()), Select(order, devices, IsCanary());
    SelectElements(order, devices, IsEnrolled());
    SelectElements(order, devices, IsCanary());
    PickedFirst(enrolled, percent);
    if ring != [] {
      assert ring[0] in ring;
    }
  }
}
