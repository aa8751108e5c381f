/** Every interleaving of the public calls, injected faults, interruptions and
    factory resets: what all reachable machines satisfy. */
module OtaRuns {
  import opened Options
  import opened OtaMachine

  /** The public calls, and what the recovery suite does to the machine directly:
      starting a download, failing it from outside, invalidating the slot that is
      not running, and a factory reset. */
  datatype Op =
    | Check(package: Package)
    | DownloadIt | VerifyIt | StageIt | ApplyIt | RebootIt
    | Health(healthy: bool)
    | RollBackIt | Reset
    | Inject(f: Fault) | ClearAll
    | BeginDownload
    | Interrupt(reason: string, fault: Option<Fault>)
    | Invalidate
    | FactoryReset(preserve: bool)

  function FactoryResetEffect(m: Machine, preserve: bool): Machine {
    var cleared := m.(pending := None, lastError := None, faults := {}, history := [], state := Idle);
    if preserve then cleared
    else cleared.(
         active := A,
         slots := m.slots[A := m.slots[A].(version := "0.1.0")][B := m.slots[B].(version := "0.1.0")])
  }

  /** The slot that is not running can boot but was not successful. */
  function InvalidateEffect(m: Machine): Machine {
    m.(slots := m.slots[Other(m.active) := InactiveInfo(m).(successful := false, bootable := true)])
  }

  function Do(m: Machine, op: Op): Reply {
    match op
    case Check(p) => CheckForUpdate(m, p)
    case DownloadIt => Download(m)
    case VerifyIt => Verify(m)
    case StageIt => Stage(m)
    case ApplyIt => Apply(m)
    case RebootIt => Reboot(m)
    case Health(healthy) => HealthCheckResult(m, healthy)
    case RollBackIt => Rollback(m)
    case Reset => ResetToIdle(m)
    case Inject(f) => Reply(m.(faults := m.faults + {f}), Done)
    case ClearAll => Reply(m.(faults := {}), Done)
    case BeginDownload =>
      if m.state.DownloadPending? then Reply(Enter(m, Downloading, "download_started", None), Done)
      else Reply(m, Raised("illegal transition"))
    case Interrupt(reason, fault) =>
      if Failed in Allowed(m.state) then Reply(Fail(m, reason, fault), Done)
      else Reply(m.(lastError := Some(reason)), Raised("illegal transition"))
    case Invalidate => Reply(InvalidateEffect(m), Done)
    case FactoryReset(preserve) => Reply(FactoryResetEffect(m, preserve), Done)
  }

  function Step(m: Machine, op: Op): Machine {
    Do(m, op).m
  }

  function Run(m: Machine, ops: seq<Op>): Machine
    decreases |ops|
  {
    if ops == [] then m else Run(Step(m, ops[0]), ops[1..])
  }

  /** A machine nobody has driven yet, with any two slots. */
  predicate Start(m: Machine) {
    m.state.Idle? && m.pending.None? && m.history == []
  }

  // ---- the history is a path through the table ------------------------------

  /** The events link up from idle to the given state, each along the table. */
  predicate Path(history: seq<Event>, end: State)
    decreases |history|
  {
    if history == [] then end.Idle?
    else
      var last := history[|history| - 1];
      last.to == end && end in Allowed(last.from) && Path(history[..|history| - 1], last.from)
  }

  /** Strictly falls along every table edge except idle -> checking and
      rolling back -> failed. */
  function Rank(s: State): nat {
    match s
    case Checking => 11
    case DownloadPending => 10
    case Downloading => 9
    case Verifying => 8
    case Staging => 7
    case Applying => 6
    case RebootPending => 5
    case HealthCheck => 4
    case Failed => 3
    case RollingBack => 2
    case RolledBack => 1
    case Committed => 1
    case Idle => 0
  }

  predicate Falls(e: Event) {
    !e.from.Idle? ==> Rank(e.to) < Rank(e.from)
  }

  predicate AllFall(history: seq<Event>)
    decreases |history|
  {
    history == [] || (Falls(history[|history| - 1]) && AllFall(history[..|history| - 1]))
  }

  predicate BothBootable(m: Machine) {
    m.slots[A].bootable && m.slots[B].bootable
  }

  /** One transition along the table extends the path; if it also lowers the rank
      or leaves idle, everything still falls. */
  lemma EnterExtends(m: Machine, to: State, reason: string, fault: Option<Fault>)
    requires to in Allowed(m.state)
    ensures var h := Enter(m, to, reason, fault).history;
            (Path(m.history, m.state) ==> Path(h, to)) &&
            (AllFall(m.history) && Falls(Event(m.state, to, reason, fault)) ==> AllFall(h))
  {
  }

  lemma FailExtends(m: Machine, reason: string, fault: Option<Fault>)
    requires Failed in Allowed(m.state)
    ensures var h := Fail(m, reason, fault).history;
            (Path(m.history, m.state) ==> Path(h, Failed)) &&
            (AllFall(m.history) && (m.state.Idle? || Rank(m.state) > Rank(Failed)) ==> AllFall(h))
  {
  }

  lemma SwapBackExtends(m: Machine)
    requires m.state.RollingBack?
    ensures var m' := SwapBack(m);
            (Path(m.history, m.state) ==> Path(m'.history, m'.state)) &&
            (AllFall(m.history) && InactiveInfo(m).bootable ==> AllFall(m'.history)) &&
            (BothBootable(m) ==> BothBootable(m'))
  {
    hide Path, AllFall;
    if !InactiveInfo(m).bootable {
      FailExtends(m, "no_bootable_rollback_slot", None);
    } else {
      EnterExtends(m.(slots := m.slots[m.active := ActiveInfo(m).(successful := false)],
                   active := Other(m.active), pending := None,
                   lastError := if m.lastError.None? || m.lastError.value == "" then Some("rolled_back") else m.lastError),
                   RolledBack, "rollback_complete", None);
    }
  }

  lemma RollingExtends(m: Machine, reason: string, fault: Option<Fault>)
    requires RollingBack in Allowed(m.state)
    ensures var m' := SwapBack(Enter(m, RollingBack, reason, fault));
            (Path(m.history, m.state) ==> Path(m'.history, m'.state)) &&
            (AllFall(m.history) && BothBootable(m) ==> AllFall(m'.history)) &&
            (BothBootable(m) ==> BothBootable(m'))
  {
    hide Path, AllFall;
    EnterExtends(m, RollingBack, reason, fault);
    SwapBackExtends(Enter(m, RollingBack, reason, fault));
  }

  /** Two states of one machine: the later history is still a path, and still
      falls if both slots could boot, which they then still can. */
  predicate Extends(m: Machine, m': Machine) {
    && (Path(m.history, m.state) ==> Path(m'.history, m'.state))
    && (AllFall(m.history) && BothBootable(m) ==> AllFall(m'.history))
    && (BothBootable(m) ==> BothBootable(m'))
  }

  lemma CheckExtends(m: Machine, p: Package)
    requires !m.state.RollingBack?
    ensures Extends(m, CheckForUpdate(m, p).m) && !CheckForUpdate(m, p).m.state.RollingBack?
  {
    hide Path, AllFall;
    if m.state.Idle? {
      var c := Enter(m, Checking, "check_started", None);
      EnterExtends(m, Checking, "check_started", None);
      EnterExtends(c, Idle, "already_current", None);
      FailExtends(c, "anti_rollback_security_version", None);
      EnterExtends(c.(pending := Some(Retarget(m, p))), DownloadPending, "update_available", None);
    }
  }

  lemma DownloadExtends(m: Machine)
    requires !m.state.RollingBack?
    ensures Extends(m, Download(m).m) && !Download(m).m.state.RollingBack?
  {
    hide Path, AllFall;
    if m.state.DownloadPending? {
      var d := Enter(m, Downloading, "download_started", None);
      EnterExtends(m, Downloading, "download_started", None);
      FailExtends(d, "download_corrupt", Some(DownloadCorrupt));
      EnterExtends(d, Verifying, "download_complete", None);
    }
  }

  lemma VerifyExtends(m: Machine)
    requires !m.state.RollingBack?
    ensures Extends(m, Verify(m).m) && !Verify(m).m.state.RollingBack?
  {
    hide Path, AllFall;
    if m.state.Verifying? {
      FailExtends(m, "missing_package", None);
      FailExtends(m, "signature_invalid", Some(SignatureInvalid));
      FailExtends(m, "bad_digest", None);
      EnterExtends(m, Staging, "verified", None);
    }
  }

  lemma StageExtends(m: Machine)
    requires !m.state.RollingBack?
    ensures Extends(m, Stage(m).m) && !Stage(m).m.state.RollingBack?
  {
    hide Path, AllFall;
    if m.state.Staging? {
      FailExtends(m, "stage_io_error", Some(StageIoError));
      EnterExtends(m, Applying, "staged", None);
    }
  }

  lemma ApplyExtends(m: Machine)
    requires !m.state.RollingBack?
    ensures Extends(m, Apply(m).m) && !Apply(m).m.state.RollingBack?
  {
    hide Path, AllFall;
    if m.state.Applying? {
      FailExtends(m, "apply_timeout", Some(ApplyTimeout));
      if m.pending.Some? {
        var p := m.pending.value;
        EnterExtends(m.(slots := m.slots[p.targetSlot := SlotInfo(p.version, true, false, p.securityVersion)]),
                     RebootPending, "applied_to_inactive_slot", None);
      }
    }
  }

  lemma RebootExtends(m: Machine)
    requires !m.state.RollingBack?
    ensures Extends(m, Reboot(m).m) && !Reboot(m).m.state.RollingBack?
  {
    hide Path, AllFall;
    if m.state.RebootPending? {
      FailExtends(m, "reboot_abort", Some(RebootAbort));
      if m.pending.Some? {
        EnterExtends(m.(active := m.pending.value.targetSlot), HealthCheck, "rebooted_into_new_slot", None);
      }
    }
  }

  lemma HealthExtends(m: Machine, healthy: bool)
    requires !m.state.RollingBack?
    ensures Extends(m, HealthCheckResult(m, healthy).m) && !HealthCheckResult(m, healthy).m.state.RollingBack?
  {
    hide Path, AllFall;
    if m.state.HealthCheck? {
      RollingExtends(m, "health_check_failed", Some(HealthCheckFail));
      EnterExtends(m.(slots := m.slots[m.active := ActiveInfo(m).(successful := true)]),
                   Committed, "health_ok_committed", None);
    }
  }

  lemma FactoryResetExtends(m: Machine, preserve: bool)
    ensures Extends(m, FactoryResetEffect(m, preserve))
  {
  }

  lemma RollbackExtends(m: Machine)
    requires !m.state.RollingBack?
    ensures Extends(m, Rollback(m).m) && !Rollback(m).m.state.RollingBack?
  {
    hide Path, AllFall;
    if m.state.Failed? || m.state.HealthCheck? {
      RollingExtends(m, "rollback_started", None);
    }
  }

  lemma ResetExtends(m: Machine)
    requires !m.state.RollingBack?
    ensures Extends(m, ResetToIdle(m).m) && !ResetToIdle(m).m.state.RollingBack?
  {
    hide Path, AllFall;
    if m.state in {Committed, RolledBack, Failed} {
      EnterExtends(m, Idle, "reset", None);
    }
  }

  lemma OutsideExtends(m: Machine, op: Op)
    requires !m.state.RollingBack?
    requires op.Inject? || op.ClearAll? || op.BeginDownload? || op.Interrupt? || op.Invalidate? || op.FactoryReset?
    ensures Extends(m, Step(m, op)) && !Step(m, op).state.RollingBack?
  {
    hide Path, AllFall;
    match op
    case BeginDownload =>
      if m.state.DownloadPending? { EnterExtends(m, Downloading, "download_started", None); }
    case Interrupt(reason, fault) =>
      if Failed in Allowed(m.state) { FailExtends(m, reason, fault); }
    case FactoryReset(preserve) => FactoryResetExtends(m, preserve);
    case _ =>
  }

  lemma StepExtends(m: Machine, op: Op)
    requires !m.state.RollingBack?
    ensures Extends(m, Step(m, op)) && !Step(m, op).state.RollingBack?
  {
    hide Extends, CheckForUpdate, Download, Verify, Stage, Apply, Reboot, HealthCheckResult, Rollback, ResetToIdle;
    match op
    case Check(p) => CheckExtends(m, p);
    case DownloadIt => DownloadExtends(m);
    case VerifyIt => VerifyExtends(m);
    case StageIt => StageExtends(m);
    case ApplyIt => ApplyExtends(m);
    case RebootIt => RebootExtends(m);
    case Health(healthy) => HealthExtends(m, healthy);
    case RollBackIt => RollbackExtends(m);
    case Reset => ResetExtends(m);
    case _ => OutsideExtends(m, op);
  }

  /** Path soundness: no interleaving leaves the transition table. And if both
      slots can boot, they always can, and every transition that does not start
      from idle lowers the rank: the failed / rolling-back cycle of the table is
      never taken. */
  lemma {:induction false} RunExtends(m: Machine, ops: seq<Op>)
    requires !m.state.RollingBack?
    ensures Extends(m, Run(m, ops))
    decreases |ops|
  {
    if ops != [] {
      StepExtends(m, ops[0]);
      RunExtends(Step(m, ops[0]), ops[1..]);
    }
  }

  /** A path read by positions: neighbours link up and no event leaves the table. */
  lemma {:induction false} PathLinks(history: seq<Event>, end: State, i: nat)
    requires Path(history, end) && i < |history|
    ensures history[i].to in Allowed(history[i].from)
    ensures if i == 0 then history[i].from.Idle? else history[i].from == history[i - 1].to
    decreases |history|
  {
    var front := history[..|history| - 1];
    if i < |front| {
      PathLinks(front, history[|history| - 1].from, i);
    }
  }

  lemma {:induction false} AllFallAt(history: seq<Event>, i: nat)
    requires AllFall(history) && i < |history|
    ensures Falls(history[i])
    decreases |history|
  {
    if i < |history| - 1 {
      AllFallAt(history[..|history| - 1], i);
    }
  }

  // ---- every attempt is bounded ---------------------------------------------

  lemma {:induction false} RankDrop(history: seq<Event>, end: State, i: nat, j: nat)
    requires Path(history, end) && AllFall(history) && i <= j < |history|
    requires forall k | i < k <= j :: !history[k].from.Idle?
    ensures Rank(history[j].to) + (j - i) <= Rank(history[i].to)
    decreases j - i
  {
    if i < j {
      RankDrop(history, end, i, j - 1);
      PathLinks(history, end, j);
      AllFallAt(history, j);
    }
  }

  /** Termination: an update attempt, from leaving idle to the next visit to
      idle, takes at most twelve transitions whatever is called or injected. */
  lemma AttemptIsBounded(m: Machine, ops: seq<Op>, i: nat, j: nat)
    requires Start(m) && BothBootable(m)
    requires i <= j < |Run(m, ops).history|
    requires forall k | i < k <= j :: !Run(m, ops).history[k].from.Idle?
    ensures j - i + 1 <= 12
  {
    RunExtends(m, ops);
    RankDrop(Run(m, ops).history, Run(m, ops).state, i, j);
    assert Rank(Run(m, ops).history[i].to) <= 11;
  }

  /** Whatever is called, the history is a connected path from idle to the
      current state that follows the table at every position. */
  lemma HistoryIsPath(m: Machine, ops: seq<Op>, i: nat)
    requires Start(m)
    ensures Path(Run(m, ops).history, Run(m, ops).state)
    ensures i < |Run(m, ops).history| ==> Run(m, ops).history[i].to in Allowed(Run(m, ops).history[i].from)
    ensures i + 1 == |Run(m, ops).history| ==> Run(m, ops).history[i].to == Run(m, ops).state
    ensures i + 1 < |Run(m, ops).history| ==> Run(m, ops).history[i + 1].from == Run(m, ops).history[i].to
  {
    RunExtends(m, ops);
    hide Path, Run;
    PathReads(Run(m, ops).history, Run(m, ops).state, i);
  }

  lemma PathReads(history: seq<Event>, end: State, i: nat)
    requires Path(history, end)
    ensures i < |history| ==> history[i].to in Allowed(history[i].from)
    ensures i + 1 == |history| ==> history[i].to == end
    ensures i + 1 < |history| ==> history[i + 1].from == history[i].to
  {
  }

  function Rollbacks(n: nat): seq<Op> {
    if n == 0 then [] else [RollBackIt] + Rollbacks(n - 1)
  }

  lemma {:induction false} RolledBackStays(m: Machine, n: nat)
    requires m.state.RolledBack?
    ensures Run(m, Rollbacks(n)) == m
  {
    if n > 0 {
      assert Rollbacks(n)[1..] == Rollbacks(n - 1);
      RolledBackStays(m, n - 1);
    }
  }

  /** The cycle is real otherwise: any number of rollbacks of a failed attempt ends
      in the failed state again, two events longer each time, if and only if the
      other slot cannot boot; if it can, the first one is the last that counts. */
  lemma {:induction false} RollbackCycleIff(m: Machine, n: nat)
    requires m.state.Failed? && n > 0
    ensures var m' := Run(m, Rollbacks(n));
            && (m'.state.Failed? <==> !InactiveInfo(m).bootable)
            && (m'.state.Failed? ==>
                  |m'.history| == |m.history| + 2 * n && m'.slots == m.slots && m'.active == m.active)
            && (!m'.state.Failed? ==> m' == Step(m, RollBackIt) && m'.state.RolledBack?)
    decreases n
  {
    var next := Step(m, RollBackIt);
    assert Rollbacks(n)[1..] == Rollbacks(n - 1);
    if InactiveInfo(m).bootable {
      RolledBackStays(next, n - 1);
    } else if n > 1 {
      RollbackCycleIff(next, n - 1);
    }
  }

  // ---- the commit gate ------------------------------------------------------

  predicate Checked(p: Package) {
    p.signatureValid && |p.digest| == 64
  }

  /** What the pending package is in each state. */
  predicate Gate(m: Machine) {
    match m.state
    case Idle => m.pending.None?
    case RolledBack => m.pending.None?
    case DownloadPending => m.pending.Some? && m.pending.value.targetSlot == Other(m.active)
    case Downloading => m.pending.Some? && m.pending.value.targetSlot == Other(m.active)
    case Verifying => m.pending.Some? && m.pending.value.targetSlot == Other(m.active)
    case Staging => m.pending.Some? && m.pending.value.targetSlot == Other(m.active) && Checked(m.pending.value)
    case Applying => m.pending.Some? && m.pending.value.targetSlot == Other(m.active) && Checked(m.pending.value)
    case RebootPending =>
      && m.pending.Some? && m.pending.value.targetSlot == Other(m.active) && Checked(m.pending.value)
      && InactiveInfo(m) == SlotInfo(m.pending.value.version, true, false, m.pending.value.securityVersion)
    case HealthCheck =>
      && m.pending.Some? && m.pending.value.targetSlot == m.active && Checked(m.pending.value)
      && ActiveInfo(m) == SlotInfo(m.pending.value.version, true, false, m.pending.value.securityVersion)
    case Committed =>
      && m.pending.Some? && m.pending.value.targetSlot == m.active && Checked(m.pending.value)
      && ActiveInfo(m) == SlotInfo(m.pending.value.version, true, true, m.pending.value.securityVersion)
    case Failed => true
    // never visible between calls
    case Checking => false
    case RollingBack => false
  }

  lemma VerifyKeepsGate(m: Machine)
    requires Gate(m)
    ensures Gate(Verify(m).m)
  {
  }

  lemma StageKeepsGate(m: Machine)
    requires Gate(m)
    ensures Gate(Stage(m).m)
  {
  }

  lemma ApplyKeepsGate(m: Machine)
    requires Gate(m)
    ensures Gate(Apply(m).m)
  {
  }

  lemma RebootKeepsGate(m: Machine)
    requires Gate(m)
    ensures Gate(Reboot(m).m)
  {
  }

  lemma HealthKeepsGate(m: Machine, healthy: bool)
    requires Gate(m)
    ensures Gate(HealthCheckResult(m, healthy).m)
  {
  }

  lemma RollbackKeepsGate(m: Machine)
    requires Gate(m)
    ensures Gate(Rollback(m).m)
  {
  }

  lemma ResetKeepsGate(m: Machine)
    requires Gate(m)
    ensures Gate(ResetToIdle(m).m)
  {
  }

  lemma CheckKeepsGate(m: Machine, p: Package)
    requires Gate(m)
    ensures Gate(CheckForUpdate(m, p).m)
  {
  }

  lemma StepKeepsGate(m: Machine, op: Op)
    requires Gate(m)
    ensures Gate(Step(m, op))
  {
    hide CheckForUpdate, Verify, Stage, Apply, Reboot, HealthCheckResult, Rollback, ResetToIdle;
    match op
    case Check(p) => CheckKeepsGate(m, p);
    case VerifyIt => VerifyKeepsGate(m);
    case StageIt => StageKeepsGate(m);
    case ApplyIt => ApplyKeepsGate(m);
    case RebootIt => RebootKeepsGate(m);
    case Health(healthy) => HealthKeepsGate(m, healthy);
    case RollBackIt => RollbackKeepsGate(m);
    case Reset => ResetKeepsGate(m);
    case _ =>
  }

  /** Commit gate: whatever is called, a committed slot holds exactly a package
      that was signed, had a 64-character digest and aimed at the other slot. */
  lemma {:induction false} GateAlwaysHolds(m: Machine, ops: seq<Op>)
    requires Gate(m)
    ensures Gate(Run(m, ops))
    decreases |ops|
  {
    if ops != [] {
      StepKeepsGate(m, ops[0]);
      GateAlwaysHolds(Step(m, ops[0]), ops[1..]);
    }
  }

  /** The missing-package failure and both assertions are unreachable: verify
      always finds a package, and so do apply and reboot. */
  lemma NoCallMissesItsPackage(m: Machine, ops: seq<Op>)
    requires Start(m)
    ensures var t := Run(m, ops);
            && (t.state in {Verifying, Applying, RebootPending} ==> t.pending.Some?)
            && Do(t, ApplyIt).outcome != Raised("assertion failed")
            && Do(t, RebootIt).outcome != Raised("assertion failed")
            && (Do(t, VerifyIt).outcome.Done? ==> Do(t, VerifyIt).m != Fail(t, "missing_package", None))
  {
    GateAlwaysHolds(m, ops);
    var t := Run(m, ops);
    if t.state.Verifying? {
      var v := Verify(t).m;
      assert v.history[|t.history|].reason != "missing_package";
    }
  }

  // ---- interruption ---------------------------------------------------------

  /** The calls that may change the running slot. */
  predicate Swaps(m: Machine, op: Op) {
    (op.RebootIt? && Step(m, op).state.HealthCheck? && !m.state.HealthCheck?) || op.RollBackIt? || op == FactoryReset(false)
  }

  predicate NeverSwaps(m: Machine, ops: seq<Op>)
    decreases |ops|
  {
    ops != [] ==> !Swaps(m, ops[0]) && NeverSwaps(Step(m, ops[0]), ops[1..])
  }

  predicate BeforeReboot(m: Machine) {
    Gate(m) && !m.state.HealthCheck? && !m.state.Committed? && !m.state.RolledBack?
  }

  lemma BeforeRebootStep(m: Machine, op: Op)
    requires BeforeReboot(m) && !Swaps(m, op)
    ensures BeforeReboot(Step(m, op))
    ensures Step(m, op).active == m.active && ActiveInfo(Step(m, op)) == ActiveInfo(m)
  {
    hide Gate, Stays, CheckForUpdate, Download, Verify, Stage, Apply, Reboot, HealthCheckResult, Rollback, ResetToIdle;
    GateMeaning(m);
    StepKeepsGate(m, op);
    match op
    case Check(p) => CheckStays(m, p);
    case DownloadIt => DownloadStays(m);
    case VerifyIt => VerifyStays(m);
    case StageIt => StageStays(m);
    case ApplyIt => ApplyStays(m);
    case RebootIt => RebootStays(m);
    case Health(healthy) => HealthStays(m, healthy);
    case RollBackIt =>
    case Reset => ResetStays(m);
    case _ => OutsideStays(m, op);
    StaysMeans(m, Step(m, op));
  }

  /** No update is past its reboot, and the one under way aims at the slot that is
      not running. */
  predicate Aimed(m: Machine) {
    && m.state !in {HealthCheck, Committed, RolledBack, RollingBack}
    && (m.state in {Applying, RebootPending} ==> m.pending.Some? && m.pending.value.targetSlot == Other(m.active))
  }

  predicate Stays(m: Machine, m': Machine) {
    && m'.state !in {HealthCheck, Committed, RolledBack}
    && m'.active == m.active && ActiveInfo(m') == ActiveInfo(m)
  }

  lemma StaysMeans(m: Machine, m': Machine)
    requires Stays(m, m')
    ensures m'.state !in {HealthCheck, Committed, RolledBack}
    ensures m'.active == m.active && ActiveInfo(m') == ActiveInfo(m)
  {
  }

  lemma GateMeaning(m: Machine)
    requires BeforeReboot(m)
    ensures Aimed(m)
  {
  }

  lemma CheckStays(m: Machine, p: Package)
    requires Aimed(m)
    ensures Stays(m, CheckForUpdate(m, p).m)
  {
  }

  lemma DownloadStays(m: Machine)
    requires Aimed(m)
    ensures Stays(m, Download(m).m)
  {
  }

  lemma VerifyStays(m: Machine)
    requires Aimed(m)
    ensures Stays(m, Verify(m).m)
  {
  }

  lemma StageStays(m: Machine)
    requires Aimed(m)
    ensures Stays(m, Stage(m).m)
  {
  }

  lemma ApplyStays(m: Machine)
    requires Aimed(m)
    ensures Stays(m, Apply(m).m)
  {
  }

  lemma RebootStays(m: Machine)
    requires Aimed(m) && !Swaps(m, RebootIt)
    ensures Stays(m, Reboot(m).m)
  {
  }

  lemma HealthStays(m: Machine, healthy: bool)
    requires Aimed(m)
    ensures Stays(m, HealthCheckResult(m, healthy).m)
  {
  }

  lemma ResetStays(m: Machine)
    requires Aimed(m)
    ensures Stays(m, ResetToIdle(m).m)
  {
  }

  lemma OutsideStays(m: Machine, op: Op)
    requires Aimed(m) && !Swaps(m, op)
    requires op.Inject? || op.ClearAll? || op.BeginDownload? || op.Interrupt? || op.Invalidate? || op.FactoryReset?
    ensures Stays(m, Step(m, op))
  {
    hide CheckForUpdate, Download, Verify, Stage, Apply, Reboot, HealthCheckResult, Rollback, ResetToIdle;
  }

  lemma {:induction false} BeforeRebootRun(m: Machine, ops: seq<Op>)
    requires BeforeReboot(m) && NeverSwaps(m, ops)
    ensures BeforeReboot(Run(m, ops))
    ensures Run(m, ops).active == m.active && ActiveInfo(Run(m, ops)) == ActiveInfo(m)
    decreases |ops|
  {
    hide BeforeReboot, Step, Swaps, ActiveInfo;
    if ops != [] {
      BeforeRebootStep(m, ops[0]);
      BeforeRebootRun(Step(m, ops[0]), ops[1..]);
    }
  }

  /** Interruption safety: from idle, without a completed reboot or a rollback,
      no sequence of calls, faults and interruptions touches the running slot. */
  lemma InterruptionIsSafe(m: Machine, ops: seq<Op>)
    requires m.state.Idle? && Gate(m) && NeverSwaps(m, ops)
    ensures Run(m, ops).active == m.active && ActiveInfo(Run(m, ops)) == ActiveInfo(m)
  {
    BeforeRebootRun(m, ops);
  }

  // ---- the running slot is known good ---------------------------------------

  predicate Good(info: SlotInfo, floor: int) {
    info.successful && info.bootable && info.securityVersion >= floor
  }

  /** The running slot passed its health check, can boot and is not below the
      floor; during a health check the slot to fall back to is. */
  predicate KnownGood(m: Machine, floor: int) {
    && Gate(m)
    && (if m.state.HealthCheck? then Good(InactiveInfo(m), floor) && ActiveInfo(m).securityVersion >= floor
        else Good(ActiveInfo(m), floor))
    && (m.state in {DownloadPending, Downloading, Verifying, Staging, Applying, RebootPending} ==>
          m.pending.value.securityVersion >= floor)
  }

  /** The calls that keep the running slot good. A rollback of a failed attempt
      must not land on a slot that was never health-checked or is too old; during a
      health check nothing must fail the slot from outside, invalidate the one to
      fall back to, or make it permanent by a factory reset; and a wiping reset runs
      slot A. */
  predicate Safe(m: Machine, op: Op, floor: int) {
    match op
    case RollBackIt => m.state.Failed? && InactiveInfo(m).bootable ==> Good(InactiveInfo(m), floor)
    case Interrupt(_, _) => !m.state.HealthCheck?
    case Invalidate => !m.state.HealthCheck?
    case FactoryReset(true) => !m.state.HealthCheck?
    case FactoryReset(false) => Good(m.slots[A], floor)
    case _ => true
  }

  /** The guard is exact, call by call. */
  lemma SafeIsExact(m: Machine, op: Op, floor: int)
    requires KnownGood(m, floor)
    ensures KnownGood(Step(m, op), floor) <==> Safe(m, op, floor)
  {
    hide CheckForUpdate, Download, Verify, Stage, Apply, Reboot, HealthCheckResult, Rollback, ResetToIdle, KnownGood;
    hide FactoryResetEffect, InvalidateEffect, Enter, Fail;
    match op
    case Check(p) => CheckKeepsGood(m, p, floor);
    case DownloadIt => DownloadKeepsGood(m, floor);
    case VerifyIt => VerifyKeepsGood(m, floor);
    case StageIt => StageKeepsGood(m, floor);
    case ApplyIt => ApplyKeepsGood(m, floor);
    case RebootIt => RebootKeepsGood(m, floor);
    case Health(healthy) => HealthKeepsGood(m, healthy, floor);
    case RollBackIt => RollbackKeepsGoodIff(m, floor);
    case Reset => ResetKeepsGood(m, floor);
    case _ => OutsideKeepsGoodIff(m, op, floor);
  }

  lemma CheckKeepsGood(m: Machine, p: Package, floor: int)
    requires KnownGood(m, floor)
    ensures KnownGood(CheckForUpdate(m, p).m, floor)
  {
  }

  lemma DownloadKeepsGood(m: Machine, floor: int)
    requires KnownGood(m, floor)
    ensures KnownGood(Download(m).m, floor)
  {
  }

  lemma VerifyKeepsGood(m: Machine, floor: int)
    requires KnownGood(m, floor)
    ensures KnownGood(Verify(m).m, floor)
  {
  }

  lemma StageKeepsGood(m: Machine, floor: int)
    requires KnownGood(m, floor)
    ensures KnownGood(Stage(m).m, floor)
  {
  }

  lemma ApplyKeepsGood(m: Machine, floor: int)
    requires KnownGood(m, floor)
    ensures KnownGood(Apply(m).m, floor)
  {
  }

  lemma RebootKeepsGood(m: Machine, floor: int)
    requires KnownGood(m, floor)
    ensures KnownGood(Reboot(m).m, floor)
  {
  }

  lemma HealthKeepsGood(m: Machine, healthy: bool, floor: int)
    requires KnownGood(m, floor)
    ensures KnownGood(HealthCheckResult(m, healthy).m, floor)
  {
  }

  lemma RollbackKeepsGoodIff(m: Machine, floor: int)
    requires KnownGood(m, floor)
    ensures KnownGood(Rollback(m).m, floor) <==> Safe(m, RollBackIt, floor)
  {
  }

  lemma ResetKeepsGood(m: Machine, floor: int)
    requires KnownGood(m, floor)
    ensures KnownGood(ResetToIdle(m).m, floor)
  {
  }

  lemma OutsideKeepsGoodIff(m: Machine, op: Op, floor: int)
    requires KnownGood(m, floor)
    requires op.Inject? || op.ClearAll? || op.BeginDownload? || op.Interrupt? || op.Invalidate? || op.FactoryReset?
    ensures KnownGood(Step(m, op), floor) <==> Safe(m, op, floor)
  {
    hide CheckForUpdate, Download, Verify, Stage, Apply, Reboot, HealthCheckResult, Rollback, ResetToIdle;
  }

  predicate AlwaysSafe(m: Machine, ops: seq<Op>, floor: int)
    decreases |ops|
  {
    ops != [] ==> Safe(m, ops[0], floor) && AlwaysSafe(Step(m, ops[0]), ops[1..], floor)
  }

  /** Known-good slot, over every safe run. */
  lemma {:induction false} RunningSlotStaysGood(m: Machine, ops: seq<Op>, floor: int)
    requires KnownGood(m, floor) && AlwaysSafe(m, ops, floor)
    ensures KnownGood(Run(m, ops), floor)
    decreases |ops|
  {
    if ops != [] {
      SafeIsExact(m, ops[0], floor);
      RunningSlotStaysGood(Step(m, ops[0]), ops[1..], floor);
    }
  }

  /** The intended use: rollback only out of a health check, and no failure from
      outside, invalidation or preserving reset during one; no wiping reset. */
  predicate Intended(m: Machine, op: Op) {
    && (op.RollBackIt? ==> !m.state.Failed?)
    && (op.Interrupt? || op.Invalidate? || op.FactoryReset? ==> !m.state.HealthCheck?)
    && op != FactoryReset(false)
  }

  predicate IntendedUse(m: Machine, ops: seq<Op>)
    decreases |ops|
  {
    ops != [] ==> Intended(m, ops[0]) && IntendedUse(Step(m, ops[0]), ops[1..])
  }

  /** One call, as a run. */
  lemma OneCall(m: Machine, op: Op)
    ensures Run(m, [op]) == Step(m, op)
    ensures IntendedUse(m, [op]) <==> Intended(m, op)
    ensures NeverSwaps(m, [op]) <==> !Swaps(m, op)
  {
    hide Step, Intended, Swaps;
    assert [op][1..] == [];
  }

  lemma TwoCalls(m: Machine, op1: Op, op2: Op)
    ensures Run(m, [op1, op2]) == Step(Step(m, op1), op2)
    ensures IntendedUse(m, [op1, op2]) <==> Intended(m, op1) && Intended(Step(m, op1), op2)
    ensures NeverSwaps(m, [op1, op2]) <==> !Swaps(m, op1) && !Swaps(Step(m, op1), op2)
  {
    hide Step, Intended, Swaps;
    assert [op1, op2][1..] == [op2];
    OneCall(Step(m, op1), op2);
  }

  lemma {:induction false} IntendedUseIsSafe(m: Machine, ops: seq<Op>, floor: int)
    requires IntendedUse(m, ops)
    ensures AlwaysSafe(m, ops, floor)
    decreases |ops|
  {
    if ops != [] {
      IntendedUseIsSafe(Step(m, ops[0]), ops[1..], floor);
    }
  }

  /** In intended use, the running slot is always health-checked outside a health
      check, and the security version seen in idle never goes down. */
  lemma IntendedUseKeepsGoodSlot(m: Machine, ops: seq<Op>)
    requires m.state.Idle? && m.pending.None? && ActiveInfo(m).successful && ActiveInfo(m).bootable
    requires IntendedUse(m, ops)
    ensures var m' := Run(m, ops);
            !m'.state.HealthCheck? ==>
              ActiveInfo(m').successful && ActiveInfo(m').bootable &&
              ActiveInfo(m').securityVersion >= ActiveInfo(m).securityVersion
  {
    var floor := ActiveInfo(m).securityVersion;
    IntendedUseIsSafe(m, ops, floor);
    RunningSlotStaysGood(m, ops, floor);
  }

  lemma {:induction false} RunSplits(m: Machine, before: seq<Op>, later: seq<Op>)
    ensures Run(m, before + later) == Run(Run(m, before), later)
    ensures IntendedUse(m, before + later) <==> IntendedUse(m, before) && IntendedUse(Run(m, before), later)
    decreases |before|
  {
    if before == [] {
      assert before + later == later;
    } else {
      assert (before + later)[0] == before[0] && (before + later)[1..] == before[1..] + later;
      RunSplits(Step(m, before[0]), before[1..], later);
    }
  }

  /** No downgrade between any two visits to idle of one run of intended use. */
  lemma IdleVersionsNeverDrop(m: Machine, before: seq<Op>, later: seq<Op>)
    requires m.state.Idle? && m.pending.None? && ActiveInfo(m).successful && ActiveInfo(m).bootable
    requires IntendedUse(m, before + later)
    requires Run(m, before).state.Idle? && Run(m, before + later).state.Idle?
    ensures ActiveInfo(Run(m, before + later)).securityVersion >= ActiveInfo(Run(m, before)).securityVersion
  {
    hide Step, Safe, Good;
    RunSplits(m, before, later);
    IntendedUseKeepsGoodSlot(m, before);
    GateAlwaysHolds(m, before);
    IntendedUseKeepsGoodSlot(Run(m, before), later);
  }

  /** Rolling back a failed check downgrades: the other slot may be older. */
  lemma RollbackOfFailureCanDowngrade()
    ensures var m := Machine(A, map[A := SlotInfo("2", true, true, 5), B := SlotInfo("1", true, true, 1)],
                             Idle, None, {}, [], None);
            var p := Package("3", B, "", true, 2, 0);
            var m' := Run(m, [Check(p), RollBackIt, Reset]);
            KnownGood(m, 5) && m'.state.Idle? && ActiveInfo(m').securityVersion == 1
  {
    var m := Machine(A, map[A := SlotInfo("2", true, true, 5), B := SlotInfo("1", true, true, 1)],
                     Idle, None, {}, [], None);
    var p := Package("3", B, "", true, 2, 0);
    TwoCalls(Step(m, Check(p)), RollBackIt, Reset);
    assert [Check(p), RollBackIt, Reset][1..] == [RollBackIt, Reset];
    var m1 := Step(m, Check(p));
    assert m1.state.Failed? && m1.slots == m.slots && m1.active == A;
    FailedFallsBack(m1);
  }

  lemma FailedFallsBack(m: Machine)
    requires m.state.Failed? && InactiveInfo(m).bootable
    ensures var m' := Step(Step(m, RollBackIt), Reset);
            m'.state.Idle? && m'.active == Other(m.active) && ActiveInfo(m') == InactiveInfo(m)
  {
  }

  // ---- the happy path -------------------------------------------------------

  /** `run_happy_path` commits exactly when the package is a different version,
      not below the running security version, signed, and has a full digest. */
  lemma HappyPathCommitsIff(m: Machine, p: Package)
    requires m.state.Idle? && Gate(m)
    ensures var r := HappyPath(m, p);
            r.m.state.Committed? <==>
            p.version != ActiveInfo(m).version && p.securityVersion >= ActiveInfo(m).securityVersion && Checked(p)
    ensures HappyPath(m, p).m.state.Committed? ==>
              var m' := HappyPath(m, p).m;
              && HappyPath(m, p).outcome.Done?
              && m'.active == Other(m.active)
              && ActiveInfo(m') == SlotInfo(p.version, true, true, p.securityVersion)
              && InactiveInfo(m') == ActiveInfo(m)
              && |m'.history| == |m.history| + 9
    // every other outcome leaves the running slot alone
    ensures !HappyPath(m, p).m.state.Committed? ==>
              HappyPath(m, p).m.active == m.active && HappyPath(m, p).m.slots == m.slots
  {
    hide CheckForUpdate, Download, Verify, Stage, Apply, Reboot, HealthCheckResult;
    var m0 := m.(faults := {});
    if p.version != ActiveInfo(m).version && p.securityVersion >= ActiveInfo(m).securityVersion && Checked(p) {
      HappyInstall(m0, p);
    } else {
      HappyStops(m0, p);
    }
  }

  /** The six calls before the health check of a package that passes all checks. */
  lemma HappyInstall(m: Machine, p: Package)
    requires m.state.Idle? && m.faults == {} && Checked(p)
    requires p.version != ActiveInfo(m).version && p.securityVersion >= ActiveInfo(m).securityVersion
    ensures var r1 := CheckForUpdate(m, p);
            var r2 := Download(r1.m);
            var r3 := Verify(r2.m);
            var r4 := Stage(r3.m);
            var r5 := Apply(r4.m);
            var r6 := Reboot(r5.m);
            var r7 := HealthCheckResult(r6.m, true);
            && r1.outcome.Done? && r2.outcome.Done? && r3.outcome.Done? && r4.outcome.Done? && r5.outcome.Done?
            && r6.outcome.Done? && r7.outcome.Done?
            && r7.m.state.Committed? && r7.m.active == Other(m.active) && |r7.m.history| == |m.history| + 9
            && ActiveInfo(r7.m) == SlotInfo(p.version, true, true, p.securityVersion) && InactiveInfo(r7.m) == ActiveInfo(m)
  {
    var r1 := CheckForUpdate(m, p);
    var r2 := Download(r1.m);
    assert r2.m.state.Verifying? && r2.m.slots == m.slots && |r2.m.history| == |m.history| + 4;
    var r4 := Stage(Verify(r2.m).m);
    assert r4.m.state.Applying? && r4.m.slots == m.slots && |r4.m.history| == |m.history| + 6;
    var r6 := Reboot(Apply(r4.m).m);
    assert r6.m.state.HealthCheck? && r6.m.active == Other(m.active) && |r6.m.history| == |m.history| + 8;
  }

  lemma HappyStops(m: Machine, p: Package)
    requires m.state.Idle? && m.faults == {}
    requires !(p.version != ActiveInfo(m).version && p.securityVersion >= ActiveInfo(m).securityVersion && Checked(p))
    ensures var r1 := CheckForUpdate(m, p);
            var r2 := Download(r1.m);
            var r3 := Verify(r2.m);
            var r4 := Stage(r3.m);
            && r1.m.slots == r2.m.slots == r3.m.slots == r4.m.slots == m.slots
            && r1.m.active == r2.m.active == r3.m.active == r4.m.active == m.active
            && !r1.m.state.Committed? && !r2.m.state.Committed? && !r3.m.state.Committed? && !r4.m.state.Committed?
            && (r2.outcome.Raised? || r4.outcome.Raised?)
  {
  }
}
