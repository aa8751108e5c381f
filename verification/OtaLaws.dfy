/** What the calls of the update machine achieve: how an attempt ends, that the
    machine always finds back to idle, and that updates can go on for ever. */
module OtaLaws {
  import opened Options
  import opened OtaMachine
  import opened OtaRuns

  // ---- reset ------------------------------------------------------------------

  /** A reset succeeds in the four resting states and in no other. It forgets the
      package and the error, and touches neither slots nor faults. */
  lemma ResetIff(m: Machine)
    ensures var r := ResetToIdle(m);
            && (r.outcome.Done? <==> m.state.Committed? || m.state.RolledBack? || m.state.Failed? || m.state.Idle?)
            && (r.outcome.Raised? ==> r.m == m)
            && (r.outcome.Done? ==>
                  && r.m.state.Idle? && r.m.pending.None? && r.m.lastError.None?
                  && r.m.slots == m.slots && r.m.active == m.active && r.m.faults == m.faults
                  && |r.m.history| == |m.history| + if m.state.Idle? then 0 else 1)
  {
  }

  /** Between calls each of the seven steps is done in its own state and in no other,
      and a call out of turn changes nothing. */
  lemma CallsWaitTheirTurn(m: Machine, p: Package, healthy: bool)
    requires Gate(m)
    ensures CheckForUpdate(m, p).outcome.Done? <==> m.state.Idle?
    ensures Download(m).outcome.Done? <==> m.state.DownloadPending?
    ensures Verify(m).outcome.Done? <==> m.state.Verifying?
    ensures Stage(m).outcome.Done? <==> m.state.Staging?
    ensures Apply(m).outcome.Done? <==> m.state.Applying?
    ensures Reboot(m).outcome.Done? <==> m.state.RebootPending?
    ensures HealthCheckResult(m, healthy).outcome.Done? <==> m.state.HealthCheck?
    ensures forall r | r in [CheckForUpdate(m, p), Download(m), Verify(m), Stage(m), Apply(m), Reboot(m),
                             HealthCheckResult(m, healthy)] && r.outcome.Raised? :: r.m == m
  {
  }

  /** A rollback is done while rolling back, after a failure and during a health check,
      and at no other time. If the other slot can boot it runs now, as it was; the one
      left is marked unsuccessful, the package is gone, and the error that led here
      stays, if there was one. Otherwise it fails and both slots are as they were. */
  lemma RollbackIff(m: Machine)
    ensures var r := Rollback(m);
            && (r.outcome.Done? <==> m.state.RollingBack? || m.state.Failed? || m.state.HealthCheck?)
            && (r.outcome.Raised? ==> r.m == m)
            && r.m.faults == m.faults && m.history <= r.m.history
            && (r.outcome.Done? && !InactiveInfo(m).bootable ==>
                  && r.m.state.Failed? && r.m.lastError == Some("no_bootable_rollback_slot")
                  && r.m.slots == m.slots && r.m.active == m.active && r.m.pending == m.pending)
            && (r.outcome.Done? && InactiveInfo(m).bootable ==>
                  && r.m.state.RolledBack? && r.m.active == Other(m.active) && r.m.pending.None?
                  && ActiveInfo(r.m) == InactiveInfo(m) && InactiveInfo(r.m) == ActiveInfo(m).(successful := false)
                  && r.m.lastError == if m.lastError in {None, Some("")} then Some("rolled_back") else m.lastError)
  {
  }

  /** A package that is refused leaves nothing behind: after the reset everything is as
      it was, but for the history, and the error of a failure. */
  lemma RefusedLeavesNothing(m: Machine, p: Package)
    requires m.state.Idle?
    requires p.version == ActiveInfo(m).version || p.securityVersion < ActiveInfo(m).securityVersion
    ensures var c := CheckForUpdate(m, p).m;
            && c.pending == m.pending && c.slots == m.slots && c.active == m.active && c.faults == m.faults
            && (c.state.Idle? <==> p.version == ActiveInfo(m).version)
            && ResetToIdle(c).m == m.(history := ResetToIdle(c).m.history, pending := None, lastError := None)
  {
  }

  /** One full round of calls, whatever each of them says. */
  const HomeCalls: seq<Op> := [DownloadIt, VerifyIt, StageIt, ApplyIt, RebootIt, Health(true), Reset]

  lemma ThreeMore(m: Machine, a: Op, b: Op, c: Op, rest: seq<Op>)
    ensures Run(m, [a, b, c] + rest) == Run(Step(Step(Step(m, a), b), c), rest)
  {
    hide Step;
    var ops := [a, b, c] + rest;
    assert ops[1..] == [b, c] + rest && ([b, c] + rest)[1..] == [c] + rest && ([c] + rest)[1..] == rest;
    assert Run(Step(Step(m, a), b), [c] + rest) == Run(Step(Step(Step(m, a), b), c), rest);
    assert Run(Step(m, a), [b, c] + rest) == Run(Step(Step(m, a), b), [c] + rest);
  }

  lemma SevenSteps(m: Machine, a: Op, b: Op, c: Op, d: Op, e: Op, f: Op, g: Op)
    ensures Run(m, [a, b, c, d, e, f, g]) == Step(Step(Step(Step(Step(Step(Step(m, a), b), c), d), e), f), g)
  {
    hide Step, Run;
    var m3 := Step(Step(Step(m, a), b), c);
    assert [a, b, c, d, e, f, g] == [a, b, c] + [d, e, f, g];
    ThreeMore(m, a, b, c, [d, e, f, g]);
    assert [d, e, f, g] == [d, e, f] + [g];
    ThreeMore(m3, d, e, f, [g]);
    OneCall(Step(Step(Step(m3, d), e), f), g);
  }

  /** The states that the calls up to the given one leave behind. */
  predicate Past(s: State, n: nat) {
    && s !in {Checking, RollingBack, Downloading}
    && (n >= 1 ==> !s.DownloadPending?) && (n >= 2 ==> !s.Verifying?) && (n >= 3 ==> !s.Staging?)
    && (n >= 4 ==> !s.Applying?) && (n >= 5 ==> !s.RebootPending?) && (n >= 6 ==> !s.HealthCheck?)
  }

  lemma PassDownload(m: Machine)
    requires Gate(m) && Past(m.state, 0)
    ensures Past(Step(m, DownloadIt).state, 1)
  {
  }

  lemma PassVerify(m: Machine)
    requires Gate(m) && Past(m.state, 1)
    ensures Past(Step(m, VerifyIt).state, 2)
  {
  }

  lemma PassStage(m: Machine)
    requires Gate(m) && Past(m.state, 2)
    ensures Past(Step(m, StageIt).state, 3)
  {
  }

  lemma PassApply(m: Machine)
    requires Gate(m) && Past(m.state, 3)
    ensures Past(Step(m, ApplyIt).state, 4)
  {
  }

  lemma PassReboot(m: Machine)
    requires Gate(m) && Past(m.state, 4)
    ensures Past(Step(m, RebootIt).state, 5)
  {
  }

  lemma PassHealth(m: Machine)
    requires Gate(m) && Past(m.state, 5)
    ensures Past(Step(m, Health(true)).state, 6)
  {
  }

  lemma PassReset(m: Machine)
    requires Past(m.state, 6)
    ensures Step(m, Reset).state.Idle?
  {
  }

  /** In the downloading state only an interruption or a factory reset gets the machine
      out: the public download never stops there. */
  lemma OnlyOutsideEndsDownload(m: Machine, op: Op)
    requires m.state.Downloading?
    ensures !Step(m, op).state.Downloading? <==> op.Interrupt? || op.FactoryReset?
  {
    hide SwapBack;
    if op.Interrupt? {
      assert Step(m, op) == Fail(m, op.reason, op.fault);
    }
  }

  /** The way home: from every state that runs reach, one round of calls leads back to
      idle, whatever faults are injected, if and only if no download was begun and
      left there from outside. */
  lemma HomeIff(m: Machine)
    requires Gate(m)
    ensures Run(m, HomeCalls).state.Idle? <==> !m.state.Downloading?
  {
    hide Gate, Step, Run, Past;
    var m1 := Step(m, DownloadIt);
    var m2 := Step(m1, VerifyIt);
    var m3 := Step(m2, StageIt);
    var m4 := Step(m3, ApplyIt);
    var m5 := Step(m4, RebootIt);
    var m6 := Step(m5, Health(true));
    SevenSteps(m, DownloadIt, VerifyIt, StageIt, ApplyIt, RebootIt, Health(true), Reset);
    StepKeepsGate(m, DownloadIt);
    StepKeepsGate(m1, VerifyIt);
    StepKeepsGate(m2, StageIt);
    StepKeepsGate(m3, ApplyIt);
    StepKeepsGate(m4, RebootIt);
    if m.state.Downloading? {
      OnlyOutsideEndsDownload(m, DownloadIt);
      OnlyOutsideEndsDownload(m1, VerifyIt);
      OnlyOutsideEndsDownload(m2, StageIt);
      OnlyOutsideEndsDownload(m3, ApplyIt);
      OnlyOutsideEndsDownload(m4, RebootIt);
      OnlyOutsideEndsDownload(m5, Health(true));
      OnlyOutsideEndsDownload(m6, Reset);
    } else {
      GateIsPast(m);
      PassDownload(m);
      PassVerify(m1);
      PassStage(m2);
      PassApply(m3);
      PassReboot(m4);
      PassHealth(m5);
      PassReset(m6);
    }
  }

  lemma GateIsPast(m: Machine)
    requires Gate(m) && !m.state.Downloading?
    ensures Past(m.state, 0)
  {
  }

  /** Over runs: from a fresh machine, after any calls, faults and interruptions. */
  lemma AlwaysAWayHome(m: Machine, ops: seq<Op>)
    requires Start(m) && !Run(m, ops).state.Downloading?
    ensures Run(Run(m, ops), HomeCalls).state.Idle?
  {
    GateAlwaysHolds(m, ops);
    HomeIff(Run(m, ops));
  }

  /** And with one interruption first, from there, too: no reachable state is a dead end. */
  lemma NoDeadEnd(m: Machine, reason: string, fault: Option<Fault>)
    requires Gate(m) && m.state.Downloading?
    ensures Run(Step(m, Interrupt(reason, fault)), HomeCalls).state.Idle?
  {
    OnlyOutsideEndsDownload(m, Interrupt(reason, fault));
    StepKeepsGate(m, Interrupt(reason, fault));
    HomeIff(Step(m, Interrupt(reason, fault)));
  }

  // ---- how an attempt ends ------------------------------------------------------

  /** The calls of one attempt, without clearing faults first. */
  function Attempt(p: Package, healthy: bool): seq<Op> {
    [Check(p), DownloadIt, VerifyIt, StageIt, ApplyIt, RebootIt, Health(healthy)]
  }

  /** The first thing that is wrong with installing a package, in the order in which
      it is noticed; nothing if the new slot gets to run. */
  function Trouble(m: Machine, p: Package): Option<string> {
    if p.securityVersion < ActiveInfo(m).securityVersion then Some("anti_rollback_security_version")
    else if DownloadCorrupt in m.faults then Some("download_corrupt")
    else if SignatureInvalid in m.faults || !p.signatureValid then Some("signature_invalid")
    else if |p.digest| != 64 then Some("bad_digest")
    else if StageIoError in m.faults then Some("stage_io_error")
    else if ApplyTimeout in m.faults then Some("apply_timeout")
    else if RebootAbort in m.faults then Some("reboot_abort")
    else None
  }

  /** The fault that a failure is put down to. A package without a valid signature counts
      as the fault of that name, an old one or one with a bad digest as none. */
  function Blamed(reason: string): Option<Fault> {
    if reason == "download_corrupt" then Some(DownloadCorrupt)
    else if reason == "signature_invalid" then Some(SignatureInvalid)
    else if reason == "stage_io_error" then Some(StageIoError)
    else if reason == "apply_timeout" then Some(ApplyTimeout)
    else if reason == "reboot_abort" then Some(RebootAbort)
    else None
  }

  /** The attempt has failed for this reason, which is recorded with the fault that is
      to blame, and the slot that ran still runs. */
  predicate FailedBy(m: Machine, m': Machine, reason: string) {
    && m'.state.Failed? && m'.lastError == Some(reason)
    && m'.active == m.active && ActiveInfo(m') == ActiveInfo(m) && m'.faults == m.faults
    && m'.history != [] && m'.history[|m'.history| - 1].to.Failed?
    && m'.history[|m'.history| - 1].reason == reason && m'.history[|m'.history| - 1].fault == Blamed(reason)
  }

  /** The attempt has come to this state without any trouble yet. */
  predicate OnTheWay(m: Machine, m': Machine, p: Package, state: State) {
    && m'.state == state && m'.faults == m.faults && m'.active == m.active && m'.slots == m.slots
    && m'.lastError == m.lastError
    && m'.pending == Some(Retarget(m, p))
  }

  lemma Checks(m: Machine, p: Package)
    requires m.state.Idle? && p.version != ActiveInfo(m).version
    ensures var m' := Step(m, Check(p));
            if p.securityVersion < ActiveInfo(m).securityVersion then FailedBy(m, m', "anti_rollback_security_version")
            else OnTheWay(m, m', p, DownloadPending)
  {
  }

  lemma Downloads(m0: Machine, m: Machine, p: Package)
    requires OnTheWay(m0, m, p, DownloadPending)
    ensures var m' := Step(m, DownloadIt);
            if DownloadCorrupt in m0.faults then FailedBy(m0, m', "download_corrupt") else OnTheWay(m0, m', p, Verifying)
  {
  }

  lemma Verifies(m0: Machine, m: Machine, p: Package)
    requires OnTheWay(m0, m, p, Verifying)
    ensures var m' := Step(m, VerifyIt);
            if SignatureInvalid in m0.faults || !p.signatureValid then FailedBy(m0, m', "signature_invalid")
            else if |p.digest| != 64 then FailedBy(m0, m', "bad_digest")
            else OnTheWay(m0, m', p, Staging)
  {
  }

  lemma Stages(m0: Machine, m: Machine, p: Package)
    requires OnTheWay(m0, m, p, Staging)
    ensures var m' := Step(m, StageIt);
            if StageIoError in m0.faults then FailedBy(m0, m', "stage_io_error") else OnTheWay(m0, m', p, Applying)
  {
  }

  /** The package is in the slot that does not run, not yet proven. */
  predicate Installed(m: Machine, m': Machine, p: Package, state: State, running: Slot) {
    && m'.state == state && m'.faults == m.faults && m'.active == running && m'.lastError == m.lastError
    && m'.pending == Some(Retarget(m, p))
    && Info(m'.slots, m.active) == ActiveInfo(m)
    && Info(m'.slots, Other(m.active)) == SlotInfo(p.version, true, false, p.securityVersion)
  }

  lemma Applies(m0: Machine, m: Machine, p: Package)
    requires OnTheWay(m0, m, p, Applying)
    ensures var m' := Step(m, ApplyIt);
            if ApplyTimeout in m0.faults then FailedBy(m0, m', "apply_timeout")
            else Installed(m0, m', p, RebootPending, m0.active)
  {
  }

  lemma Reboots(m0: Machine, m: Machine, p: Package)
    requires Installed(m0, m, p, RebootPending, m0.active)
    ensures var m' := Step(m, RebootIt);
            if RebootAbort in m0.faults then FailedBy(m0, m', "reboot_abort")
            else Installed(m0, m', p, HealthCheck, Other(m0.active))
  {
  }

  /** How the health check of the new slot ends. */
  predicate Ended(m: Machine, m': Machine, p: Package, healthy: bool) {
    if HealthCheckFail !in m.faults && healthy then
      && m'.state.Committed? && m'.active == Other(m.active)
      && ActiveInfo(m') == SlotInfo(p.version, true, true, p.securityVersion) && InactiveInfo(m') == ActiveInfo(m)
    else if ActiveInfo(m).bootable then
      && m'.state.RolledBack? && m'.active == m.active && m'.pending.None?
      && ActiveInfo(m') == ActiveInfo(m) && InactiveInfo(m') == SlotInfo(p.version, true, false, p.securityVersion)
    else
      && m'.state.Failed? && m'.lastError == Some("no_bootable_rollback_slot") && m'.active == Other(m.active)
  }

  lemma Ends(m0: Machine, m: Machine, p: Package, healthy: bool)
    requires Installed(m0, m, p, HealthCheck, Other(m0.active))
    ensures Ended(m0, Step(m, Health(healthy)), p, healthy)
  {
  }

  /** A failed attempt ignores the rest of its calls. */
  lemma FailedIgnores(m: Machine, healthy: bool)
    requires m.state.Failed? || m.state.Idle?
    ensures Step(m, DownloadIt) == m && Step(m, VerifyIt) == m && Step(m, StageIt) == m && Step(m, ApplyIt) == m
    ensures Step(m, RebootIt) == m && Step(m, Health(healthy)) == m
  {
  }

  /** How an attempt ends, for every package, every set of injected faults and either
      outcome of the health check: nothing happens if the version is current; else it
      fails for the first trouble there is, with the slot that ran still running; else
      the health check commits the new slot, or falls back to the old one as it was. */
  lemma AttemptEnds(m: Machine, p: Package, healthy: bool)
    requires m.state.Idle?
    ensures var m' := Run(m, Attempt(p, healthy));
            if p.version == ActiveInfo(m).version then
              m'.state.Idle? && m'.slots == m.slots && m'.active == m.active && m'.pending == m.pending
            else if Trouble(m, p).Some? then FailedBy(m, m', Trouble(m, p).value)
            else Ended(m, m', p, healthy)
  {
    hide Step, Run, FailedBy, OnTheWay, Installed, Ended, ActiveInfo;
    var m1 := Step(m, Check(p));
    var m2 := Step(m1, DownloadIt);
    var m3 := Step(m2, VerifyIt);
    var m4 := Step(m3, StageIt);
    var m5 := Step(m4, ApplyIt);
    var m6 := Step(m5, RebootIt);
    SevenSteps(m, Check(p), DownloadIt, VerifyIt, StageIt, ApplyIt, RebootIt, Health(healthy));
    if p.version == ActiveInfo(m).version {
      AlreadyCurrent(m, p);
      FailedIgnores(m1, healthy);
    } else {
      Checks(m, p);
      if Trouble(m, p) == Some("anti_rollback_security_version") {
        Stuck(m, m1, healthy);
      } else {
        Downloads(m, m1, p);
        if DownloadCorrupt in m.faults {
          Stuck(m, m2, healthy);
        } else {
          Verifies(m, m2, p);
          if SignatureInvalid in m.faults || !p.signatureValid || |p.digest| != 64 {
            Stuck(m, m3, healthy);
          } else {
            Stages(m, m3, p);
            AttemptFinishes(m, m4, p, healthy);
          }
        }
      }
    }
  }

  lemma AttemptFinishes(m: Machine, m4: Machine, p: Package, healthy: bool)
    requires if StageIoError in m.faults then FailedBy(m, m4, "stage_io_error") else OnTheWay(m, m4, p, Applying)
    ensures var m' := Step(Step(Step(m4, ApplyIt), RebootIt), Health(healthy));
            if StageIoError in m.faults then FailedBy(m, m', "stage_io_error")
            else if ApplyTimeout in m.faults then FailedBy(m, m', "apply_timeout")
            else if RebootAbort in m.faults then FailedBy(m, m', "reboot_abort")
            else Ended(m, m', p, healthy)
  {
    hide Step, OnTheWay, Installed, Ended, ActiveInfo, FailedBy;
    var m5 := Step(m4, ApplyIt);
    var m6 := Step(m5, RebootIt);
    if StageIoError in m.faults {
      Stuck(m, m4, healthy);
    } else {
      Applies(m, m4, p);
      if ApplyTimeout in m.faults {
        Stuck(m, m5, healthy);
      } else {
        Reboots(m, m5, p);
        if RebootAbort in m.faults {
          Stuck(m, m6, healthy);
        } else {
          Ends(m, m6, p, healthy);
        }
      }
    }
  }

  lemma AlreadyCurrent(m: Machine, p: Package)
    requires m.state.Idle? && p.version == ActiveInfo(m).version
    ensures var m' := Step(m, Check(p));
            m'.state.Idle? && m'.slots == m.slots && m'.active == m.active && m'.pending == m.pending
  {
  }

  lemma Stuck(m0: Machine, m: Machine, healthy: bool)
    requires exists reason :: FailedBy(m0, m, reason)
    ensures Step(m, DownloadIt) == m && Step(m, VerifyIt) == m && Step(m, StageIt) == m && Step(m, ApplyIt) == m
    ensures Step(m, RebootIt) == m && Step(m, Health(healthy)) == m
  {
    FailedIgnores(m, healthy);
  }

  /** A package the machine may install. */
  predicate Admissible(p: Package, running: SlotInfo) {
    p.version != running.version && p.securityVersion >= running.securityVersion && Checked(p)
  }

  /** An attempt commits if and only if the package is admissible, no fault is
      injected and the new slot is healthy: each of the six faults stops it. */
  lemma AttemptCommitsIff(m: Machine, p: Package, healthy: bool)
    requires m.state.Idle?
    ensures Run(m, Attempt(p, healthy)).state.Committed? <==>
            Admissible(p, ActiveInfo(m)) && healthy && m.faults == {}
  {
    AttemptEnds(m, p, healthy);
    if Admissible(p, ActiveInfo(m)) && healthy && Trouble(m, p).None? && HealthCheckFail !in m.faults {
      forall f ensures f !in m.faults {
        match f
        case DownloadCorrupt =>
        case SignatureInvalid =>
        case StageIoError =>
        case ApplyTimeout =>
        case HealthCheckFail =>
        case RebootAbort =>
      }
    }
  }

  /** Injected faults stay until they are cleared or the machine is reset to factory
      state; then nothing of the past stands in the way of the next attempt. */
  lemma FaultsLastUntilCleared(m: Machine, f: Fault, preserve: bool, p: Package, healthy: bool)
    requires m.state.Idle?
    ensures !Run(Step(m, Inject(f)), Attempt(p, healthy)).state.Committed?
    ensures Run(Step(m, ClearAll), Attempt(p, true)).state.Committed? <==> Admissible(p, ActiveInfo(m))
  {
    hide Run, Trouble, Admissible;
    AttemptCommitsIff(Step(m, Inject(f)), p, healthy);
    AttemptCommitsIff(Step(m, ClearAll), p, true);
    assert f in Step(m, Inject(f)).faults;
  }

  /** A factory reset, in any state whatever, leaves a machine on which an attempt
      commits exactly for an admissible package; it keeps the slots as they are, or
      wipes their versions and runs slot A. */
  lemma FactoryResetStartsClean(m: Machine, preserve: bool, p: Package)
    ensures var m' := Step(m, FactoryReset(preserve));
            && m'.state.Idle? && Gate(m') && m'.history == [] && m'.lastError.None?
            && (Run(m', Attempt(p, true)).state.Committed? <==> Admissible(p, ActiveInfo(m')))
            && (preserve ==> m'.active == m.active && m'.slots == m.slots)
            && (!preserve ==>
                  m'.active == A && forall s :: Info(m'.slots, s) == Info(m.slots, s).(version := "0.1.0"))
  {
    hide Run, Admissible;
    AttemptCommitsIff(Step(m, FactoryReset(preserve)), p, true);
  }

  // ---- updates go on ------------------------------------------------------------

  /** A happy path and the reset after it. */
  function Update(m: Machine, p: Package): Machine {
    ResetToIdle(HappyPath(m, p).m).m
  }

  function Updates(m: Machine, ps: seq<Package>): Machine
    decreases |ps|
  {
    if ps == [] then m else Updates(Update(m, ps[0]), ps[1..])
  }

  /** Each package may be installed over the one before. */
  predicate Successive(ps: seq<Package>, running: SlotInfo)
    decreases |ps|
  {
    ps != [] ==>
      Admissible(ps[0], running) && Successive(ps[1..], SlotInfo(ps[0].version, true, true, ps[0].securityVersion))
  }

  lemma UpdateInstalls(m: Machine, p: Package)
    requires m.state.Idle? && Gate(m) && Admissible(p, ActiveInfo(m))
    ensures var m' := Update(m, p);
            && m'.state.Idle? && Gate(m') && m'.active == Other(m.active)
            && ActiveInfo(m') == SlotInfo(p.version, true, true, p.securityVersion) && InactiveInfo(m') == ActiveInfo(m)
  {
    hide HappyPath;
    HappyPathCommitsIff(m, p);
  }

  /** Updates can go on for ever: any succession of admissible packages is installed,
      one after the other, in alternating slots, each with the one before to fall
      back to. */
  lemma {:induction false} UpdatesGoOn(m: Machine, ps: seq<Package>)
    requires m.state.Idle? && Gate(m) && Successive(ps, ActiveInfo(m)) && ps != []
    ensures var m' := Updates(m, ps);
            var last := ps[|ps| - 1];
            && m'.state.Idle? && Gate(m')
            && m'.active == (if |ps| % 2 == 0 then m.active else Other(m.active))
            && ActiveInfo(m') == SlotInfo(last.version, true, true, last.securityVersion)
            && InactiveInfo(m') == if |ps| == 1 then ActiveInfo(m)
                                   else SlotInfo(ps[|ps| - 2].version, true, true, ps[|ps| - 2].securityVersion)
    decreases |ps|
  {
    hide Update, Gate, Admissible;
    UpdateInstalls(m, ps[0]);
    if |ps| == 1 {
      assert Updates(m, ps) == Update(m, ps[0]);
    } else {
      UpdatesGoOn(Update(m, ps[0]), ps[1..]);
    }
  }

  // ---- failures are recorded ------------------------------------------------------

  /** A failed machine says why, and its history ends with that failure; one that was
      rolled back gives some reason, too. */
  predicate SaysWhy(m: Machine) {
    && (m.state.Failed? ==>
          && m.history != [] && m.history[|m.history| - 1].to.Failed?
          && m.lastError == Some(m.history[|m.history| - 1].reason))
    && (m.state.RolledBack? ==> m.lastError.Some? && m.lastError.value != "")
  }

  lemma CheckSaysWhy(m: Machine, p: Package)
    requires SaysWhy(m) && !m.state.RollingBack?
    ensures SaysWhy(CheckForUpdate(m, p).m) && !CheckForUpdate(m, p).m.state.RollingBack?
  {
  }

  lemma DownloadSaysWhy(m: Machine)
    requires SaysWhy(m) && !m.state.RollingBack?
    ensures SaysWhy(Download(m).m) && !Download(m).m.state.RollingBack?
  {
  }

  lemma VerifySaysWhy(m: Machine)
    requires SaysWhy(m) && !m.state.RollingBack?
    ensures SaysWhy(Verify(m).m) && !Verify(m).m.state.RollingBack?
  {
  }

  lemma StageSaysWhy(m: Machine)
    requires SaysWhy(m) && !m.state.RollingBack?
    ensures SaysWhy(Stage(m).m) && !Stage(m).m.state.RollingBack?
  {
  }

  lemma ApplySaysWhy(m: Machine)
    requires SaysWhy(m) && !m.state.RollingBack?
    ensures SaysWhy(Apply(m).m) && !Apply(m).m.state.RollingBack?
  {
  }

  lemma RebootSaysWhy(m: Machine)
    requires SaysWhy(m) && !m.state.RollingBack?
    ensures SaysWhy(Reboot(m).m) && !Reboot(m).m.state.RollingBack?
  {
  }

  lemma HealthSaysWhy(m: Machine, healthy: bool)
    requires SaysWhy(m) && !m.state.RollingBack?
    ensures SaysWhy(HealthCheckResult(m, healthy).m) && !HealthCheckResult(m, healthy).m.state.RollingBack?
  {
  }

  lemma RollbackSaysWhy(m: Machine)
    requires SaysWhy(m) && !m.state.RollingBack?
    ensures SaysWhy(Rollback(m).m) && !Rollback(m).m.state.RollingBack?
  {
  }

  lemma StepSaysWhy(m: Machine, op: Op)
    requires SaysWhy(m) && !m.state.RollingBack? && (op.Interrupt? ==> Failed in Allowed(m.state))
    ensures SaysWhy(Step(m, op)) && !Step(m, op).state.RollingBack?
  {
    hide CheckForUpdate, Download, Verify, Stage, Apply, Reboot, HealthCheckResult, Rollback;
    match op
    case Check(p) => CheckSaysWhy(m, p);
    case DownloadIt => DownloadSaysWhy(m);
    case VerifyIt => VerifySaysWhy(m);
    case StageIt => StageSaysWhy(m);
    case ApplyIt => ApplySaysWhy(m);
    case RebootIt => RebootSaysWhy(m);
    case Health(healthy) => HealthSaysWhy(m, healthy);
    case RollBackIt => RollbackSaysWhy(m);
    case _ =>
  }

  /** No interruption comes where the table does not allow the failure. */
  predicate LegalInterrupts(m: Machine, ops: seq<Op>)
    decreases |ops|
  {
    ops != [] ==> (ops[0].Interrupt? ==> Failed in Allowed(m.state)) && LegalInterrupts(Step(m, ops[0]), ops[1..])
  }

  lemma {:induction false} FailuresAreRecorded(m: Machine, ops: seq<Op>)
    requires SaysWhy(m) && !m.state.RollingBack? && LegalInterrupts(m, ops)
    ensures SaysWhy(Run(m, ops))
    decreases |ops|
  {
    hide SaysWhy, Step;
    if ops != [] {
      StepSaysWhy(m, ops[0]);
      FailuresAreRecorded(Step(m, ops[0]), ops[1..]);
    }
  }
}
