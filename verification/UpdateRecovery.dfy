/** The update and recovery suite: scenarios that drive a fresh state machine and
    judge the outcome, and the digital factory reset. Package digests are inputs. */
module UpdateRecovery {
  import opened Options
  import opened OtaMachine
  import opened OtaObject
  import OtaRuns

  datatype InterruptPoint = DuringDownload | DuringVerify | DuringStage | DuringApply | DuringReboot

  datatype Row = Row(scenario: string, ok: bool)

  datatype UserState = UserState(profile: Option<string>, wifi: Option<string>, apps: seq<string>, telemetry: bool)

  datatype ResetResult = ResetResult(ok: bool, preserved: bool, cleared: bool, active: Slot, version: string)

  const Points: seq<InterruptPoint> := [DuringDownload, DuringVerify, DuringStage, DuringApply, DuringReboot]

  /** The state the machine is in when the interruption strikes. */
  function StateAt(point: InterruptPoint): State {
    match point
    case DuringDownload => DownloadPending
    case DuringVerify => Verifying
    case DuringStage => Staging
    case DuringApply => Applying
    case DuringReboot => RebootPending
  }

  /** What an interruption does, as operations of the runs. */
  function StrikeOps(point: InterruptPoint): seq<OtaRuns.Op> {
    match point
    case DuringDownload => [OtaRuns.BeginDownload, OtaRuns.Interrupt("update_interrupted", Some(DownloadCorrupt))]
    case DuringVerify => [OtaRuns.Interrupt("update_interrupted", Some(SignatureInvalid))]
    case DuringStage => [OtaRuns.Interrupt("update_interrupted", Some(StageIoError))]
    case DuringApply => [OtaRuns.Interrupt("update_interrupted", Some(ApplyTimeout))]
    case DuringReboot => [OtaRuns.Interrupt("update_interrupted", Some(RebootAbort)), OtaRuns.Invalidate]
  }

  function Struck(m: Machine, point: InterruptPoint): Machine {
    match point
    case DuringDownload =>
      Fail(Enter(m, Downloading, "download_started", None), "update_interrupted", Some(DownloadCorrupt))
    case DuringVerify => Fail(m, "update_interrupted", Some(SignatureInvalid))
    case DuringStage => Fail(m, "update_interrupted", Some(StageIoError))
    case DuringApply => Fail(m, "update_interrupted", Some(ApplyTimeout))
    case DuringReboot => OtaRuns.InvalidateEffect(Fail(m, "update_interrupted", Some(RebootAbort)))
  }

  /** An interruption is a run of the machine. */
  lemma StrikeIsRun(m: Machine, point: InterruptPoint)
    requires m.state == StateAt(point)
    ensures OtaRuns.Run(m, StrikeOps(point)) == Struck(m, point)
  {
    hide OtaRuns.Run, OtaRuns.Step, OtaRuns.Swaps, OtaRuns.Intended, OtaRuns.IntendedUse, OtaRuns.NeverSwaps;
    hide Enter, Fail, OtaRuns.InvalidateEffect;
    var ops := StrikeOps(point);
    if point.DuringDownload? {
      BeginInterrupted(m, "update_interrupted", Some(DownloadCorrupt));
      OtaRuns.TwoCalls(m, ops[0], ops[1]);
    } else if point.DuringReboot? {
      InterruptFails(m, "update_interrupted", Some(RebootAbort));
      InvalidateActs(OtaRuns.Step(m, ops[0]));
      OtaRuns.TwoCalls(m, ops[0], ops[1]);
    } else {
      InterruptFails(m, "update_interrupted", ops[0].fault);
      OtaRuns.OneCall(m, ops[0]);
    }
  }

  lemma InterruptFails(m: Machine, reason: string, fault: Option<Fault>)
    requires Failed in Allowed(m.state)
    ensures OtaRuns.Step(m, OtaRuns.Interrupt(reason, fault)) == Fail(m, reason, fault)
  {
  }

  lemma InvalidateActs(m: Machine)
    ensures OtaRuns.Step(m, OtaRuns.Invalidate) == OtaRuns.InvalidateEffect(m)
  {
  }

  lemma BeginInterrupted(m: Machine, reason: string, fault: Option<Fault>)
    requires m.state.DownloadPending?
    ensures OtaRuns.Step(OtaRuns.Step(m, OtaRuns.BeginDownload), OtaRuns.Interrupt(reason, fault))
         == Fail(Enter(m, Downloading, "download_started", None), reason, fault)
  {
  }

  /** Interruptions are part of the intended use and swap nothing. */
  lemma StrikeIsIntended(m: Machine, point: InterruptPoint)
    requires m.state == StateAt(point)
    ensures OtaRuns.IntendedUse(m, StrikeOps(point)) && OtaRuns.NeverSwaps(m, StrikeOps(point))
  {
    hide OtaRuns.Run, OtaRuns.Step, OtaRuns.IntendedUse, OtaRuns.NeverSwaps;
    var ops := StrikeOps(point);
    if point.DuringDownload? {
      BeginStarts(m);
      OtaRuns.TwoCalls(m, ops[0], ops[1]);
    } else if point.DuringReboot? {
      InterruptFails(m, "update_interrupted", Some(RebootAbort));
      OtaRuns.TwoCalls(m, ops[0], ops[1]);
    } else {
      OtaRuns.OneCall(m, ops[0]);
    }
  }

  lemma BeginStarts(m: Machine)
    requires m.state.DownloadPending?
    ensures OtaRuns.Step(m, OtaRuns.BeginDownload).state.Downloading?
  {
  }

  /** What an interruption leaves of an attempt. */
  lemma StruckOutcome(m: Machine, point: InterruptPoint, p: Package)
    requires Driven(m, StateAt(point), p)
    ensures var m' := Struck(m, point);
            && m'.state.Failed? && m'.active == A && m'.slots[A] == DefaultSlots[A]
            && m'.slots[B] == if point.DuringReboot? then SlotInfo(p.version, true, false, p.securityVersion)
                              else DefaultSlots[B]
  {
  }

  function PointName(point: InterruptPoint): string {
    match point
    case DuringDownload => "during_download"
    case DuringVerify => "during_verify"
    case DuringStage => "during_stage"
    case DuringApply => "during_apply"
    case DuringReboot => "during_reboot"
  }

  function Interrupted(n: nat): seq<Row>
    requires n <= |Points|
  {
    if n == 0 then [] else Interrupted(n - 1) + [Row("interrupted_" + PointName(Points[n - 1]), true)]
  }

  function Pkg(version: string, digest: string): Package {
    Package(version, B, digest, true, 1, 1024)
  }

  /** A machine on slot A, with its factory slot A, on its way to installing p in slot B. */
  predicate Driven(m: Machine, state: State, p: Package) {
    && m.active == A && m.slots[A] == DefaultSlots[A] && m.state == state
    && m.pending == Some(p) && m.faults == {}
    && m.slots[B] == (if state.RebootPending? then SlotInfo(p.version, true, false, p.securityVersion) else DefaultSlots[B])
  }

  /** Without faults each call brings the machine to the next state. */
  lemma DriveOn(m: Machine, p: Package)
    requires p.targetSlot == B && p.signatureValid && |p.digest| == 64
    ensures Driven(m, DownloadPending, p) ==> Driven(Download(m).m, Verifying, p)
    ensures Driven(m, Verifying, p) ==> Driven(Verify(m).m, Staging, p)
    ensures Driven(m, Staging, p) ==> Driven(Stage(m).m, Applying, p)
    ensures Driven(m, Applying, p) ==> Driven(Apply(m).m, RebootPending, p)
  {
  }

  class UpdateRecoverySuite {
    var sm: OtaStateMachine
    var userState: UserState
    var history: seq<Row>

    constructor ()
      ensures fresh(sm) && sm.Contents() == Machine(A, DefaultSlots, Idle, None, {}, [], None)
      ensures history == [] && userState.profile == Some("student")
    {
      sm := new OtaStateMachine();
      userState := UserState(Some("student"), Some("campus-dev"), ["launcher", "notes"], false);
      history := [];
    }

    method Record(name: string, ok: bool) returns (row: Row)
      modifies this`history
      ensures row == Row(name, ok) && history == old(history) + [row]
    {
      row := Row(name, ok);
      history := history + [row];
    }

    /** The common prefix of the scenarios: a fresh machine that was offered the
        package and driven, call by call, up to the given state. */
    method Prepare(p: Package, target: State)
      requires p.targetSlot == B && p.signatureValid && |p.digest| == 64
      requires p.version != DefaultSlots[A].version && p.securityVersion >= 1
      requires target in {DownloadPending, Verifying, Staging, Applying, RebootPending}
      modifies this`sm
      ensures fresh(sm) && Driven(sm.Contents(), target, p)
    {
      sm := new OtaStateMachine();
      var _ := sm.CheckForUpdate(p);
      if target == DownloadPending { return; }
      DriveOn(sm.Contents(), p);
      var _ := sm.Download();
      if target == Verifying { return; }
      DriveOn(sm.Contents(), p);
      var _ := sm.Verify();
      if target == Staging { return; }
      DriveOn(sm.Contents(), p);
      var _ := sm.Stage();
      if target == Applying { return; }
      DriveOn(sm.Contents(), p);
      var _ := sm.Apply();
    }

    /** A corrupted download fails, resets without a swap, and a clean retry commits. */
    method CorruptDownloadRecovers(digest1: string, digest2: string) returns (row: Row)
      requires |digest2| == 64
      modifies this
      ensures row == Row("corrupt_download_recovers", true) && history == old(history) + [row] && userState == old(userState)
      ensures fresh(sm) && sm.state.Committed? && sm.activeSlot == B
      ensures sm.slots[B] == SlotInfo("0.2.1", true, true, 1) && sm.slots[A] == DefaultSlots[A]
    {
      hide HappyPath;
      sm := new OtaStateMachine();
      var original := sm.activeSlot;
      var _ := sm.CheckForUpdate(Pkg("0.2.0", digest1));
      sm.InjectFault(DownloadCorrupt);
      var _ := sm.Download();
      var failed := sm.state == Failed;
      var _ := sm.ResetToIdle();
      var recovered := sm.state == Idle;
      sm.ClearFaults();
      OtaRuns.HappyPathCommitsIff(sm.Contents(), Pkg("0.2.1", digest2));
      var _ := sm.RunHappyPath(Pkg("0.2.1", digest2));
      var ok := failed && recovered && sm.state == Committed && sm.activeSlot != original
                && Info(sm.slots, sm.activeSlot).version == "0.2.1";
      row := Record("corrupt_download_recovers", ok);
    }

    /** An interruption at any point before the new slot runs is recovered from
        by a reset, with the old slot running untouched. */
    method InterruptedUpdate(point: InterruptPoint, digest: string) returns (row: Row)
      requires |digest| == 64
      modifies this
      ensures row == Row("interrupted_" + PointName(point), true)
      ensures history == old(history) + [row] && userState == old(userState)
      ensures fresh(sm) && sm.state.Idle? && sm.pending.None? && sm.lastError.None?
      ensures sm.activeSlot == A && sm.slots[A] == DefaultSlots[A]
      ensures sm.slots[B] == if point.DuringReboot? then SlotInfo("0.2.0", true, false, 1) else DefaultSlots[B]
    {
      hide Struck, StrikeOps, OtaRuns.Run, Driven;
      Prepare(Pkg("0.2.0", digest), StateAt(point));
      StruckOutcome(sm.Contents(), point, Pkg("0.2.0", digest));
      var before := sm.activeSlot;
      Strike(point);
      var _ := sm.ResetToIdle();
      var ok := sm.state == Idle && sm.activeSlot == before && sm.pending == None && Info(sm.slots, before).bootable;
      row := Record("interrupted_" + PointName(point), ok);
    }

    /** The interruption itself, which is a run of the machine. */
    method Strike(point: InterruptPoint)
      requires sm.state == StateAt(point)
      modifies sm
      ensures sm.Contents() == OtaRuns.Run(old(sm.Contents()), StrikeOps(point))
      ensures sm.Contents() == Struck(old(sm.Contents()), point)
    {
      StrikeIsRun(sm.Contents(), point);
      match point {
        case DuringDownload =>
          var _ := sm.Transition(Downloading, "download_started", None);
          var _ := sm.FailWith("update_interrupted", Some(DownloadCorrupt));
        case DuringVerify =>
          var _ := sm.FailWith("update_interrupted", Some(SignatureInvalid));
        case DuringStage =>
          var _ := sm.FailWith("update_interrupted", Some(StageIoError));
        case DuringApply =>
          var _ := sm.FailWith("update_interrupted", Some(ApplyTimeout));
        case DuringReboot =>
          var _ := sm.FailWith("update_interrupted", Some(RebootAbort));
          var inactive := Other(sm.activeSlot);
          sm.slots := sm.slots[inactive := Info(sm.slots, inactive).(successful := false, bootable := true)];
      }
    }

    /** A failed health check falls back to the slot that ran before. */
    method RollbackAfterBadHealth(digest: string) returns (row: Row)
      requires |digest| == 64
      modifies this
      ensures row == Row("rollback_after_bad_health", true) && history == old(history) + [row] && userState == old(userState)
      ensures fresh(sm) && sm.state.RolledBack? && sm.activeSlot == A && sm.slots[A] == DefaultSlots[A]
      ensures sm.slots[B] == SlotInfo("0.3.0", true, false, 1)
    {
      Prepare(Pkg("0.3.0", digest), RebootPending);
      var _ := sm.SimulateReboot();
      var _ := sm.CheckHealth(false);
      var ok := sm.state == RolledBack && sm.activeSlot == A && sm.slots[A].bootable;
      row := Record("rollback_after_bad_health", ok);
    }

    method ForceIdle()
      modifies sm
      ensures sm.Contents() == OtaRuns.FactoryResetEffect(old(sm.Contents()), true)
    {
      sm.pending := None;
      sm.lastError := None;
      sm.faults := {};
      sm.history := [];
      if sm.state != Idle {
        sm.state := Idle;
      }
    }

    method WipeVersions()
      modifies sm
      ensures sm.Contents() == old(sm.Contents()).(
                               active := A,
                               slots := old(sm.slots)[A := old(sm.slots)[A].(version := "0.1.0")]
                               [B := old(sm.slots)[B].(version := "0.1.0")])
    {
      sm.slots := sm.slots[A := sm.slots[A].(version := "0.1.0")];
      sm.slots := sm.slots[B := sm.slots[B].(version := "0.1.0")];
      sm.activeSlot := A;
    }

    /** Clears user state and forces the machine idle; the slots keep their
        versions unless asked otherwise. */
    method FactoryReset(preserve: bool) returns (result: ResetResult)
      modifies this, sm
      ensures sm == old(sm) && sm.Contents() == OtaRuns.FactoryResetEffect(old(sm.Contents()), preserve)
      ensures userState == UserState(None, None, ["launcher"], false)
      ensures result == ResetResult(true, preserve, true, sm.activeSlot, Info(sm.slots, sm.activeSlot).version)
      ensures history == old(history) + [Row("factory_reset", true)]
    {
      var active := sm.activeSlot;
      var version := Info(sm.slots, active).version;
      userState := UserState(None, None, ["launcher"], false);
      ForceIdle();
      if !preserve {
        WipeVersions();
        active := A;
        version := "0.1.0";
      }
      result := ResetResult(true, preserve, userState.profile == None, active, version);
      var _ := Record("factory_reset", result.ok);
    }

    /** The whole suite passes, and ends on a wiped, idle, known-good machine. */
    method RunAll(digest: string) returns (ok: bool, count: nat)
      requires |digest| == 64
      modifies this
      ensures ok && count == 9
      ensures history == old(history) + [Row("corrupt_download_recovers", true)] + Interrupted(|Points|)
                         + [Row("rollback_after_bad_health", true), Row("factory_reset", true), Row("factory_reset", true)]
      ensures OtaRuns.KnownGood(sm.Contents(), 1) && sm.activeSlot == A && sm.slots[A].version == "0.1.0"
    {
      var row := CorruptDownloadRecovers(digest, digest);
      ok, count := row.ok, 1;
      for i := 0 to |Points|
        invariant ok && count == 1 + i && fresh(sm)
        invariant history == old(history) + [Row("corrupt_download_recovers", true)] + Interrupted(i)
      {
        row := InterruptedUpdate(Points[i], digest);
        ok, count := ok && row.ok, count + 1;
      }
      row := RollbackAfterBadHealth(digest);
      ok, count := ok && row.ok, count + 1;
      var kept := FactoryReset(true);
      var wiped := FactoryReset(false);
      ok, count := ok && kept.ok && wiped.ok, count + 2;
    }
  }
}
