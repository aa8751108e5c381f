/** The state machine object: each method changes the fields step by step, as the
    calls do, and is proved to have exactly the effect of its function. */
module OtaObject {
  import opened Options
  import opened OtaMachine

  class OtaStateMachine {
    var activeSlot: Slot
    var slots: Slots
    var state: State
    var pending: Option<Package>
    var faults: set<Fault>
    var history: seq<Event>
    var lastError: Option<string>

    constructor ()
      ensures Contents() == Machine(A, DefaultSlots, Idle, None, {}, [], None)
    {
      activeSlot, slots, state, pending := A, DefaultSlots, Idle, None;
      faults, history, lastError := {}, [], None;
    }

    function Contents(): Machine
      reads this
    {
      Machine(activeSlot, slots, state, pending, faults, history, lastError)
    }

    method InjectFault(f: Fault)
      modifies this
      ensures Contents() == old(Contents()).(faults := old(faults) + {f})
    {
      faults := faults + {f};
    }

    method ClearFaults()
      modifies this
      ensures Contents() == old(Contents()).(faults := {})
    {
      faults := {};
    }

    /** Refuses, changing nothing, what the table does not allow. */
    method Transition(to: State, reason: string, fault: Option<Fault>) returns (outcome: Outcome)
      modifies this
      ensures outcome == if to in Allowed(old(state)) then Done else Raised("illegal transition")
      ensures Contents() == if outcome.Done? then Enter(old(Contents()), to, reason, fault) else old(Contents())
    {
      if to !in Allowed(state) {
        return Raised("illegal transition");
      }
      var event := Event(state, to, reason, fault);
      state := to;
      history := history + [event];
      return Done;
    }

    /** The error is stored even when the transition to the failed state is refused. */
    method FailWith(reason: string, fault: Option<Fault>) returns (outcome: Outcome)
      modifies this
      ensures outcome == if Failed in Allowed(old(state)) then Done else Raised("illegal transition")
      ensures Contents() == if outcome.Done? then Fail(old(Contents()), reason, fault)
                            else old(Contents()).(lastError := Some(reason))
    {
      lastError := Some(reason);
      outcome := Transition(Failed, reason, fault);
    }

    method CheckForUpdate(package: Package) returns (outcome: Outcome)
      modifies this
      ensures Reply(Contents(), outcome) == OtaMachine.CheckForUpdate(old(Contents()), package)
    {
      outcome := Transition(Checking, "check_started", None);
      if outcome.Raised? {
        return;
      }
      var current := Info(slots, activeSlot);
      if package.version == current.version {
        outcome := Transition(Idle, "already_current", None);
        return;
      }
      if package.securityVersion < current.securityVersion {
        outcome := FailWith("anti_rollback_security_version", None);
        return;
      }
      var target := package;
      if target.targetSlot == activeSlot {
        target := Package(package.version, Other(activeSlot), package.digest, package.signatureValid,
                          package.securityVersion, package.sizeBytes);
      }
      pending := Some(target);
      outcome := Transition(DownloadPending, "update_available", None);
    }

    method Download() returns (outcome: Outcome)
      modifies this
      ensures Reply(Contents(), outcome) == OtaMachine.Download(old(Contents()))
    {
      if state != DownloadPending {
        return Raised("download only from download_pending");
      }
      outcome := Transition(Downloading, "download_started", None);
      if DownloadCorrupt in faults {
        outcome := FailWith("download_corrupt", Some(DownloadCorrupt));
        return;
      }
      outcome := Transition(Verifying, "download_complete", None);
    }

    method Verify() returns (outcome: Outcome)
      modifies this
      ensures Reply(Contents(), outcome) == OtaMachine.Verify(old(Contents()))
    {
      if state != Verifying {
        return Raised("verify only from verifying");
      }
      if pending == None {
        outcome := FailWith("missing_package", None);
        return;
      }
      if SignatureInvalid in faults || !pending.value.signatureValid {
        outcome := FailWith("signature_invalid", Some(SignatureInvalid));
        return;
      }
      if |pending.value.digest| != 64 {
        outcome := FailWith("bad_digest", None);
        return;
      }
      outcome := Transition(Staging, "verified", None);
    }

    method Stage() returns (outcome: Outcome)
      modifies this
      ensures Reply(Contents(), outcome) == OtaMachine.Stage(old(Contents()))
    {
      if state != Staging {
        return Raised("stage only from staging");
      }
      if StageIoError in faults {
        outcome := FailWith("stage_io_error", Some(StageIoError));
        return;
      }
      outcome := Transition(Applying, "staged", None);
    }

    method Apply() returns (outcome: Outcome)
      modifies this
      ensures Reply(Contents(), outcome) == OtaMachine.Apply(old(Contents()))
    {
      if state != Applying {
        return Raised("apply only from applying");
      }
      if ApplyTimeout in faults {
        outcome := FailWith("apply_timeout", Some(ApplyTimeout));
        return;
      }
      if pending == None {
        return Raised("assertion failed");
      }
      var target := pending.value.targetSlot;
      var info := Info(slots, target);
      info := info.(version := pending.value.version);
      info := info.(securityVersion := pending.value.securityVersion);
      info := info.(bootable := true);
      info := info.(successful := false);
      slots := slots[target := info];
      outcome := Transition(RebootPending, "applied_to_inactive_slot", None);
    }

    method SimulateReboot() returns (outcome: Outcome)
      modifies this
      ensures Reply(Contents(), outcome) == Reboot(old(Contents()))
    {
      if state != RebootPending {
        return Raised("reboot only from reboot_pending");
      }
      if RebootAbort in faults {
        outcome := FailWith("reboot_abort", Some(RebootAbort));
        return;
      }
      if pending == None {
        return Raised("assertion failed");
      }
      activeSlot := pending.value.targetSlot;
      outcome := Transition(HealthCheck, "rebooted_into_new_slot", None);
    }

    method CheckHealth(healthy: bool) returns (outcome: Outcome)
      modifies this
      ensures Reply(Contents(), outcome) == HealthCheckResult(old(Contents()), healthy)
    {
      if state != HealthCheck {
        return Raised("health_check only from health_check");
      }
      if HealthCheckFail in faults || !healthy {
        outcome := Transition(RollingBack, "health_check_failed", Some(HealthCheckFail));
        outcome := Rollback();
        return;
      }
      slots := slots[activeSlot := Info(slots, activeSlot).(successful := true)];
      outcome := Transition(Committed, "health_ok_committed", None);
    }

    method Rollback() returns (outcome: Outcome)
      modifies this
      ensures Reply(Contents(), outcome) == OtaMachine.Rollback(old(Contents()))
    {
      if state !in {RollingBack, Failed, HealthCheck} {
        return Raised("cannot rollback");
      }
      if state != RollingBack {
        outcome := Transition(RollingBack, "rollback_started", None);
      }
      FallBack();
      return Done;
    }

    /** The part of a rollback after the machine is in the rolling-back state. */
    method FallBack()
      requires state == RollingBack
      modifies this
      ensures Contents() == SwapBack(old(Contents()))
    {
      var other := Other(activeSlot);
      if !Info(slots, other).bootable {
        var _ := FailWith("no_bootable_rollback_slot", None);
        return;
      }
      slots := slots[activeSlot := Info(slots, activeSlot).(successful := false)];
      activeSlot := other;
      pending := None;
      if lastError == None || lastError.value == "" {
        lastError := Some("rolled_back");
      }
      var _ := Transition(RolledBack, "rollback_complete", None);
    }

    method ResetToIdle() returns (outcome: Outcome)
      modifies this
      ensures Reply(Contents(), outcome) == OtaMachine.ResetToIdle(old(Contents()))
      ensures outcome.Done? <==> old(state.Committed? || state.RolledBack? || state.Failed? || state.Idle?)
      ensures outcome.Done? ==> state == Idle && pending == None && lastError == None
    {
      if state !in {Committed, RolledBack, Failed, Idle} {
        return Raised("cannot reset");
      }
      if state != Idle {
        outcome := Transition(Idle, "reset", None);
      }
      pending := None;
      lastError := None;
      outcome := Done;
    }

    method RunHappyPath(package: Package) returns (outcome: Outcome)
      modifies this
      ensures Reply(Contents(), outcome) == HappyPath(old(Contents()), package)
    {
      ClearFaults();
      outcome := CheckForUpdate(package);
      if outcome.Raised? { return; }
      outcome := Download();
      if outcome.Raised? { return; }
      outcome := Verify();
      if outcome.Raised? { return; }
      outcome := Stage();
      if outcome.Raised? { return; }
      outcome := Apply();
      if outcome.Raised? { return; }
      outcome := SimulateReboot();
      if outcome.Raised? { return; }
      outcome := CheckHealth(true);
    }
  }
}
