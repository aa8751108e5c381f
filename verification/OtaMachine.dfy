/** The A/B update and rollback state machine: its data, and the effect of
    each public call as a function on values. */
module OtaMachine {
  import opened Options

  datatype State =
    | Idle | Checking | DownloadPending | Downloading | Verifying | Staging | Applying
    | RebootPending | HealthCheck | Committed | RollingBack | RolledBack | Failed

  datatype Slot = A | B

  datatype Fault =
    | DownloadCorrupt | SignatureInvalid | StageIoError | ApplyTimeout | HealthCheckFail | RebootAbort

  datatype SlotInfo = SlotInfo(version: string, bootable: bool, successful: bool, securityVersion: int)

  datatype Package = Package(
    version: string,
    targetSlot: Slot,
    digest: string,
    signatureValid: bool,
    securityVersion: int,
    sizeBytes: int)

  datatype Event = Event(from: State, to: State, reason: string, fault: Option<Fault>)

  /** Both slots always exist. */
  type Slots = m: map<Slot, SlotInfo> | A in m && B in m witness DefaultSlots

  const DefaultSlots: map<Slot, SlotInfo> :=
    map[A := SlotInfo("0.1.0", true, true, 1), B := SlotInfo("0.0.9", true, true, 1)]

  /** Everything the machine reads and writes. */
  datatype Machine = Machine(
    active: Slot,
    slots: Slots,
    state: State,
    pending: Option<Package>,
    faults: set<Fault>,
    history: seq<Event>,
    lastError: Option<string>)

  /** A call returns normally or raises. */
  datatype Outcome = Done | Raised(message: string)

  datatype Reply = Reply(m: Machine, outcome: Outcome)

  /** The table of allowed transitions. */
  function Allowed(from: State): set<State> {
    match from
    case Idle => {Checking}
    case Checking => {DownloadPending, Idle, Failed}
    case DownloadPending => {Downloading, Idle, Failed}
    case Downloading => {Verifying, Failed}
    case Verifying => {Staging, Failed}
    case Staging => {Applying, Failed}
    case Applying => {RebootPending, Failed}
    case RebootPending => {HealthCheck, Failed}
    case HealthCheck => {Committed, RollingBack, Failed}
    case Committed => {Idle}
    case RollingBack => {RolledBack, Failed}
    case RolledBack => {Idle}
    case Failed => {RollingBack, Idle}
  }

  function Other(s: Slot): Slot {
    if s.A? then B else A
  }

  function Info(slots: Slots, s: Slot): SlotInfo {
    if s.A? then slots[A] else slots[B]
  }

  function ActiveInfo(m: Machine): SlotInfo {
    Info(m.slots, m.active)
  }

  function InactiveInfo(m: Machine): SlotInfo {
    Info(m.slots, Other(m.active))
  }

  // ---- effects of the calls -------------------------------------------------

  /** Move to another state, recording the event. */
  function Enter(m: Machine, to: State, reason: string, fault: Option<Fault>): Machine {
    m.(state := to, history := m.history + [Event(m.state, to, reason, fault)])
  }

  function Fail(m: Machine, reason: string, fault: Option<Fault>): Machine {
    Enter(m.(lastError := Some(reason)), Failed, reason, fault)
  }

  /** A package aimed at the running slot is redirected to the other one. */
  function Retarget(m: Machine, p: Package): Package {
    if p.targetSlot == m.active then p.(targetSlot := Other(m.active)) else p
  }

  function CheckForUpdate(m: Machine, p: Package): Reply {
    if !m.state.Idle? then Reply(m, Raised("illegal transition"))
    else
      var c := Enter(m, Checking, "check_started", None);
      if p.version == ActiveInfo(m).version then Reply(Enter(c, Idle, "already_current", None), Done)
      else if p.securityVersion < ActiveInfo(m).securityVersion then
        Reply(Fail(c, "anti_rollback_security_version", None), Done)
      else Reply(Enter(c.(pending := Some(Retarget(m, p))), DownloadPending, "update_available", None), Done)
  }

  function Download(m: Machine): Reply {
    if !m.state.DownloadPending? then Reply(m, Raised("download only from download_pending"))
    else
      var d := Enter(m, Downloading, "download_started", None);
      Reply(if DownloadCorrupt in m.faults then Fail(d, "download_corrupt", Some(DownloadCorrupt))
            else Enter(d, Verifying, "download_complete", None), Done)
  }

  function Verify(m: Machine): Reply {
    if !m.state.Verifying? then Reply(m, Raised("verify only from verifying"))
    else if m.pending.None? then Reply(Fail(m, "missing_package", None), Done)
    else if SignatureInvalid in m.faults || !m.pending.value.signatureValid then
      Reply(Fail(m, "signature_invalid", Some(SignatureInvalid)), Done)
    else if |m.pending.value.digest| != 64 then Reply(Fail(m, "bad_digest", None), Done)
    else Reply(Enter(m, Staging, "verified", None), Done)
  }

  function Stage(m: Machine): Reply {
    if !m.state.Staging? then Reply(m, Raised("stage only from staging"))
    else Reply(if StageIoError in m.faults then Fail(m, "stage_io_error", Some(StageIoError))
               else Enter(m, Applying, "staged", None), Done)
  }

  function Apply(m: Machine): Reply {
    if !m.state.Applying? then Reply(m, Raised("apply only from applying"))
    else if ApplyTimeout in m.faults then Reply(Fail(m, "apply_timeout", Some(ApplyTimeout)), Done)
    else if m.pending.None? then Reply(m, Raised("assertion failed"))
    else
      var p := m.pending.value;
      Reply(Enter(m.(slots := m.slots[p.targetSlot := SlotInfo(p.version, true, false, p.securityVersion)]),
                  RebootPending, "applied_to_inactive_slot", None), Done)
  }

  function Reboot(m: Machine): Reply {
    if !m.state.RebootPending? then Reply(m, Raised("reboot only from reboot_pending"))
    else if RebootAbort in m.faults then Reply(Fail(m, "reboot_abort", Some(RebootAbort)), Done)
    else if m.pending.None? then Reply(m, Raised("assertion failed"))
    else Reply(Enter(m.(active := m.pending.value.targetSlot), HealthCheck, "rebooted_into_new_slot", None), Done)
  }

  /** The part of a rollback after the machine is in the rolling-back state. */
  function SwapBack(m: Machine): Machine {
    if !InactiveInfo(m).bootable then Fail(m, "no_bootable_rollback_slot", None)
    else
      Enter(m.(slots := m.slots[m.active := ActiveInfo(m).(successful := false)],
            active := Other(m.active),
            pending := None,
            // an empty message counts as no message
            lastError := if m.lastError.None? || m.lastError.value == "" then Some("rolled_back") else m.lastError),
            RolledBack, "rollback_complete", None)
  }

  function HealthCheckResult(m: Machine, healthy: bool): Reply {
    if !m.state.HealthCheck? then Reply(m, Raised("health_check only from health_check"))
    else if HealthCheckFail in m.faults || !healthy then
      Reply(SwapBack(Enter(m, RollingBack, "health_check_failed", Some(HealthCheckFail))), Done)
    else
      Reply(Enter(m.(slots := m.slots[m.active := ActiveInfo(m).(successful := true)]),
                  Committed, "health_ok_committed", None), Done)
  }

  function Rollback(m: Machine): Reply {
    if m.state.RollingBack? then Reply(SwapBack(m), Done)
    else if m.state.Failed? || m.state.HealthCheck? then
      Reply(SwapBack(Enter(m, RollingBack, "rollback_started", None)), Done)
    else Reply(m, Raised("cannot rollback"))
  }

  function ResetToIdle(m: Machine): Reply {
    if m.state !in {Committed, RolledBack, Failed, Idle} then Reply(m, Raised("cannot reset"))
    else Reply((if m.state.Idle? then m else Enter(m, Idle, "reset", None)).(pending := None, lastError := None), Done)
  }

  /** Run the calls of `run_happy_path`, stopping at the first that raises. */
  function HappyPath(m: Machine, p: Package): Reply {
    var r1 := CheckForUpdate(m.(faults := {}), p);
    if r1.outcome.Raised? then r1 else
    var r2 := Download(r1.m);
    if r2.outcome.Raised? then r2 else
    var r3 := Verify(r2.m);
    if r3.outcome.Raised? then r3 else
    var r4 := Stage(r3.m);
    if r4.outcome.Raised? then r4 else
    var r5 := Apply(r4.m);
    if r5.outcome.Raised? then r5 else
    var r6 := Reboot(r5.m);
    if r6.outcome.Raised? then r6 else HealthCheckResult(r6.m, true)
  }
}
