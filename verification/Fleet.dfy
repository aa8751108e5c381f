/** The fleet rollout control plane: devices in enrolment order, canary
    selection, promotion through the rings and rollback. */
module Fleet {
  import opened Options

  datatype Ring = Dev | Canary | Early | Broad | Frozen

  datatype Enrollment = Unenrolled | Pending | Enrolled | Suspended | Revoked

  datatype Health = Healthy | Degraded | Critical | Unknown

  datatype Device = Device(
    ring: Ring,
    enrollment: Enrollment,
    health: Health,
    current: string,
    target: Option<string>,
    canary: bool)

  const FactoryVersion := "0.1.0-evt1-alpha"
  const DefaultKnownGood := "0.0.9-evt0"

  datatype State = State(
    order: seq<string>,
    devices: map<string, Device>,
    rollout: Option<string>,
    canaryPercent: real,
    failures: int,
    successes: int,
    threshold: int)

  /** A missing and an empty target version both read as no target. */
  predicate HasTarget(d: Device) {
    d.target.Some? && d.target.value != ""
  }

  /** The devices that pass a test, in enrolment order. */
  function Select(order: seq<string>, devices: map<string, Device>, test: Device -> bool): seq<string>
    requires forall id | id in order :: id in devices
  {
    if order == [] then []
    else
      var last := order[|order| - 1];
      Select(order[..|order| - 1], devices, test) + if test(devices[last]) then [last] else []
  }

  /** Listed once each, and nothing else is known. */
  ghost predicate Consistent(s: State) {
    && (forall id :: id in s.order <==> id in s.devices)
    && (forall i, j | 0 <= i < j < |s.order| :: s.order[i] != s.order[j])
  }

  /** Round to the nearest integer, ties to the even one. */
  function Round(x: real): int {
    var low := x.Floor;
    var rest := x - low as real;
    if rest < 0.5 || (rest == 0.5 && low % 2 == 0) then low else low + 1
  }

  function AtLeastOne(n: int): nat {
    if n < 1 then 1 else n
  }

  function IsEnrolled(): Device -> bool {
    (d: Device) => d.enrollment.Enrolled?
  }

  function IsCanary(): Device -> bool {
    (d: Device) => d.enrollment.Enrolled? && d.ring.Canary?
  }

  /** The percentage of n devices. */
  function Share(n: nat, percent: real): real {
    n as real * (percent / 100.0)
  }

  function CanaryCount(enrolled: nat, percent: real): nat {
    var n := AtLeastOne(Round(Share(enrolled, percent)));
    if n <= enrolled then n else enrolled
  }

  /** The canary ring if anyone is in it, otherwise the first few enrolled devices. */
  function Chosen(order: seq<string>, devices: map<string, Device>, percent: real): seq<string>
    requires forall id | id in order :: id in devices
  {
    Pick(Select(order, devices, IsEnrolled()), Select(order, devices, IsCanary()), percent)
  }

  function Pick(enrolled: seq<string>, canaries: seq<string>, percent: real): seq<string> {
    if canaries != [] then canaries else enrolled[..CanaryCount(|enrolled|, percent)]
  }

  // ---- effects --------------------------------------------------------------

  function Enroll(s: State, id: string, ring: Ring): State {
    s.(order := if id in s.devices then s.order else s.order + [id],
    devices := s.devices[id := Device(ring, Enrolled, Healthy, FactoryVersion, None, ring.Canary?)])
  }

  function Change(s: State, id: string, d: Device): State {
    s.(devices := s.devices[id := d])
  }

  function MakeCanary(d: Device, version: string): Device {
    d.(ring := Canary, canary := true, target := Some(version))
  }

  function Marked(devices: map<string, Device>, chosen: seq<string>, ringed: bool, version: string): map<string, Device> {
    map id | id in devices ::
      if id !in chosen then devices[id]
      else if ringed then devices[id].(target := Some(version))
      else MakeCanary(devices[id], version)
  }

  function StartRollout(s: State, rollout: string, version: string, percent: Option<real>): State
    requires forall id | id in s.order :: id in s.devices
  {
    var percent' := if percent.Some? then percent.value else s.canaryPercent;
    s.(rollout := Some(rollout), failures := 0, successes := 0, canaryPercent := percent',
    devices := Marked(s.devices, Chosen(s.order, s.devices, percent'),
                      Select(s.order, s.devices, IsCanary()) != [], version))
  }

  function Affected(): Device -> bool {
    (d: Device) => HasTarget(d) || d.canary
  }

  function RolledBack(d: Device, knownGood: string): Device {
    if HasTarget(d) || d.canary then d.(current := knownGood, target := None, health := Degraded) else d
  }

  function RollingBack(knownGood: string): Device -> Device {
    (d: Device) => RolledBack(d, knownGood)
  }

  function Rollback(s: State, knownGood: string): State {
    s.(devices := ChangeSome(s.devices, s.devices.Keys, RollingBack(knownGood)))
  }

  predicate Aborted(s: State) {
    s.failures >= s.threshold
  }

  function Reported(d: Device, success: bool): Device {
    if success then d.(current := if HasTarget(d) then d.target.value else d.current, health := Healthy)
    else d.(health := Critical)
  }

  /** Counting a canary result; reaching the threshold rolls the rollout back. */
  function Report(s: State, id: string, success: bool): State
    requires id in s.devices
  {
    var d := s.devices[id];
    if !d.canary && !d.ring.Canary? then s  // refused
    else
      var s1 := Change(s, id, Reported(d, success)).(
                successes := s.successes + if success then 1 else 0,
                failures := s.failures + if success then 0 else 1);
      if Aborted(s1) then Rollback(s1, DefaultKnownGood) else s1
  }

  predicate MayPromote(s: State) {
    !Aborted(s) && s.successes >= 1
  }

  predicate Moves(d: Device) {
    d.enrollment.Enrolled? && (d.ring.Canary? || d.ring.Early?)
  }

  function Promoted(d: Device): Device {
    if !Moves(d) then d
    else d.(ring := if d.ring.Canary? then Early else Broad, canary := false,
         current := if HasTarget(d) then d.target.value else d.current)
  }

  function Promoting(): Device -> Device {
    (d: Device) => Promoted(d)
  }

  function Promote(s: State): State {
    if !MayPromote(s) then s
    else s.(devices := ChangeSome(s.devices, s.devices.Keys, Promoting()))
  }

  /** The devices with a change applied to some of them. */
  function ChangeSome(devices: map<string, Device>, some: set<string>, change: Device -> Device): map<string, Device> {
    map id | id in devices :: if id in some then change(devices[id]) else devices[id]
  }

  /** The devices after a change was applied to the first i in enrolment order. */
  function Sweep(devices: map<string, Device>, order: seq<string>, i: nat, change: Device -> Device): map<string, Device>
    requires i <= |order|
  {
    if i == 0 then devices
    else
      var before := Sweep(devices, order, i - 1, change);
      var id := order[i - 1];
      if id in before then before[id := change(before[id])] else before
  }

  lemma {:induction false} SweepAt(s: State, i: nat, change: Device -> Device, id: string)
    requires Consistent(s) && i <= |s.order|
    ensures var swept := Sweep(s.devices, s.order, i, change);
            && (id in swept <==> id in s.devices)
            && (id in s.devices ==> swept[id] == if id in s.order[..i] then change(s.devices[id]) else s.devices[id])
  {
    if i > 0 {
      SweepAt(s, i - 1, change, id);
      SweepAt(s, i - 1, change, s.order[i - 1]);
      assert s.order[..i] == s.order[..i - 1] + [s.order[i - 1]];
      assert s.order[i - 1] in s.order;
      assert s.order[i - 1] !in s.order[..i - 1];
    }
  }

  /** Going through all devices in order changes every one of them once. */
  lemma SweepAll(s: State, change: Device -> Device)
    requires Consistent(s)
    ensures Sweep(s.devices, s.order, |s.order|, change) == ChangeSome(s.devices, s.devices.Keys, change)
  {
    var swept := Sweep(s.devices, s.order, |s.order|, change);
    assert s.order[..|s.order|] == s.order;
    forall id
      ensures id in swept <==> id in s.devices
      ensures id in s.devices ==> swept[id] == change(s.devices[id])
    {
      SweepAt(s, |s.order|, change, id);
    }
  }

  lemma SweepNone(order: seq<string>, devices: map<string, Device>, change: Device -> Device, test: Device -> bool)
    ensures Sweep(devices, order, 0, change) == devices && Select([], devices, test) == []
  {
  }

  lemma SweepNext(s: State, i: nat, change: Device -> Device)
    requires Consistent(s) && i < |s.order|
    ensures var swept, id := Sweep(s.devices, s.order, i, change), s.order[i];
            && id in s.devices && id in swept && swept[id] == s.devices[id]
            && Sweep(s.devices, s.order, i + 1, change) == swept[id := change(s.devices[id])]
  {
    var id := s.order[i];
    assert id in s.order && id !in s.order[..i];
    SweepAt(s, i, change, id);
  }

  function Moving(): Device -> bool {
    (d: Device) => Moves(d)
  }

  lemma SameDevicesConsistent(s: State, t: State)
    requires Consistent(s) && t.order == s.order && t.devices.Keys == s.devices.Keys
    ensures Consistent(t)
  {
  }

  lemma SelectStep(order: seq<string>, i: nat, devices: map<string, Device>, test: Device -> bool)
    requires i < |order| && forall id | id in order :: id in devices
    ensures Select(order[..i + 1], devices, test)
         == Select(order[..i], devices, test) + if test(devices[order[i]]) then [order[i]] else []
  {
    assert order[..i + 1][..i] == order[..i];
  }

  lemma {:induction false} SelectElements(order: seq<string>, devices: map<string, Device>, test: Device -> bool)
    requires forall id | id in order :: id in devices
    ensures forall id :: id in Select(order, devices, test) <==> id in order && test(devices[id])
    ensures |Select(order, devices, test)| <= |order|
  {
    if order != [] {
      var front := order[..|order| - 1];
      SelectElements(front, devices, test);
      assert order == front + [order[|order| - 1]];
    }
  }

  lemma ChosenAreKnown(order: seq<string>, devices: map<string, Device>, percent: real)
    requires forall id | id in order :: id in devices
    ensures forall id | id in Chosen(order, devices, percent) :: id in order && id in devices && devices[id].enrollment.Enrolled?
  {
    SelectElements(order, devices, IsEnrolled());
    SelectElements(order, devices, IsCanary());
  }
}
