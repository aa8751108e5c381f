/** For every run of the service: what validation answers is a plain reading of
    the history of calls. */
module IdentityRuns {
  import opened Options
  import opened Identity

  datatype Op =
    | CreateAccount(account: string, roles: seq<string>)
    | RegisterDevice(device: string)
    | SetStatus(account: string, status: AccountStatus)
    | Bind(account: string, device: string, newId: string)
    | Unbind(binding: string)
    | Issue(session: string, terms: Terms)
    | Validate(session: string, now: int)
    | Revoke(session: string)

  /** Calls with new identifiers, and sessions issued as the service issues them. */
  ghost predicate Enabled(s: Service, op: Op) {
    match op
    case Bind(_, _, newId) => newId !in s.bindings
    case Issue(id, t) =>
      && id !in s.sessions && IsActive(s, t.account)
      && t.binding in s.bindings && BoundTo(s.bindings[t.binding], t.account, t.device)
    case SetStatus(account, _) => account in s.accounts
    case _ => true
  }

  ghost function Step(s: Service, op: Op): Service {
    if !Enabled(s, op) then s
    else match op
         case CreateAccount(account, roles) => AfterCreateAccount(s, account, roles)
         case RegisterDevice(device) => AfterRegisterDevice(s, device)
         case SetStatus(account, status) => s.(accounts := s.accounts[account := s.accounts[account].(status := status)])
         case Bind(account, device, newId) => AfterBind(s, account, device, newId)
         case Unbind(binding) => AfterUnbind(s, binding)
         case Issue(id, t) => AfterIssue(s, id, t)
         case Validate(id, now) => AfterValidate(s, id, now)
         case Revoke(id) => AfterRevoke(s, id)
  }

  ghost function Run(s: Service, ops: seq<Op>): Service
    decreases |ops|
  {
    if ops == [] then s else Run(Step(s, ops[0]), ops[1..])
  }

  const Empty: Service := Service(map[], {}, map[], map[], [])

  // ---- reading the history --------------------------------------------------

  /** What a call did that matters for sessions. */
  datatype Event = Issued(session: string, terms: Terms) | Revoked(session: string) | Unbound(binding: string)

  ghost function EventsOf(s: Service, op: Op): seq<Event> {
    if !Enabled(s, op) then []
    else match op
         case Issue(id, t) => [Issued(id, t)]
         case Revoke(id) => if id in s.sessions then [Event.Revoked(id)] else []
         case Unbind(binding) => if binding in s.bindings then [Event.Unbound(binding)] else []
         case _ => []
  }

  ghost function History(s: Service, ops: seq<Op>): seq<Event>
    decreases |ops|
  {
    if ops == [] then [] else EventsOf(s, ops[0]) + History(Step(s, ops[0]), ops[1..])
  }

  /** The session was issued on these terms, neither it nor its binding was ever
      taken back, and the presented token, device and time fit the terms. */
  ghost predicate ReadsValid(h: seq<Event>, id: string, t: Terms, tokenHash: string, device: Option<string>, now: int) {
    && Issued(id, t) in h
    && Event.Revoked(id) !in h
    && Event.Unbound(t.binding) !in h
    && tokenHash == t.tokenHash
    && (device.None? || device.value == t.device)
    && now <= t.expires
  }

  ghost predicate SaysValid(h: seq<Event>, id: string, tokenHash: string, device: Option<string>, now: int) {
    exists t :: ReadsValid(h, id, t, tokenHash, device, now)
  }

  /** The sessions and bindings agree with the history. */
  ghost predicate SessionsMatch(s: Service, h: seq<Event>) {
    && (forall id, t :: Issued(id, t) in h <==> id in s.sessions && s.sessions[id].terms == t)
    && (forall id | Event.Revoked(id) in h :: id in s.sessions && s.sessions[id].state.Revoked?)
    && (forall id | id in s.sessions && s.sessions[id].state.Revoked? ::
          Event.Revoked(id) in h || Event.Unbound(s.sessions[id].terms.binding) in h)
  }

  ghost predicate BindingsMatch(s: Service, h: seq<Event>) {
    && (forall id | id in s.sessions ::
          var t := s.sessions[id].terms;
          t.binding in s.bindings && s.bindings[t.binding].account == t.account && s.bindings[t.binding].device == t.device)
    && (forall b :: Event.Unbound(b) in h <==> b in s.bindings && !s.bindings[b].state.Bound?)
  }

  /** The audit trail tells the same history, without the terms of the sessions. */
  ghost predicate AuditMatches(s: Service, h: seq<Event>) {
    && (forall id, account, device :: SessionIssued(id, account, device) in s.audit <==>
                                      exists t :: Issued(id, t) in h && t.account == account && t.device == device)
    && (forall id :: SessionRevoked(id) in s.audit <==> Event.Revoked(id) in h)
    && (forall b :: DeviceUnbound(b) in s.audit <==> Event.Unbound(b) in h)
    && (forall b | b in s.bindings :: DeviceBound(b, s.bindings[b].account, s.bindings[b].device) in s.audit)
  }

  ghost predicate Inv(s: Service, h: seq<Event>) {
    SessionsMatch(s, h) && BindingsMatch(s, h) && AuditMatches(s, h) && OneBinding(s.bindings)
  }

  lemma UnbindKeepsSessions(s: Service, h: seq<Event>, binding: string)
    requires SessionsMatch(s, h) && binding in s.bindings
    ensures SessionsMatch(AfterUnbind(s, binding), h + [Event.Unbound(binding)])
  {
  }

  lemma IssueKeepsSessions(s: Service, h: seq<Event>, id: string, t: Terms)
    requires SessionsMatch(s, h) && id !in s.sessions
    ensures SessionsMatch(AfterIssue(s, id, t), h + [Issued(id, t)])
  {
  }

  lemma RevokeKeepsSessions(s: Service, h: seq<Event>, id: string)
    requires SessionsMatch(s, h) && id in s.sessions
    ensures SessionsMatch(AfterRevoke(s, id), h + [Event.Revoked(id)])
  {
  }

  lemma ValidateKeepsSessions(s: Service, h: seq<Event>, id: string, now: int)
    requires SessionsMatch(s, h)
    ensures SessionsMatch(AfterValidate(s, id, now), h)
  {
  }

  lemma StepKeepsSessions(s: Service, h: seq<Event>, op: Op)
    requires SessionsMatch(s, h)
    ensures SessionsMatch(Step(s, op), h + EventsOf(s, op))
  {
    assert h + [] == h;
    if Enabled(s, op) {
      match op
      case Unbind(binding) => if binding in s.bindings { UnbindKeepsSessions(s, h, binding); }
      case Issue(id, t) => IssueKeepsSessions(s, h, id, t);
      case Validate(id, now) => ValidateKeepsSessions(s, h, id, now);
      case Revoke(id) => if id in s.sessions { RevokeKeepsSessions(s, h, id); }
      case _ =>
    }
  }

  lemma StepKeepsBindings(s: Service, h: seq<Event>, op: Op)
    requires BindingsMatch(s, h)
    ensures BindingsMatch(Step(s, op), h + EventsOf(s, op))
  {
  }

  lemma StepKeepsAudit(s: Service, h: seq<Event>, op: Op)
    requires AuditMatches(s, h)
    ensures AuditMatches(Step(s, op), h + EventsOf(s, op))
  {
  }

  lemma StepKeepsOneBinding(s: Service, op: Op)
    requires OneBinding(s.bindings)
    ensures OneBinding(Step(s, op).bindings)
  {
  }

  /** Over every run the dictionaries and the audit trail agree with the history. */
  lemma {:induction false} RunKeepsInv(s: Service, h: seq<Event>, ops: seq<Op>)
    requires Inv(s, h)
    ensures Inv(Run(s, ops), h + History(s, ops))
    decreases |ops|
  {
    if ops == [] {
      assert h + [] == h;
    } else {
      StepKeepsSessions(s, h, ops[0]);
      StepKeepsBindings(s, h, ops[0]);
      StepKeepsAudit(s, h, ops[0]);
      StepKeepsOneBinding(s, ops[0]);
      RunKeepsInv(Step(s, ops[0]), h + EventsOf(s, ops[0]), ops[1..]);
      assert h + (EventsOf(s, ops[0]) + History(Step(s, ops[0]), ops[1..]))
          == h + EventsOf(s, ops[0]) + History(Step(s, ops[0]), ops[1..]);
    }
  }

  lemma ReachableInv(ops: seq<Op>)
    ensures Inv(Run(Empty, ops), History(Empty, ops))
  {
    RunKeepsInv(Empty, [], ops);
    assert [] + History(Empty, ops) == History(Empty, ops);
  }

  // ---- the theorems ---------------------------------------------------------

  /** The history says that this is who the session stands for. */
  ghost predicate SaysValidFor(h: seq<Event>, id: string, tokenHash: string, device: Option<string>, now: int,
                               account: string, boundDevice: string, roles: seq<string>)
  {
    exists t :: ReadsValid(h, id, t, tokenHash, device, now) && t.account == account && t.device == boundDevice && t.roles == roles
  }

  /** Validation refines history: after any run, whatever was validated before, the
      answer is "valid" for an account, a device and roles exactly when the history
      says that the session was issued for them and still holds. */
  lemma ValidationReadsHistory(ops: seq<Op>, id: string, tokenHash: string, device: Option<string>, now: int,
                               account: string, boundDevice: string, roles: seq<string>)
    ensures Validation(Run(Empty, ops), id, tokenHash, device, now) == Valid(id, account, boundDevice, roles) <==>
            SaysValidFor(History(Empty, ops), id, tokenHash, device, now, account, boundDevice, roles)
    ensures Validation(Run(Empty, ops), id, tokenHash, device, now).Valid? <==>
            SaysValid(History(Empty, ops), id, tokenHash, device, now)
  {
    ReachableInv(ops);
    MatchingReads(Run(Empty, ops), History(Empty, ops), id, tokenHash, device, now);
    MatchingReadsFor(Run(Empty, ops), History(Empty, ops), id, tokenHash, device, now, account, boundDevice, roles);
  }

  lemma MatchingReadsFor(s: Service, h: seq<Event>, id: string, tokenHash: string, device: Option<string>, now: int,
                         account: string, boundDevice: string, roles: seq<string>)
    requires Inv(s, h)
    ensures Validation(s, id, tokenHash, device, now) == Valid(id, account, boundDevice, roles) <==>
            SaysValidFor(h, id, tokenHash, device, now, account, boundDevice, roles)
  {
    if Validation(s, id, tokenHash, device, now) == Valid(id, account, boundDevice, roles) {
      assert Issued(id, s.sessions[id].terms) in h;
      assert ReadsValid(h, id, s.sessions[id].terms, tokenHash, device, now);
    }
    if t :| ReadsValid(h, id, t, tokenHash, device, now) && t.account == account && t.device == boundDevice && t.roles == roles {
      assert id in s.sessions && s.sessions[id].terms == t;
    }
  }

  /** Who a valid answer names: the session asked about, the device presented, if any,
      and an account and a device that are bound to each other at that moment. */
  lemma ValidNamesABinding(ops: seq<Op>, id: string, tokenHash: string, device: Option<string>, now: int)
    requires Validation(Run(Empty, ops), id, tokenHash, device, now).Valid?
    ensures var v := Validation(Run(Empty, ops), id, tokenHash, device, now);
            && v.session == id
            && (device.Some? ==> v.device == device.value)
            && HasBinding(Run(Empty, ops), v.account, v.device)
  {
    var s := Run(Empty, ops);
    ReachableInv(ops);
    var t := s.sessions[id].terms;
    assert t.binding in s.bindings && BoundTo(s.bindings[t.binding], t.account, t.device);
  }

  lemma MatchingReads(s: Service, h: seq<Event>, id: string, tokenHash: string, device: Option<string>, now: int)
    requires Inv(s, h)
    ensures Validation(s, id, tokenHash, device, now).Valid? <==>
            SaysValid(h, id, tokenHash, device, now)
  {
    if Validation(s, id, tokenHash, device, now).Valid? {
      assert Issued(id, s.sessions[id].terms) in h;
      assert ReadsValid(h, id, s.sessions[id].terms, tokenHash, device, now);
    }
    if t :| ReadsValid(h, id, t, tokenHash, device, now) {
      assert id in s.sessions && s.sessions[id].terms == t;
    }
  }

  /** The audit trail that the service keeps reads the same way: what was issued,
      revoked and unbound is exactly what it lists. */
  lemma AuditTellsHistory(ops: seq<Op>)
    ensures AuditMatches(Run(Empty, ops), History(Empty, ops))
  {
    ReachableInv(ops);
  }

  /** In every reachable state an account and a device have at most one binding in force. */
  lemma AtMostOneBinding(ops: seq<Op>, b: string, c: string, account: string, device: string)
    requires var bindings := Run(Empty, ops).bindings;
             b in bindings && c in bindings &&
             BoundTo(bindings[b], account, device) && BoundTo(bindings[c], account, device)
    ensures b == c
  {
    ReachableInv(ops);
  }

  /** Rejection is final: a session that exists and fails once for a token and a
      device fails for them ever after, whatever is called in between, as long as
      the clock does not go back. */
  lemma RejectionIsFinal(before: seq<Op>, later: seq<Op>, id: string, tokenHash: string, device: Option<string>,
                         now: int, then_: int)
    requires var s := Run(Empty, before);
             id in s.sessions && Validation(s, id, tokenHash, device, now).Invalid?
    requires now <= then_
    ensures Validation(Run(Run(Empty, before), later), id, tokenHash, device, then_).Invalid?
  {
    var s, h := Run(Empty, before), History(Empty, before);
    var s', h' := Run(s, later), h + History(s, later);
    ReachableInv(before);
    RunKeepsInv(s, h, later);
    MatchingReads(s, h, id, tokenHash, device, now);
    MatchingReads(s', h', id, tokenHash, device, then_);
    assert Issued(id, s.sessions[id].terms) in h;
    if t :| ReadsValid(h', id, t, tokenHash, device, then_) {
      assert Issued(id, s.sessions[id].terms) in h';
      assert ReadsValid(h, id, t, tokenHash, device, now);
    }
  }

  /** The mark that validation leaves on a session it finds too old decides nothing:
      every later answer, at whatever time, is the one without it. So a session found
      expired is valid again at an earlier time at which it was. */
  lemma ExpiryIsNotSticky(s: Service, marked: string, late: int, id: string, tokenHash: string,
                          device: Option<string>, now: int)
    ensures Validation(AfterValidate(s, marked, late), id, tokenHash, device, now)
         == Validation(s, id, tokenHash, device, now)
  {
  }

  function WithoutValidate(ops: seq<Op>): seq<Op>
    decreases |ops|
  {
    if ops == [] then []
    else (if ops[0].Validate? then [] else [ops[0]]) + WithoutValidate(ops[1..])
  }

  /** The same service up to which sessions are marked expired or revoked. */
  ghost predicate SameButMarks(s: Service, t: Service) {
    && s.accounts == t.accounts && s.devices == t.devices && s.bindings == t.bindings
    && s.sessions.Keys == t.sessions.Keys
    && forall id | id in s.sessions :: s.sessions[id].terms == t.sessions[id].terms
  }

  lemma SameEnabled(s: Service, t: Service, op: Op)
    requires SameButMarks(s, t)
    ensures Enabled(s, op) <==> Enabled(t, op)
    ensures EventsOf(s, op) == EventsOf(t, op)
  {
  }

  lemma SameEvents(s: Service, t: Service, op: Op)
    requires SameButMarks(s, t)
    ensures EventsOf(s, op) == EventsOf(t, op) && SameButMarks(Step(s, op), Step(t, op))
  {
    hide Enabled, EventsOf, AfterBind, RevokedOn;
    SameEnabled(s, t, op);
    if op.Bind? {
      SameBind(s, t, op.account, op.device, op.newId);
    } else if op.Unbind? {
      SameRevoked(s, t, op.binding);
    }
  }

  lemma SameBind(s: Service, t: Service, account: string, device: string, newId: string)
    requires SameButMarks(s, t)
    ensures SameButMarks(AfterBind(s, account, device, newId), AfterBind(t, account, device, newId))
  {
    assert HasBinding(s, account, device) == HasBinding(t, account, device);
  }

  lemma SameRevoked(s: Service, t: Service, binding: string)
    requires SameButMarks(s, t)
    ensures RevokedOn(s.sessions, binding).Keys == s.sessions.Keys && RevokedOn(t.sessions, binding).Keys == t.sessions.Keys
    ensures forall id | id in s.sessions ::
              RevokedOn(s.sessions, binding)[id].terms == RevokedOn(t.sessions, binding)[id].terms
  {
  }

  lemma ValidateMarksOnly(s: Service, t: Service, op: Op)
    requires SameButMarks(s, t) && op.Validate?
    ensures EventsOf(s, op) == [] && SameButMarks(Step(s, op), t)
  {
  }

  lemma {:induction false} SameHistory(s: Service, t: Service, ops: seq<Op>)
    requires SameButMarks(s, t)
    ensures History(s, ops) == History(t, WithoutValidate(ops))
    decreases |ops|
  {
    hide SameButMarks, EventsOf, Step;
    if ops != [] {
      if ops[0].Validate? {
        ValidateMarksOnly(s, t, ops[0]);
        SameHistory(Step(s, ops[0]), t, ops[1..]);
        assert WithoutValidate(ops) == WithoutValidate(ops[1..]);
      } else {
        SameEvents(s, t, ops[0]);
        SameHistory(Step(s, ops[0]), Step(t, ops[0]), ops[1..]);
        assert WithoutValidate(ops) == [ops[0]] + WithoutValidate(ops[1..]);
        assert WithoutValidate(ops)[1..] == WithoutValidate(ops[1..]);
      }
    }
  }

  /** Validating is free of consequences over whole runs: leaving out every call of
      it changes the validity of no session, although it may change which sessions
      an unbind finds active. */
  lemma ValidatingChangesNothing(ops: seq<Op>, id: string, tokenHash: string, device: Option<string>, now: int)
    ensures Validation(Run(Empty, ops), id, tokenHash, device, now).Valid? <==>
            Validation(Run(Empty, WithoutValidate(ops)), id, tokenHash, device, now).Valid?
  {
    ReachableInv(ops);
    ReachableInv(WithoutValidate(ops));
    MatchingReads(Run(Empty, ops), History(Empty, ops), id, tokenHash, device, now);
    MatchingReads(Run(Empty, WithoutValidate(ops)), History(Empty, WithoutValidate(ops)), id, tokenHash, device, now);
    SameHistory(Empty, Empty, ops);
  }
}
