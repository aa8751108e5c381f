/** Accounts, device bindings and sessions: the service object with its
    dictionaries, and the effect of each call on values. Identifiers, tokens and
    time are inputs, and the digest of a token is an arbitrary function. */
module Identity {
  import opened Options

  datatype AccountStatus = AccountActive | Suspended | Deleted

  datatype SessionState = Active | Expired | Revoked

  datatype BindingState = Bound | Unbound | BindingRevoked

  datatype Account = Account(status: AccountStatus, roles: seq<string>)

  datatype Binding = Binding(account: string, device: string, state: BindingState)

  /** What a session was issued with. */
  datatype Terms = Terms(account: string, device: string, binding: string, expires: int, tokenHash: string, roles: seq<string>)

  datatype Session = Session(terms: Terms, state: SessionState)

  datatype Entry =
    | AccountCreated(account: string)
    | DeviceRegistered(device: string)
    | DeviceBound(binding: string, account: string, device: string)
    | DeviceUnbound(binding: string)
    | SessionIssued(session: string, account: string, device: string)
    | SessionRevoked(session: string)

  datatype Service = Service(
    accounts: map<string, Account>,
    devices: set<string>,
    bindings: map<string, Binding>,
    sessions: map<string, Session>,
    audit: seq<Entry>)

  datatype Verdict =
    | Valid(session: string, account: string, device: string, roles: seq<string>)
    | Invalid(reason: string)

  datatype Answer<+T> = Returned(value: T) | Raised(message: string)

  /** Bindings of the pair that are in force. */
  predicate BoundTo(b: Binding, account: string, device: string) {
    b.account == account && b.device == device && b.state.Bound?
  }

  predicate IsActive(s: Service, account: string) {
    account in s.accounts && s.accounts[account].status.AccountActive?
  }

  /** At most one binding of a pair is in force. */
  ghost predicate OneBinding(bindings: map<string, Binding>) {
    forall b, c, account, device | b in bindings && c in bindings &&
                                   BoundTo(bindings[b], account, device) && BoundTo(bindings[c], account, device) :: b == c
  }

  ghost predicate HasBinding(s: Service, account: string, device: string) {
    exists b :: b in s.bindings && BoundTo(s.bindings[b], account, device)
  }

  // ---- effects --------------------------------------------------------------

  function AfterCreateAccount(s: Service, account: string, roles: seq<string>): Service {
    if account in s.accounts then s
    else s.(accounts := s.accounts[account := Account(AccountActive, roles)], audit := s.audit + [AccountCreated(account)])
  }

  function AfterRegisterDevice(s: Service, device: string): Service {
    if device in s.devices then s
    else s.(devices := s.devices + {device}, audit := s.audit + [DeviceRegistered(device)])
  }

  /** Binding an active account to a known device makes a new binding unless one
      is in force already. */
  ghost function AfterBind(s: Service, account: string, device: string, newId: string): Service {
    if !IsActive(s, account) || device !in s.devices || HasBinding(s, account, device) then s
    else s.(bindings := s.bindings[newId := Binding(account, device, Bound)],
         audit := s.audit + [DeviceBound(newId, account, device)])
  }

  /** Unbinding revokes the binding and every session on it that is still active. */
  function AfterUnbind(s: Service, binding: string): Service {
    if binding !in s.bindings then s
    else s.(bindings := s.bindings[binding := s.bindings[binding].(state := BindingRevoked)],
         sessions := RevokedOn(s.sessions, binding),
         audit := s.audit + [DeviceUnbound(binding)])
  }

  function RevokedOn(sessions: map<string, Session>, binding: string): map<string, Session> {
    map id | id in sessions ::
      if sessions[id].terms.binding == binding && sessions[id].state.Active? then sessions[id].(state := Revoked)
      else sessions[id]
  }

  function AfterIssue(s: Service, id: string, terms: Terms): Service {
    s.(sessions := s.sessions[id := Session(terms, Active)], audit := s.audit + [SessionIssued(id, terms.account, terms.device)])
  }

  function AfterRevoke(s: Service, id: string): Service {
    if id !in s.sessions then s
    else s.(sessions := s.sessions[id := s.sessions[id].(state := Revoked)], audit := s.audit + [SessionRevoked(id)])
  }

  /** The answer of `validate_session`, checked in the code's order. */
  function Validation(s: Service, id: string, tokenHash: string, device: Option<string>, now: int): Verdict {
    if id !in s.sessions then Invalid("unknown_session")
    else
      var t := s.sessions[id].terms;
      if s.sessions[id].state.Revoked? then Invalid("revoked")
      else if now > t.expires then Invalid("expired")
      else if tokenHash != t.tokenHash then Invalid("bad_token")
      else if device.Some? && device.value != t.device then Invalid("device_mismatch")
      else if t.binding !in s.bindings || !s.bindings[t.binding].state.Bound? then Invalid("binding_revoked")
      else Valid(id, t.account, t.device, t.roles)
  }

  /** Validation marks a session it finds too old. */
  function AfterValidate(s: Service, id: string, now: int): Service {
    if id in s.sessions && !s.sessions[id].state.Revoked? && now > s.sessions[id].terms.expires then
      s.(sessions := s.sessions[id := s.sessions[id].(state := Expired)])
    else s
  }

  // ---- the object -----------------------------------------------------------

  class UnifiedIdentityService {
    const digest: string -> string
    var accounts: map<string, Account>
    var devices: set<string>
    var bindings: map<string, Binding>
    var sessions: map<string, Session>
    var audit: seq<Entry>

    constructor (digest: string -> string)
      ensures Contents() == Service(map[], {}, map[], map[], []) && this.digest == digest
    {
      this.digest := digest;
      accounts, devices, bindings, sessions, audit := map[], {}, map[], map[], [];
    }

    function Contents(): Service
      reads this
    {
      Service(accounts, devices, bindings, sessions, audit)
    }

    method CreateAccount(account: string, roles: seq<string>) returns (answer: Answer<()>)
      modifies this`accounts, this`audit
      ensures Contents() == AfterCreateAccount(old(Contents()), account, roles)
      ensures answer.Returned? <==> account !in old(accounts)
    {
      if account in accounts {
        return Raised("account exists");
      }
      accounts := accounts[account := Account(AccountActive, roles)];
      audit := audit + [AccountCreated(account)];
      return Returned(());
    }

    method RegisterDevice(device: string) returns (answer: Answer<()>)
      modifies this`devices, this`audit
      ensures Contents() == AfterRegisterDevice(old(Contents()), device)
      ensures answer.Returned? <==> device !in old(devices)
    {
      if device in devices {
        return Raised("device exists");
      }
      devices := devices + {device};
      audit := audit + [DeviceRegistered(device)];
      return Returned(());
    }

    /** Look for a binding of the pair that is in force. */
    method FindBinding(account: string, device: string) returns (found: Option<string>)
      ensures found.Some? ==> found.value in bindings && BoundTo(bindings[found.value], account, device)
      ensures found.None? <==> !HasBinding(Contents(), account, device)
      ensures OneBinding(bindings) && found.Some? ==>
                forall b | b in bindings && BoundTo(bindings[b], account, device) :: b == found.value
    {
      var ids := bindings.Keys;
      while ids != {}
        invariant ids <= bindings.Keys
        invariant forall b | b in bindings && b !in ids :: !BoundTo(bindings[b], account, device)
        decreases ids
      {
        var b :| b in ids;
        if BoundTo(bindings[b], account, device) {
          return Some(b);
        }
        ids := ids - {b};
      }
      return None;
    }

    method BindDevice(account: string, device: string, newId: string) returns (answer: Answer<string>)
      requires newId !in bindings
      modifies this`bindings, this`audit
      ensures Contents() == AfterBind(old(Contents()), account, device, newId)
      // it returns exactly for an active account and a known device, and then a binding in force
      ensures answer.Returned? <==> IsActive(Contents(), account) && device in devices
      ensures answer.Returned? ==> answer.value in bindings && BoundTo(bindings[answer.value], account, device)
    {
      if account !in accounts {
        return Raised("unknown account");
      }
      if device !in devices {
        return Raised("unknown device");
      }
      if accounts[account].status != AccountActive {
        return Raised("account_not_active");
      }
      var found := FindBinding(account, device);
      if found.Some? {
        return Returned(found.value);
      }
      bindings := bindings[newId := Binding(account, device, Bound)];
      audit := audit + [DeviceBound(newId, account, device)];
      return Returned(newId);
    }

    method UnbindDevice(binding: string) returns (answer: Answer<()>)
      modifies this`bindings, this`sessions, this`audit
      ensures Contents() == AfterUnbind(old(Contents()), binding)
      ensures answer.Returned? <==> binding in old(bindings)
    {
      if binding !in bindings {
        return Raised("unknown binding");
      }
      bindings := bindings[binding := bindings[binding].(state := BindingRevoked)];
      var ids := sessions.Keys;
      ghost var was := sessions;
      while ids != {}
        invariant audit == old(audit) && bindings == old(bindings)[binding := old(bindings)[binding].(state := BindingRevoked)]
        invariant ids <= sessions.Keys == was.Keys
        invariant forall id | id in ids :: sessions[id] == was[id]
        invariant forall id | id in was && id !in ids :: sessions[id] == RevokedOn(was, binding)[id]
        decreases ids
      {
        var id :| id in ids;
        if sessions[id].terms.binding == binding && sessions[id].state == Active {
          sessions := sessions[id := sessions[id].(state := Revoked)];
        }
        ids := ids - {id};
      }
      assert sessions == RevokedOn(was, binding);
      audit := audit + [DeviceUnbound(binding)];
      return Returned(());
    }

    method IssueSession(account: string, device: string, id: string, token: string, ttl: int, now: int)
      returns (answer: Answer<Session>)
      requires id !in sessions
      modifies this`sessions, this`audit
      ensures answer.Returned? <==> IsActive(old(Contents()), account) && HasBinding(old(Contents()), account, device)
      ensures answer.Raised? ==> Contents() == old(Contents())
      ensures answer.Returned? ==>
                var t := answer.value.terms;
                && t.binding in bindings && BoundTo(bindings[t.binding], account, device)
                && t == Terms(account, device, t.binding, now + ttl, digest(token), accounts[account].roles)
                && answer.value == Session(t, Active)
                && Contents() == AfterIssue(old(Contents()), id, t)
    {
      if account !in accounts || accounts[account].status != AccountActive {
        return Raised("account_not_active");
      }
      var found := FindBinding(account, device);
      if found.None? {
        return Raised("device_not_bound_to_account");
      }
      var session := Session(Terms(account, device, found.value, now + ttl, digest(token), accounts[account].roles), Active);
      sessions := sessions[id := session];
      audit := audit + [SessionIssued(id, account, device)];
      return Returned(session);
    }

    method ValidateSession(id: string, token: string, device: Option<string>, now: int) returns (verdict: Verdict)
      modifies this`sessions
      ensures verdict == Validation(old(Contents()), id, digest(token), device, now)
      ensures verdict.Valid? ==>
                && id in sessions && verdict.session == id
                && verdict.account == sessions[id].terms.account && verdict.device == sessions[id].terms.device
                && verdict.roles == sessions[id].terms.roles && (device.Some? ==> verdict.device == device.value)
      ensures Contents() == AfterValidate(old(Contents()), id, now)
    {
      if id !in sessions {
        return Invalid("unknown_session");
      }
      var session := sessions[id];
      if session.state == Revoked {
        return Invalid("revoked");
      }
      if now > session.terms.expires {
        sessions := sessions[id := session.(state := Expired)];
        return Invalid("expired");
      }
      if digest(token) != session.terms.tokenHash {
        return Invalid("bad_token");
      }
      if device.Some? && device.value != session.terms.device {
        return Invalid("device_mismatch");
      }
      if session.terms.binding !in bindings || bindings[session.terms.binding].state != Bound {
        return Invalid("binding_revoked");
      }
      return Valid(id, session.terms.account, session.terms.device, session.terms.roles);
    }

    method RevokeSession(id: string) returns (answer: Answer<()>)
      modifies this`sessions, this`audit
      ensures Contents() == AfterRevoke(old(Contents()), id)
      ensures answer.Returned? <==> id in old(sessions)
    {
      if id !in sessions {
        return Raised("unknown session");
      }
      sessions := sessions[id := sessions[id].(state := Revoked)];
      audit := audit + [SessionRevoked(id)];
      return Returned(());
    }
  }
}
