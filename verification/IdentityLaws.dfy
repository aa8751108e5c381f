/** What each call of the service means for the answers of later validations. */
module IdentityLaws {
  import opened Options
  import opened Identity

  /** An issued session is valid for its token, its device and its time, and stands
      for the account, device and roles it was issued for; other sessions answer as
      before. */
  lemma IssueActs(s: Service, id: string, t: Terms, other: string, tokenHash: string, device: Option<string>, now: int)
    requires id !in s.sessions && t.binding in s.bindings && s.bindings[t.binding].state.Bound?
    ensures Validation(AfterIssue(s, id, t), id, tokenHash, device, now) == Valid(id, t.account, t.device, t.roles) <==>
            tokenHash == t.tokenHash && (device.None? || device.value == t.device) && now <= t.expires
    ensures other != id ==>
              Validation(AfterIssue(s, id, t), other, tokenHash, device, now) == Validation(s, other, tokenHash, device, now)
  {
  }

  /** A revoked session answers "revoked" whatever is presented; others as before. */
  lemma RevokeActs(s: Service, id: string, other: string, tokenHash: string, device: Option<string>, now: int)
    requires id in s.sessions
    ensures Validation(AfterRevoke(s, id), id, tokenHash, device, now) == Invalid("revoked")
    ensures other != id ==>
              Validation(AfterRevoke(s, id), other, tokenHash, device, now) == Validation(s, other, tokenHash, device, now)
  {
  }

  /** Unbinding revokes: an active session on the binding answers "revoked" whatever is
      presented, one found expired before is not valid either but not called revoked, and
      sessions on other bindings answer as before. */
  lemma UnbindActs(s: Service, binding: string, id: string, tokenHash: string, device: Option<string>, now: int)
    requires binding in s.bindings && id in s.sessions
    ensures s.sessions[id].terms.binding == binding && s.sessions[id].state.Active? ==>
              Validation(AfterUnbind(s, binding), id, tokenHash, device, now) == Invalid("revoked")
    ensures s.sessions[id].terms.binding == binding ==>
              Validation(AfterUnbind(s, binding), id, tokenHash, device, now).Invalid?
    ensures s.sessions[id].state.Expired? ==>
              Validation(AfterUnbind(s, binding), id, tokenHash, device, now) != Invalid("revoked")
    ensures AfterUnbind(s, binding).bindings ==
            s.bindings[binding := Binding(s.bindings[binding].account, s.bindings[binding].device, BindingRevoked)]
    ensures s.sessions[id].terms.binding != binding ==>
              Validation(AfterUnbind(s, binding), id, tokenHash, device, now) == Validation(s, id, tokenHash, device, now)
  {
  }

  /** Which reason is given: the first that applies of unknown, revoked, expired, bad
      token, other device, binding no longer in force. */
  lemma ReasonIsFirst(s: Service, id: string, tokenHash: string, device: Option<string>, now: int)
    requires id in s.sessions && !s.sessions[id].state.Revoked?
    ensures var t := s.sessions[id].terms;
            var v := Validation(s, id, tokenHash, device, now);
            && (v == Invalid("expired") <==> now > t.expires)
            && (v == Invalid("bad_token") <==> now <= t.expires && tokenHash != t.tokenHash)
            && (v == Invalid("device_mismatch") <==>
                now <= t.expires && tokenHash == t.tokenHash && device.Some? && device.value != t.device)
            && (v == Invalid("binding_revoked") <==>
                now <= t.expires && tokenHash == t.tokenHash && (device.None? || device.value == t.device)
                && !(t.binding in s.bindings && s.bindings[t.binding].state.Bound?))
  {
  }

  /** The whole way in: a new account and a new device, bound and given a session, are
      answered for by name and roles until the session ends, and no longer once the
      binding is undone. */
  lemma LogIn(s: Service, account: string, roles: seq<string>, device: string, binding: string, id: string,
              tokenHash: string, expires: int, now: int)
    requires account !in s.accounts && device !in s.devices && binding !in s.bindings && id !in s.sessions
    requires !HasBinding(s, account, device) && now <= expires
    ensures var s1 := AfterRegisterDevice(AfterCreateAccount(s, account, roles), device);
            var s2 := AfterBind(s1, account, device, binding);
            var s3 := AfterIssue(s2, id, Terms(account, device, binding, expires, tokenHash, roles));
            && IsActive(s1, account) && s1.accounts[account].roles == roles && device in s1.devices
            && binding in s2.bindings && BoundTo(s2.bindings[binding], account, device)
            && Validation(s3, id, tokenHash, Some(device), now) == Valid(id, account, device, roles)
            && Validation(AfterUnbind(s3, binding), id, tokenHash, Some(device), now) == Invalid("revoked")
  {
    var s1 := AfterRegisterDevice(AfterCreateAccount(s, account, roles), device);
    assert s1.bindings == s.bindings;
    var s2 := AfterBind(s1, account, device, binding);
    IssueActs(s2, id, Terms(account, device, binding, expires, tokenHash, roles), id, tokenHash, Some(device), now);
    UnbindActs(AfterIssue(s2, id, Terms(account, device, binding, expires, tokenHash, roles)), binding, id, tokenHash,
               Some(device), now);
  }

  /** Creating and registering again is refused; binding again gives nothing new while
      a binding is in force. */
  lemma OnlyOnce(s: Service, account: string, roles: seq<string>, device: string, newId: string)
    ensures account in s.accounts ==> AfterCreateAccount(s, account, roles) == s
    ensures device in s.devices ==> AfterRegisterDevice(s, device) == s
    ensures HasBinding(s, account, device) ==> AfterBind(s, account, device, newId) == s
    ensures !IsActive(s, account) || device !in s.devices ==> AfterBind(s, account, device, newId) == s
  {
  }

  /** The status of the account plays no part once a session is issued: suspending an
      account ends none of its sessions. */
  lemma SuspensionEndsNothing(s: Service, account: string, status: AccountStatus, id: string, tokenHash: string,
                              device: Option<string>, now: int)
    requires account in s.accounts
    ensures Validation(s.(accounts := s.accounts[account := s.accounts[account].(status := status)]), id, tokenHash, device, now)
         == Validation(s, id, tokenHash, device, now)
  {
  }
}
