/** Invitations are live once, accepted once, and never come back to life. */
module Invitations {
  import opened Access

  // ----- the invariant

  ghost predicate OneLive(invitations: map<Token, Invitation>) {
    forall a, b | a in invitations && b in invitations && Live(invitations[a]) && Live(invitations[b])
                  && invitations[a].org == invitations[b].org
                  && Fold(invitations[a].email) == Fold(invitations[b].email) :: a == b
  }

  /** A stored invitation is accepted or revoked, not both, and accepted ones are in the log. */
  predicate RowOk(s: State, t: Token) {
    && t in s.invitations
    && t in s.usedTokens
    && (s.invitations[t].acceptedAt.None? || s.invitations[t].revokedAt.None?)
    && (t in s.accepted <==> s.invitations[t].acceptedAt.Some?)
  }

  ghost predicate LogOk(s: State) {
    && (forall i, j | 0 <= i < j < |s.accepted| :: s.accepted[i] != s.accepted[j])
    && (forall t | t in s.accepted :: t in s.usedTokens)
  }

  ghost predicate Inv(s: State) {
    && OneLive(s.invitations)
    && (forall t | t in s.invitations :: RowOk(s, t))
    && LogOk(s)
  }

  // ----- each operation

  lemma DeliverKeeps(s: State, org: OrgId, email: Email, role: Role, actorRole: Role, token: Token, now: Time)
    requires Inv(s) && token !in s.usedTokens
    requires Deliver(s, org, email, role, actorRole, token, now).Success?
    ensures Inv(Deliver(s, org, email, role, actorRole, token, now).value)
  {
    var s' := Deliver(s, org, email, role, actorRole, token, now).value;
    forall t | t in s'.invitations ensures RowOk(s', t) {
      if t != token { assert RowOk(s, t); }
    }
    forall a, b | a in s'.invitations && b in s'.invitations && Live(s'.invitations[a]) && Live(s'.invitations[b])
                  && s'.invitations[a].org == s'.invitations[b].org
                  && Fold(s'.invitations[a].email) == Fold(s'.invitations[b].email)
      ensures a == b
    {
      if a != token { assert !Supersedes(s.invitations[a], org, email); }
      if b != token { assert !Supersedes(s.invitations[b], org, email); }
    }
  }

  /** Fewer invitations, or the same ones, keep everything. */
  lemma SubsetKeeps(s: State, s': State)
    requires Inv(s) && s'.usedTokens == s.usedTokens && s'.accepted == s.accepted
    requires forall t | t in s'.invitations :: t in s.invitations && s'.invitations[t] == s.invitations[t]
    ensures Inv(s')
  {
    forall t | t in s'.invitations ensures RowOk(s', t) {
      assert RowOk(s, t);
    }
  }

  lemma CreateKeeps(s: State, org: OrgId, creator: UserId, ownerEmail: Email, mailReady: bool, token: Token, now: Time)
    requires Inv(s) && creator in s.users && token !in s.usedTokens
    requires CreateWorkspace(s, org, creator, ownerEmail, mailReady, token, now).Success?
    ensures Inv(CreateWorkspace(s, org, creator, ownerEmail, mailReady, token, now).value)
  {
    var s1 := s.(orgs := s.orgs + {org}, members := s.members[Seat(org, creator) := Owner]);
    SubsetKeeps(s, s1);
    if Fold(ownerEmail) != Fold(s.users[creator]) {
      var s2 := s1.(provisioning := s1.provisioning[org := Provisioning(creator, ownerEmail)]);
      SubsetKeeps(s1, s2);
      DeliverKeeps(s2, org, ownerEmail, Owner, Owner, token, now);
    }
  }

  lemma ResendOwnerKeeps(s: State, org: OrgId, requester: UserId, superuser: bool, mailReady: bool,
                         token: Token, now: Time)
    requires Inv(s) && token !in s.usedTokens
    requires ResendOwner(s, org, requester, superuser, mailReady, token, now).Success?
    ensures Inv(ResendOwner(s, org, requester, superuser, mailReady, token, now).value)
  {
    var s1 := s.(invitations := WithoutOwnerInvitations(s.invitations, org));
    SubsetKeeps(s, s1);
    DeliverKeeps(s1, org, s.provisioning[org].ownerEmail, Owner, Owner, token, now);
  }

  /** Closing a live invitation keeps everything; accepting it also appends it to the log. */
  lemma CloseKeeps(s: State, s': State, token: Token)
    requires Inv(s) && token in s.invitations && Live(s.invitations[token])
    requires s'.usedTokens == s.usedTokens && s'.invitations.Keys == s.invitations.Keys
    requires forall t | t in s.invitations && t != token :: s'.invitations[t] == s.invitations[t]
    requires if s'.invitations[token].acceptedAt.Some?
             then s'.invitations[token].revokedAt.None? && s'.accepted == s.accepted + [token]
             else s'.invitations[token].revokedAt.Some? && s'.accepted == s.accepted
    ensures Inv(s')
  {
    assert RowOk(s, token);
    forall t | t in s'.invitations ensures RowOk(s', t) {
      assert RowOk(s, t);
    }
  }

  predicate SameInvitations(s: State, s': State) {
    s'.usedTokens == s.usedTokens && s'.accepted == s.accepted && s'.invitations == s.invitations
  }

  /** Steps that only touch memberships and accounts. */
  predicate ChangesMembers(step: Step) {
    step.DoChangeRole? || step.DoRemoveMember? || step.DoDeleteAccount?
  }

  /** Steps that only note what was read. */
  predicate OnlyReads(step: Step) {
    step.DoPutUser? || step.DoCheck? || step.DoReadRole? || step.DoDraftInvitation? || step.DoDraftResend?
    || step.DoLookUp? || step.DoCheckDeletion?
  }

  lemma MembersEffect(s: State, step: Step)
    requires ChangesMembers(step)
    ensures SameInvitations(s, Next(s, step))
  {
  }

  lemma ReadsEffect(s: State, step: Step)
    requires OnlyReads(step)
    ensures SameInvitations(s, Next(s, step))
  {
  }

  /** Steps that issue, close and accept nothing. */
  predicate Unrelated(step: Step) {
    ChangesMembers(step) || OnlyReads(step) || step.DoCancelWorkspace? || step.DoDeleteWorkspace?
  }

  lemma UnrelatedEffect(s: State, step: Step)
    requires Unrelated(step)
    ensures var s' := Next(s, step);
            && s'.usedTokens == s.usedTokens && s'.accepted == s.accepted
            && forall t | t in s'.invitations :: t in s.invitations && s'.invitations[t] == s.invitations[t]
  {
    if ChangesMembers(step) { MembersEffect(s, step); }
    if OnlyReads(step) { ReadsEffect(s, step); }
  }

  lemma NextKeeps(s: State, step: Step)
    requires Inv(s)
    ensures Inv(Next(s, step))
  {
    if Unrelated(step) {
      UnrelatedEffect(s, step);
      SubsetKeeps(s, Next(s, step));
    } else if FreshIds(s, step) && Apply(s, step).Success? {
      match step
      case DoCreate(org, creator, ownerEmail, mailReady, token, now) =>
        CreateKeeps(s, org, creator, ownerEmail, mailReady, token, now);
      case DoResendOwner(org, requester, superuser, mailReady, token, now) =>
        ResendOwnerKeeps(s, org, requester, superuser, mailReady, token, now);
      case DoDeliver(task, token, now) =>
        var d := s.notes.drafts[task];
        DeliverKeeps(s, d.permit.org, d.email, d.role, d.permit.role, token, now);
      case DoRevoke(task, token, now) =>
        if s.invitations[token].revokedAt.None? { CloseKeeps(s, Revoke(s, task, token, now).value, token); }
      case DoAccept(task, who, now) => CloseKeeps(s, Accept(s, task, who, now).value, s.notes.lookups[task].token);
    }
  }

  lemma {:induction false} RunKeeps(s: State, steps: seq<Step>)
    requires Inv(s)
    ensures Inv(Run(s, steps))
    decreases |steps|
  {
    if steps == [] {
    } else {
      NextKeeps(s, steps[0]);
      RunKeeps(Next(s, steps[0]), steps[1..]);
    }
  }

  lemma ReachableIsInvariant(s: State)
    requires Reachable(s)
    ensures Inv(s)
  {
    var steps :| s == Run(EMPTY, steps);
    RunKeeps(EMPTY, steps);
  }

  // ----- the promises

  /** At most one invitation per workspace and address is live, and no invitation was accepted twice. */
  lemma LiveOnceAcceptedOnce(s: State)
    requires Reachable(s)
    ensures forall a, b | a in s.invitations && b in s.invitations
                          && Live(s.invitations[a]) && Live(s.invitations[b])
                          && s.invitations[a].org == s.invitations[b].org
                          && Fold(s.invitations[a].email) == Fold(s.invitations[b].email) :: a == b
    ensures forall i, j | 0 <= i < j < |s.accepted| :: s.accepted[i] != s.accepted[j]
  {
    ReachableIsInvariant(s);
  }

  /** An issued token whose invitation was accepted, revoked, superseded or deleted. */
  predicate Dead(s: State, t: Token) {
    t in s.usedTokens && (t in s.invitations ==> !Live(s.invitations[t]))
  }

  lemma DeadThroughDelivery(s: State, org: OrgId, email: Email, role: Role, actorRole: Role, token: Token, now: Time,
                            t: Token)
    requires Dead(s, t) && token !in s.usedTokens
    requires Deliver(s, org, email, role, actorRole, token, now).Success?
    ensures var s' := Deliver(s, org, email, role, actorRole, token, now).value;
            Dead(s', t) && s'.accepted == s.accepted
  {
  }

  lemma DeadThroughCreation(s: State, org: OrgId, creator: UserId, ownerEmail: Email, mailReady: bool,
                            token: Token, now: Time, t: Token)
    requires Dead(s, t) && creator in s.users && token !in s.usedTokens
    requires CreateWorkspace(s, org, creator, ownerEmail, mailReady, token, now).Success?
    ensures var s' := CreateWorkspace(s, org, creator, ownerEmail, mailReady, token, now).value;
            Dead(s', t) && s'.accepted == s.accepted
  {
    if Fold(ownerEmail) != Fold(s.users[creator]) {
      var s1 := s.(orgs := s.orgs + {org}, members := s.members[Seat(org, creator) := Owner],
                   provisioning := s.provisioning[org := Provisioning(creator, ownerEmail)]);
      DeadThroughDelivery(s1, org, ownerEmail, Owner, Owner, token, now, t);
    }
  }

  lemma DeadThroughOwnerResend(s: State, org: OrgId, requester: UserId, superuser: bool, mailReady: bool,
                               token: Token, now: Time, t: Token)
    requires Dead(s, t) && token !in s.usedTokens
    requires ResendOwner(s, org, requester, superuser, mailReady, token, now).Success?
    ensures var s' := ResendOwner(s, org, requester, superuser, mailReady, token, now).value;
            Dead(s', t) && s'.accepted == s.accepted
  {
    var s1 := s.(invitations := WithoutOwnerInvitations(s.invitations, org));
    DeadThroughDelivery(s1, org, s.provisioning[org].ownerEmail, Owner, Owner, token, now, t);
  }

  /** The log grows by at most one acceptance, which is not that of the token. */
  predicate LogsNo(before: seq<Token>, after: seq<Token>, t: Token) {
    after == before || (|after| == |before| + 1 && before <= after && after[|before|] != t)
  }

  lemma DeadThroughAcceptance(s: State, task: TaskId, who: Acceptor, now: Time, t: Token)
    requires Dead(s, t) && Accept(s, task, who, now).Success?
    ensures var s' := Accept(s, task, who, now).value;
            Dead(s', t) && LogsNo(s.accepted, s'.accepted, t)
  {
  }

  lemma DeadStaysDead(s: State, step: Step, t: Token)
    requires Dead(s, t)
    ensures Dead(Next(s, step), t) && LogsNo(s.accepted, Next(s, step).accepted, t)
  {
    if Unrelated(step) {
      UnrelatedEffect(s, step);
    } else if FreshIds(s, step) && Apply(s, step).Success? {
      match step
      case DoCreate(org, creator, ownerEmail, mailReady, token, now) =>
        DeadThroughCreation(s, org, creator, ownerEmail, mailReady, token, now, t);
      case DoResendOwner(org, requester, superuser, mailReady, token, now) =>
        DeadThroughOwnerResend(s, org, requester, superuser, mailReady, token, now, t);
      case DoDeliver(task, token, now) =>
        var d := s.notes.drafts[task];
        DeadThroughDelivery(s, d.permit.org, d.email, d.role, d.permit.role, token, now, t);
      case DoRevoke(task, token, now) =>
      case DoAccept(task, who, now) => DeadThroughAcceptance(s, task, who, now, t);
    }
  }

  lemma LogsCompose(a: seq<Token>, b: seq<Token>, c: seq<Token>, t: Token)
    requires LogsNo(a, b, t) && b <= c && forall i | |b| <= i < |c| :: c[i] != t
    ensures a <= c && forall i | |a| <= i < |c| :: c[i] != t
  {
    assert |b| > |a| ==> c[|a|] == b[|a|];
  }

  /**
   * A dead token is never accepted in any later run, not even by an acceptance that had already
   * looked it up while it was alive.
   */
  lemma {:induction false} DeadIsNeverAccepted(s: State, steps: seq<Step>, t: Token)
    requires Dead(s, t)
    ensures Dead(Run(s, steps), t)
    ensures s.accepted <= Run(s, steps).accepted
    ensures forall i | |s.accepted| <= i < |Run(s, steps).accepted| :: Run(s, steps).accepted[i] != t
    decreases |steps|
  {
    if steps == [] {
    } else {
      var s1 := Next(s, steps[0]);
      DeadStaysDead(s, steps[0], t);
      DeadIsNeverAccepted(s1, steps[1..], t);
      LogsCompose(s.accepted, s1.accepted, Run(s1, steps[1..]).accepted, t);
    }
  }

  /** Delivering a new invitation kills every older live token of the address. */
  lemma DeliveringSupersedes(s: State, org: OrgId, email: Email, role: Role, actorRole: Role, token: Token, now: Time,
                             t: Token)
    requires Inv(s) && token !in s.usedTokens
    requires Deliver(s, org, email, role, actorRole, token, now).Success?
    requires t in s.invitations && s.invitations[t].org == org && Fold(s.invitations[t].email) == Fold(email)
    ensures Dead(Deliver(s, org, email, role, actorRole, token, now).value, t)
    ensures var s' := Deliver(s, org, email, role, actorRole, token, now).value;
            token in s'.invitations && Live(s'.invitations[token]) && !Dead(s', token)
  {
    assert RowOk(s, t);
  }

  /** Revoking kills the token. */
  lemma RevokingKills(s: State, manager: TaskId, token: Token, now: Time)
    requires Inv(s) && Revoke(s, manager, token, now).Success?
    ensures Dead(Revoke(s, manager, token, now).value, token)
  {
    assert RowOk(s, token);
  }

  /**
   * The race: an acceptance looks a token up, and before it takes the lock the invitation is
   * revoked.  Whatever runs in between or afterwards, that acceptance is refused.
   */
  lemma RevocationWinsTheRace(s: State, task: TaskId, manager: TaskId, token: Token, revokedAt: Time,
                              between: seq<Step>, who: Acceptor, now: Time)
    requires Inv(s) && task in s.notes.lookups && s.notes.lookups[task].token == token
    requires Revoke(s, manager, token, revokedAt).Success?
    ensures var s' := Run(Revoke(s, manager, token, revokedAt).value, between);
            task in s'.notes.lookups && s'.notes.lookups[task].token == token ==> Accept(s', task, who, now).Failure?
  {
    RevokingKills(s, manager, token, revokedAt);
    DeadIsNeverAccepted(Revoke(s, manager, token, revokedAt).value, between, token);
  }

  /** A seat that an invitation creates has the role the invitation offered. */
  lemma AcceptanceGivesTheOfferedRole(s: State, task: TaskId, who: Acceptor, now: Time)
    requires Accept(s, task, who, now).Success?
    ensures var s' := Accept(s, task, who, now).value;
            var i := s.invitations[s.notes.lookups[task].token];
            var seat := Seat(i.org, who.user);
            && seat in s'.members && who.user in s'.users
            && (seat !in s.members ==> s'.members[seat] == i.role)
            && (seat in s.members && !i.role.Owner? ==> s'.members[seat] == s.members[seat])
            && (i.role.Owner? ==> s'.members[seat].Owner?)
            && Fold(s'.users[who.user]) == Fold(i.email)
  {
    FoldIsIdempotent(s.invitations[s.notes.lookups[task].token].email);
    if who.SignedIn? { FoldIsIdempotent(s.users[who.user]); }
  }

  lemma {:induction false} FoldIsIdempotent(e: Email)
    ensures Fold(Fold(e)) == Fold(e)
  {
    if e != "" { FoldIsIdempotent(e[1..]); }
  }
}
