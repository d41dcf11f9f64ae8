/** Every workspace has exactly one owner, whatever is done to it. */
module Ownership {
  import opened Access

  predicate OwnsSeat(members: map<Seat, Role>, org: OrgId, u: UserId) {
    Seat(org, u) in members && members[Seat(org, u)].Owner?
  }

  ghost predicate SoleOwner(members: map<Seat, Role>, org: OrgId, u: UserId) {
    OwnsSeat(members, org, u) && forall v | OwnsSeat(members, org, v) :: v == u
  }

  ghost predicate OneOwner(members: map<Seat, Role>, org: OrgId) {
    exists u :: SoleOwner(members, org, u)
  }

  /** While the owner is awaited, the creator is the owner and there is nobody else. */
  ghost predicate OnlyCreator(members: map<Seat, Role>, org: OrgId, creator: UserId) {
    && OwnsSeat(members, org, creator)
    && forall u | Seat(org, u) in members :: u == creator
  }

  ghost predicate WorkspaceOk(s: State, org: OrgId) {
    && OneOwner(s.members, org)
    && (org in s.provisioning ==> OnlyCreator(s.members, org, s.provisioning[org].creator))
  }

  ghost predicate Inv(s: State) {
    && s.provisioning.Keys <= s.orgs
    && (forall k | k in s.members :: k.org in s.orgs)
    && (forall org | org in s.orgs :: WorkspaceOk(s, org))
  }

  // ----- what happens in one workspace stays there

  ghost predicate SameWorkspace(s: State, s': State, org: OrgId) {
    && (forall u :: Seat(org, u) in s'.members <==> Seat(org, u) in s.members)
    && (forall u | Seat(org, u) in s.members :: s'.members[Seat(org, u)] == s.members[Seat(org, u)])
    && (org in s'.provisioning <==> org in s.provisioning)
    && (org in s.provisioning ==> s'.provisioning[org] == s.provisioning[org])
  }

  lemma SameKeepsOk(s: State, s': State, org: OrgId)
    requires SameWorkspace(s, s', org) && WorkspaceOk(s, org)
    ensures WorkspaceOk(s', org)
  {
    var u :| SoleOwner(s.members, org, u);
    assert OwnsSeat(s'.members, org, u);
    forall v | OwnsSeat(s'.members, org, v) ensures v == u {
      assert OwnsSeat(s.members, org, v);
    }
    assert SoleOwner(s'.members, org, u);
  }

  lemma OneWorkspaceChanged(s: State, s': State, org: OrgId)
    requires Inv(s) && s'.orgs == s.orgs + {org}
    requires s'.provisioning.Keys <= s'.orgs && forall k | k in s'.members :: k.org in s'.orgs
    requires forall o | o in s.orgs && o != org :: SameWorkspace(s, s', o)
    requires WorkspaceOk(s', org)
    ensures Inv(s')
  {
    forall o | o in s'.orgs ensures WorkspaceOk(s', o) {
      if o != org { SameKeepsOk(s, s', o); }
    }
  }

  /** Invitations, look-ups and users do not matter to ownership. */
  lemma SameMembers(s: State, s': State)
    requires Inv(s) && s'.orgs == s.orgs && s'.members == s.members && s'.provisioning == s.provisioning
    ensures Inv(s')
  {
    forall o | o in s'.orgs ensures WorkspaceOk(s', o) {
      SameKeepsOk(s, s', o);
    }
  }

  // ----- each operation

  lemma CreateKeeps(s: State, org: OrgId, creator: UserId, ownerEmail: Email, mailReady: bool,
                    token: Token, now: Time)
    requires Inv(s) && org !in s.orgs && creator in s.users
    requires CreateWorkspace(s, org, creator, ownerEmail, mailReady, token, now).Success?
    ensures Inv(CreateWorkspace(s, org, creator, ownerEmail, mailReady, token, now).value)
  {
    var s' := CreateWorkspace(s, org, creator, ownerEmail, mailReady, token, now).value;
    assert SoleOwner(s'.members, org, creator);
    assert OnlyCreator(s'.members, org, creator);
    OneWorkspaceChanged(s, s', org);
  }

  lemma DropOrganizationKeeps(s: State, org: OrgId)
    requires Inv(s)
    ensures Inv(DropOrganization(s, org))
  {
    var s' := DropOrganization(s, org);
    forall o | o in s'.orgs ensures WorkspaceOk(s', o) {
      SameKeepsOk(s, s', o);
    }
  }

  lemma SeatOwnerIsSole(members: map<Seat, Role>, org: OrgId, creator: UserId, user: UserId)
    requires OnlyCreator(members, org, creator)
    ensures SoleOwner(SeatOwner(members, org, creator, user), org, user)
  {
  }

  lemma AcceptKeeps(s: State, task: TaskId, who: Acceptor, now: Time)
    requires Inv(s) && Accept(s, task, who, now).Success?
    ensures Inv(Accept(s, task, who, now).value)
  {
    var s' := Accept(s, task, who, now).value;
    var org := s.notes.lookups[task].org;
    assert WorkspaceOk(s, org);
    if org in s.provisioning {
      SeatOwnerIsSole(s.members, org, s.provisioning[org].creator, who.user);
    } else {
      var u :| SoleOwner(s.members, org, u);
      MemberJoins(s.members, s'.members, org, who.user, u);
    }
    OneWorkspaceChanged(s, s', org);
  }

  /** A seat that is not an owner's does not disturb the sole owner. */
  lemma MemberJoins(members: map<Seat, Role>, members': map<Seat, Role>, org: OrgId, user: UserId, owner: UserId)
    requires SoleOwner(members, org, owner)
    requires forall v | v != user :: OwnsSeat(members', org, v) <==> OwnsSeat(members, org, v)
    requires OwnsSeat(members', org, user) <==> OwnsSeat(members, org, user)
    ensures SoleOwner(members', org, owner)
  {
  }

  /** Whatever was read about the requester, and however long ago. */
  lemma ChangeRoleKeeps(s: State, task: TaskId, target: UserId, role: Role)
    requires Inv(s) && ChangeRole(s, task, target, role).Success?
    ensures Inv(ChangeRole(s, task, target, role).value)
  {
    var s' := ChangeRole(s, task, target, role).value;
    var org := s.notes.permits[task].org;
    assert Seat(org, target) in s.members && WorkspaceOk(s, org);
    if role.Owner? {
      if !s.members[Seat(org, target)].Owner? {
        assert SoleOwner(s'.members, org, target);
      }
    } else {
      var u :| SoleOwner(s.members, org, u);
      MemberJoins(s.members, s'.members, org, target, u);
    }
    OneWorkspaceChanged(s, s', org);
  }

  lemma RemoveMemberKeeps(s: State, task: TaskId, target: UserId)
    requires Inv(s) && RemoveMember(s, task, target).Success?
    ensures Inv(RemoveMember(s, task, target).value)
  {
    var s' := RemoveMember(s, task, target).value;
    var org := s.notes.permits[task].org;
    assert Seat(org, target) in s.members && WorkspaceOk(s, org);
    var u :| SoleOwner(s.members, org, u);
    MemberJoins(s.members, s'.members, org, target, u);
    OneWorkspaceChanged(s, s', org);
  }

  lemma DropUserKeeps(s: State, u: UserId)
    requires Inv(s) && !OwnsSomething(s, u)
    ensures Inv(DropUser(s, u))
  {
    var s' := DropUser(s, u);
    forall org | org in s'.orgs ensures WorkspaceOk(s', org) {
      assert WorkspaceOk(s, org);
      var o :| SoleOwner(s.members, org, o);
      assert s.members[Seat(org, o)].Owner?;
      assert o != u;
      MemberJoins(s.members, s'.members, org, u, o);
    }
  }

  /** The user of an executed account deletion owns nothing at that moment. */
  predicate SafeStep(s: State, step: Step) {
    step.DoDeleteAccount? && DeleteAccount(s, step.task).Success? ==> !OwnsSomething(s, s.notes.deletions[step.task])
  }

  lemma DeleteAccountKeeps(s: State, task: TaskId)
    requires Inv(s) && DeleteAccount(s, task).Success? && !OwnsSomething(s, s.notes.deletions[task])
    ensures Inv(DeleteAccount(s, task).value)
  {
    var s1 := s.(notes := s.notes.(deletions := s.notes.deletions - {task}));
    SameMembers(s, s1);
    DropUserKeeps(s1, s.notes.deletions[task]);
  }

  /** Steps that only note what was read. */
  predicate OnlyReads(step: Step) {
    step.DoPutUser? || step.DoCheck? || step.DoReadRole? || step.DoDraftInvitation? || step.DoDraftResend?
    || step.DoLookUp? || step.DoCheckDeletion?
  }

  /** Steps that only change invitations. */
  predicate OnlyInvites(step: Step) { step.DoResendOwner? || step.DoDeliver? || step.DoRevoke? }

  predicate SameSeats(s: State, s': State) {
    s'.orgs == s.orgs && s'.members == s.members && s'.provisioning == s.provisioning
  }

  lemma ReadsEffect(s: State, step: Step)
    requires OnlyReads(step)
    ensures SameSeats(s, Next(s, step))
  {
  }

  lemma InvitesEffect(s: State, step: Step)
    requires OnlyInvites(step)
    ensures SameSeats(s, Next(s, step))
  {
  }

  lemma QuietKeeps(s: State, step: Step)
    requires Inv(s) && (OnlyReads(step) || OnlyInvites(step))
    ensures Inv(Next(s, step))
  {
    if OnlyReads(step) { ReadsEffect(s, step); } else { InvitesEffect(s, step); }
    SameMembers(s, Next(s, step));
  }

  /** Every step but an unsafe deletion keeps the invariant. */
  lemma NextKeeps(s: State, step: Step)
    requires Inv(s) && SafeStep(s, step)
    ensures Inv(Next(s, step))
  {
    if OnlyReads(step) || OnlyInvites(step) {
      QuietKeeps(s, step);
    } else if FreshIds(s, step) && Apply(s, step).Success? {
      match step
      case DoCreate(org, creator, ownerEmail, mailReady, token, now) =>
        CreateKeeps(s, org, creator, ownerEmail, mailReady, token, now);
      case DoCancelWorkspace(org, requester, superuser) => DropOrganizationKeeps(s, org);
      case DoDeleteWorkspace(task) => DropOrganizationKeeps(s, s.notes.checks[task].org);
      case DoAccept(task, who, now) => AcceptKeeps(s, task, who, now);
      case DoChangeRole(task, target, role) => ChangeRoleKeeps(s, task, target, role);
      case DoRemoveMember(task, target) => RemoveMemberKeeps(s, task, target);
      case DoDeleteAccount(task) => DeleteAccountKeeps(s, task);
    }
  }

  /**
   * A role change gives the target exactly the requested role.  Nobody else's role changes, but
   * for the previous owner, who becomes an administrator when the ownership moves on.
   */
  lemma RoleChangeEffect(s: State, task: TaskId, target: UserId, role: Role, seat: Seat)
    requires Inv(s) && ChangeRole(s, task, target, role).Success?
    ensures var s' := ChangeRole(s, task, target, role).value;
            var org := s.notes.permits[task].org;
            && s'.members.Keys == s.members.Keys
            && s'.members[Seat(org, target)] == role
            && (seat in s.members && seat != Seat(org, target) ==>
                  s'.members[seat] == if role.Owner? && seat.org == org && s.members[seat].Owner? then Admin
                                      else s.members[seat])
            && s'.(members := s.members) == s
  {
    var org := s.notes.permits[task].org;
    assert Seat(org, target) in s.members && WorkspaceOk(s, org);
    var owner :| SoleOwner(s.members, org, owner);
    if seat in s.members && seat.org == org && s.members[seat].Owner? {
      assert seat == Seat(org, seat.user) && OwnsSeat(s.members, org, seat.user);
    }
    if s.members[Seat(org, target)].Owner? {
      assert OwnsSeat(s.members, org, target);
    }
  }

  // ----- every run

  ghost predicate AllOwned(s: State) {
    forall org | org in s.orgs :: OneOwner(s.members, org)
  }

  /**
   * Account deletion checks for owned workspaces and then deletes without holding a lock in
   * between.  The deletion leaves every workspace with one owner exactly when the user still owns
   * nothing at that moment.
   */
  lemma DeletionIsSafeExactly(s: State, u: UserId)
    requires Inv(s)
    ensures AllOwned(DropUser(s, u)) <==> !OwnsSomething(s, u)
  {
    if OwnsSomething(s, u) {
      var k :| k in s.members && k.user == u && s.members[k].Owner?;
      assert WorkspaceOk(s, k.org);
      var o :| SoleOwner(s.members, k.org, o);
      assert k == Seat(k.org, u) && OwnsSeat(s.members, k.org, u);
      forall v ensures !OwnsSeat(DropUser(s, u).members, k.org, v) {
        if OwnsSeat(DropUser(s, u).members, k.org, v) {
          assert OwnsSeat(s.members, k.org, v);
        }
      }
    } else {
      DropUserKeeps(s, u);
      forall org | org in s.orgs ensures OneOwner(DropUser(s, u).members, org) {
        assert WorkspaceOk(DropUser(s, u), org);
      }
    }
  }

  lemma InvIsOwned(s: State)
    requires Inv(s)
    ensures AllOwned(s)
  {
    forall org | org in s.orgs ensures OneOwner(s.members, org) {
      assert WorkspaceOk(s, org);
    }
  }

  /** One step leaves every workspace with one owner exactly when it is safe. */
  lemma StepIsSafeExactly(s: State, step: Step)
    requires Inv(s)
    ensures AllOwned(Next(s, step)) <==> SafeStep(s, step)
  {
    if SafeStep(s, step) {
      NextKeeps(s, step);
      InvIsOwned(Next(s, step));
    } else {
      var s1 := s.(notes := s.notes.(deletions := s.notes.deletions - {step.task}));
      SameMembers(s, s1);
      DeletionIsSafeExactly(s1, s.notes.deletions[step.task]);
    }
  }

  /** Every workspace has exactly one owner in every state of the run. */
  ghost predicate AlwaysOwned(s: State, steps: seq<Step>)
    decreases |steps|
  {
    AllOwned(s) && (steps != [] ==> AlwaysOwned(Next(s, steps[0]), steps[1..]))
  }

  /** Every account deletion that is executed in the run is safe when it is executed. */
  predicate SafeDeletions(s: State, steps: seq<Step>)
    decreases |steps|
  {
    steps != [] ==> SafeStep(s, steps[0]) && SafeDeletions(Next(s, steps[0]), steps[1..])
  }

  lemma {:induction false} RunIsOwnedExactly(s: State, steps: seq<Step>)
    requires Inv(s)
    ensures AlwaysOwned(s, steps) <==> SafeDeletions(s, steps)
    decreases |steps|
  {
    InvIsOwned(s);
    if steps != [] {
      StepIsSafeExactly(s, steps[0]);
      if SafeStep(s, steps[0]) {
        NextKeeps(s, steps[0]);
        RunIsOwnedExactly(Next(s, steps[0]), steps[1..]);
      } else {
        NotOwnedAtFirst(Next(s, steps[0]), steps[1..]);
      }
    }
  }

  lemma NotOwnedAtFirst(s: State, steps: seq<Step>)
    requires !AllOwned(s)
    ensures !AlwaysOwned(s, steps)
  {
  }

  /**
   * In every interleaving of all requests, their permission checks, acceptances and account
   * deletions: every workspace has exactly one owner in every state of the run if and only if no
   * account deletion is executed while its user owns a workspace.
   */
  lemma ExactlyOneOwner(steps: seq<Step>)
    ensures AlwaysOwned(EMPTY, steps) <==> SafeDeletions(EMPTY, steps)
  {
    RunIsOwnedExactly(EMPTY, steps);
  }

  lemma {:induction false} SafeRunKeeps(s: State, steps: seq<Step>)
    requires Inv(s) && SafeDeletions(s, steps)
    ensures Inv(Run(s, steps))
    decreases |steps|
  {
    if steps == [] {
    } else {
      NextKeeps(s, steps[0]);
      SafeRunKeeps(Next(s, steps[0]), steps[1..]);
    }
  }

  /** And then, while a workspace awaits its owner, its only membership is the creator's as owner. */
  lemma PendingHasOnlyItsCreator(steps: seq<Step>, org: OrgId)
    requires SafeDeletions(EMPTY, steps)
    ensures var s := Run(EMPTY, steps);
            org in s.provisioning ==> org in s.orgs && OnlyCreator(s.members, org, s.provisioning[org].creator)
  {
    SafeRunKeeps(EMPTY, steps);
    var s := Run(EMPTY, steps);
    if org in s.provisioning { assert WorkspaceOk(s, org); }
  }
}
