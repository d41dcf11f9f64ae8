/** Concrete runs from the empty installation at which unlocked readings make a property fail. */
module AccessExamples {
  import opened Wrappers
  import opened Access
  import opened Ownership

  // ----- building runs

  lemma {:induction false} RunsCompose(s: State, a: seq<Step>, b: seq<Step>)
    ensures Run(s, a + b) == Run(Run(s, a), b)
    decreases |a|
  {
    if a == [] {
      assert a + b == b;
    } else {
      assert (a + b)[1..] == a[1..] + b;
      RunsCompose(Next(s, a[0]), a[1..], b);
    }
  }

  lemma RunOneMore(s: State, steps: seq<Step>, step: Step)
    ensures Run(s, steps + [step]) == Next(Run(s, steps), step)
  {
    RunsCompose(s, steps, [step]);
    assert Run(Run(s, steps), [step]) == Run(Next(Run(s, steps), step), []);
  }

  lemma RunTwoMore(s: State, steps: seq<Step>, a: Step, b: Step)
    ensures Run(s, steps + [a] + [b]) == Next(Next(Run(s, steps), a), b)
  {
    RunOneMore(s, steps, a);
    RunOneMore(s, steps + [a], b);
  }

  const USERS: map<UserId, Email> := map[0 := "a", 1 := "b", 2 := "c"]

  const MANAGE: Check := Check(0, 0, ManageMembers)

  /** User 0 has a workspace and may manage it, users 1 and 2 have accounts. */
  function Start(): State {
    EMPTY.(orgs := {0}, users := USERS, members := map[Seat(0, 0) := Owner],
           notes := EMPTY.notes.(checks := map[0 := MANAGE], permits := map[0 := Permit(0, 0, Owner)]))
  }

  lemma Starting() returns (steps: seq<Step>)
    ensures Run(EMPTY, steps) == Start()
  {
    var create := DoCreate(0, 0, "a", true, "s", 0);
    var users := [DoPutUser(0, "a")] + [DoPutUser(1, "b")] + [DoPutUser(2, "c")];
    ThreeUsers();
    var s := Run(EMPTY, users);
    Created(s);
    steps := users + [create] + [DoCheck(0, MANAGE)] + [DoReadRole(0)];
    RunOneMore(EMPTY, users, create);
    RunTwoMore(EMPTY, users + [create], DoCheck(0, MANAGE), DoReadRole(0));
  }

  lemma ThreeUsers()
    ensures Run(EMPTY, [DoPutUser(0, "a")] + [DoPutUser(1, "b")] + [DoPutUser(2, "c")]) == EMPTY.(users := USERS)
  {
    RunOneMore(EMPTY, [], DoPutUser(0, "a"));
    assert [] + [DoPutUser(0, "a")] == [DoPutUser(0, "a")];
    RunTwoMore(EMPTY, [DoPutUser(0, "a")], DoPutUser(1, "b"), DoPutUser(2, "c"));
  }

  lemma Created(s: State)
    requires s == EMPTY.(users := USERS)
    ensures Next(Next(Next(s, DoCreate(0, 0, "a", true, "s", 0)), DoCheck(0, MANAGE)), DoReadRole(0)) == Start()
  {
    var s1 := Next(s, DoCreate(0, 0, "a", true, "s", 0));
    assert s1 == s.(orgs := {0}, members := map[Seat(0, 0) := Owner]);
    var s2 := Next(s1, DoCheck(0, MANAGE));
    assert s2 == s1.(notes := s1.notes.(checks := map[0 := MANAGE]));
  }

  /** A task invites an address that belongs to nobody in the workspace yet. */
  lemma Inviting(s: State, task: TaskId, permit: Permit, email: Email, role: Role, token: Token)
    requires task in s.notes.permits && s.notes.permits[task] == permit
    requires permit.org in s.orgs && token !in s.usedTokens
    requires !role.Owner? && !permit.role.Admin? && !IsMemberEmail(s, permit.org, email)
    requires forall t | t in s.invitations :: !Supersedes(s.invitations[t], permit.org, email)
    ensures Next(Next(s, DoDraftInvitation(task, email, role, true)), DoDeliver(task, token, 0))
         == s.(notes := s.notes.(drafts := s.notes.drafts[task := Draft(permit, email, role)]),
               invitations := s.invitations[token := Issued(permit.org, email, role)],
               usedTokens := s.usedTokens + {token})
  {
    assert RevokeActive(s.invitations, permit.org, email, 0) == s.invitations;
  }

  function Issued(org: OrgId, email: Email, role: Role): Invitation {
    Invitation(org, email, role, INVITATION_LIFETIME, None, None)
  }

  /** The user with the invited address accepts at once. */
  lemma Joining(s: State, task: TaskId, user: UserId, token: Token, i: Invitation)
    requires token in s.invitations && s.invitations[token] == i && Pending(i, 0) && i.org in s.orgs
    requires !i.role.Owner? && i.org !in s.provisioning && Seat(i.org, user) !in s.members
    requires user in s.users && Fold(s.users[user]) == i.email && task !in s.notes.lookups
    ensures Next(Next(s, DoLookUp(task, token, 0)), DoAccept(task, SignedIn(user), 0))
         == s.(members := s.members[Seat(i.org, user) := i.role],
               invitations := s.invitations[token := i.(acceptedAt := Some(0))],
               accepted := s.accepted + [token])
  {
    var s1 := Next(s, DoLookUp(task, token, 0));
    assert s1 == s.(notes := s.notes.(lookups := s.notes.lookups[task := Lookup(token, i.org)]));
    assert s1.notes.(lookups := s1.notes.lookups - {task}) == s.notes;
    assert s1.provisioning - {i.org} == s.provisioning;
  }

  /** User 1 has joined with the given role. */
  function WithSecond(role: Role): State {
    Start().(members := map[Seat(0, 0) := Owner, Seat(0, 1) := role],
             notes := Start().notes.(drafts := map[0 := Draft(Permit(0, 0, Owner), "b", role)]),
             invitations := map["t" := Issued(0, "b", role).(acceptedAt := Some(0))],
             usedTokens := {"t"}, accepted := ["t"])
  }

  lemma SecondInvited(role: Role)
    requires !role.Owner?
    ensures Next(Next(Start(), DoDraftInvitation(0, "b", role, true)), DoDeliver(0, "t", 0))
         == Start().(notes := Start().notes.(drafts := map[0 := Draft(Permit(0, 0, Owner), "b", role)]),
                     invitations := map["t" := Issued(0, "b", role)], usedTokens := {"t"})
  {
    assert Fold("a") == "a" && Fold("b") == "b";
    Inviting(Start(), 0, Permit(0, 0, Owner), "b", role, "t");
  }

  lemma SecondJoins(s: State, role: Role)
    requires !role.Owner?
    requires s == Start().(notes := Start().notes.(drafts := map[0 := Draft(Permit(0, 0, Owner), "b", role)]),
                           invitations := map["t" := Issued(0, "b", role)], usedTokens := {"t"})
    ensures Next(Next(s, DoLookUp(0, "t", 0)), DoAccept(0, SignedIn(1), 0)) == WithSecond(role)
  {
    assert Fold("b") == "b";
    Joining(s, 0, 1, "t", Issued(0, "b", role));
  }

  lemma TwoMembers(role: Role) returns (steps: seq<Step>)
    requires !role.Owner?
    ensures Run(EMPTY, steps) == WithSecond(role)
  {
    var start := Starting();
    var draft, deliver := DoDraftInvitation(0, "b", role, true), DoDeliver(0, "t", 0);
    var lookUp, accept := DoLookUp(0, "t", 0), DoAccept(0, SignedIn(1), 0);
    SecondInvited(role);
    SecondJoins(Next(Next(Start(), draft), deliver), role);
    steps := start + [draft] + [deliver] + [lookUp] + [accept];
    RunTwoMore(EMPTY, start, draft, deliver);
    RunTwoMore(EMPTY, start + [draft] + [deliver], lookUp, accept);
  }

  // ----- a deletion that is not safe

  lemma Demoted()
    ensures DemoteOwners(map[Seat(0, 0) := Owner, Seat(0, 1) := Member], 0)[Seat(0, 1) := Owner]
         == map[Seat(0, 0) := Admin, Seat(0, 1) := Owner]
  {
    assert Seat(0, 0) != Seat(0, 1);
  }

  lemma Transferred(s: State)
    requires s.members == map[Seat(0, 0) := Owner, Seat(0, 1) := Member]
    requires s.notes.permits == map[0 := Permit(0, 0, Owner)]
    ensures Next(s, DoChangeRole(0, 1, Owner)) == s.(members := map[Seat(0, 0) := Admin, Seat(0, 1) := Owner])
  {
    Demoted();
    assert ChangeRole(s, 0, 1, Owner) == Success(s.(members := DemoteOwners(s.members, 0)[Seat(0, 1) := Owner]));
  }

  lemma OrphanedSeats(s: State)
    requires s.members == map[Seat(0, 0) := Admin, Seat(0, 1) := Owner]
    ensures !OneOwner(DropUser(s, 1).members, 0)
  {
    assert DropUser(s, 1).members == map[Seat(0, 0) := Admin];
    assert forall v :: !OwnsSeat(DropUser(s, 1).members, 0, v);
  }

  lemma OrphanedByDeletion(s: State)
    requires s.orgs == {0} && s.provisioning == map[] && s.notes.deletions == map[1 := 1]
    requires s.members == map[Seat(0, 0) := Admin, Seat(0, 1) := Owner]
    ensures var s' := Next(s, DoDeleteAccount(1));
            s'.orgs == {0} && !OneOwner(s'.members, 0)
  {
    var s1 := s.(notes := s.notes.(deletions := s.notes.deletions - {1}));
    assert DeleteAccount(s, 1) == Success(DropUser(s1, 1));
    OrphanedSeats(s1);
  }

  /**
   * The check of a deletion passes, the ownership of a workspace is transferred to the user, and
   * the deletion leaves the workspace without an owner.
   */
  lemma TransferDuringDeletion() returns (steps: seq<Step>, org: OrgId)
    ensures var s := Run(EMPTY, steps);
            org in s.orgs && !OneOwner(s.members, org)
  {
    var start := TwoMembers(Member);
    var s := WithSecond(Member);
    var check, transfer, drop := DoCheckDeletion(1, 1), DoChangeRole(0, 1, Owner), DoDeleteAccount(1);
    steps, org := start + [check] + [transfer] + [drop], 0;
    var s1 := Next(s, check);
    assert s1 == s.(notes := s.notes.(deletions := map[1 := 1]));
    Transferred(s1);
    OrphanedByDeletion(Next(s1, transfer));
    RunTwoMore(EMPTY, start, check, transfer);
    RunOneMore(EMPTY, start + [check] + [transfer], drop);
  }

  // ----- a role that is read too late

  /** User 1 passed the permission check as administrator, and is a member when the role is read. */
  function ReadLate(): State {
    var s := WithSecond(Admin);
    s.(members := map[Seat(0, 0) := Owner, Seat(0, 1) := Member],
       notes := s.notes.(checks := map[0 := MANAGE, 1 := Check(0, 1, ManageMembers)],
                         permits := map[0 := Permit(0, 0, Owner), 1 := Permit(0, 1, Member)]))
  }

  lemma ReadingLate()
    ensures Next(Next(Next(WithSecond(Admin), DoCheck(1, Check(0, 1, ManageMembers))), DoChangeRole(0, 1, Member)),
                 DoReadRole(1)) == ReadLate()
  {
    var s := WithSecond(Admin);
    var s1 := Next(s, DoCheck(1, Check(0, 1, ManageMembers)));
    assert s1 == s.(notes := s.notes.(checks := map[0 := MANAGE, 1 := Check(0, 1, ManageMembers)]));
    var s2 := Next(s1, DoChangeRole(0, 1, Member));
    assert s2 == s1.(members := map[Seat(0, 0) := Owner, Seat(0, 1) := Member]);
  }

  lemma LateToReadLate() returns (steps: seq<Step>)
    ensures Run(EMPTY, steps) == ReadLate()
  {
    var start := TwoMembers(Admin);
    var check, change, read := DoCheck(1, Check(0, 1, ManageMembers)), DoChangeRole(0, 1, Member), DoReadRole(1);
    ReadingLate();
    steps := start + [check] + [change] + [read];
    RunTwoMore(EMPTY, start, check, change);
    RunOneMore(EMPTY, start + [check] + [change], read);
  }

  lemma LateInvitation()
    ensures var s := ReadLate();
            Next(Next(s, DoDraftInvitation(1, "c", Admin, true)), DoDeliver(1, "u", 0))
            == s.(notes := s.notes.(drafts := s.notes.drafts[1 := Draft(Permit(0, 1, Member), "c", Admin)]),
                  invitations := s.invitations["u" := Issued(0, "c", Admin)], usedTokens := {"t", "u"})
  {
    var s := ReadLate();
    assert Fold("a") == "a" && Fold("b") == "b" && Fold("c") == "c";
    Inviting(s, 1, Permit(0, 1, Member), "c", Admin, "u");
    assert s.usedTokens + {"u"} == {"t", "u"};
  }

  /**
   * The run: an administrator passes the permission check, is made a member before the role is
   * read, and invites an administrator, who accepts.  As administrator or as member from the
   * start, the same user is refused.
   */
  lemma MemberInvitesAdministrator() returns (steps: seq<Step>, late: seq<Step>)
    ensures var s := Run(EMPTY, steps);
            var s' := Run(EMPTY, late);
            && late == steps + [DoDraftInvitation(1, "c", Admin, true)] + [DoDeliver(1, "u", 0)]
                       + [DoLookUp(1, "u", 0)] + [DoAccept(1, SignedIn(2), 0)]
            && s.members == map[Seat(0, 0) := Owner, Seat(0, 1) := Member]
            && !HasCapability(s, Check(0, 1, ManageMembers))
            && 1 in s.notes.permits && s.notes.permits[1] == Permit(0, 1, Member) && !RoleManageable(Admin, Admin)
            && s'.members == s.members[Seat(0, 2) := Admin]
  {
    steps := LateToReadLate();
    var s := ReadLate();
    var draft, deliver := DoDraftInvitation(1, "c", Admin, true), DoDeliver(1, "u", 0);
    var lookUp, accept := DoLookUp(1, "u", 0), DoAccept(1, SignedIn(2), 0);
    LateInvitation();
    assert Fold("c") == "c";
    Joining(Next(Next(s, draft), deliver), 1, 2, "u", Issued(0, "c", Admin));
    late := steps + [draft] + [deliver] + [lookUp] + [accept];
    RunTwoMore(EMPTY, steps, draft, deliver);
    RunTwoMore(EMPTY, steps + [draft] + [deliver], lookUp, accept);
  }
}
