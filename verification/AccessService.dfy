/** The membership and invitation services as transactions on stored rows. */
module AccessService {
  import opened Wrappers
  import opened Access
  import Invitations
  import Ownership

  /** The transaction either commits the specified state or reports its error and changes nothing. */
  ghost predicate Commits(before: State, after: State, r: Result<(), Error>, spec: Result<State, Error>) {
    match spec
    case Success(s) => r == Success(()) && after == s
    case Failure(e) => r == Failure(e) && after == before
  }

  /** What every transaction keeps. */
  ghost predicate Good(s: State) { Ownership.Inv(s) && Invitations.Inv(s) }

  lemma StepKeeps(s: State, step: Step)
    requires Good(s) && FreshIds(s, step) && Ownership.SafeStep(s, step)
    ensures Apply(s, step).Success? ==> Good(Apply(s, step).value)
  {
    Ownership.NextKeeps(s, step);
    Invitations.NextKeeps(s, step);
  }

  lemma DeliverKeeps(s: State, org: OrgId, email: Email, role: Role, actorRole: Role, token: Token, now: Time)
    requires token !in s.usedTokens
    ensures var r := Deliver(s, org, email, role, actorRole, token, now);
            Good(s) && r.Success? ==> Good(r.value)
  {
    var r := Deliver(s, org, email, role, actorRole, token, now);
    if Good(s) && r.Success? {
      Ownership.SameMembers(s, r.value);
      Invitations.DeliverKeeps(s, org, email, role, actorRole, token, now);
    }
  }

  class Directory {
    var orgs: set<OrgId>
    var users: map<UserId, Email>
    var members: map<Seat, Role>
    var provisioning: map<OrgId, Provisioning>
    var invitations: map<Token, Invitation>
    var notes: Notes
    var usedTokens: set<Token>
    var accepted: seq<Token>

    constructor ()
      ensures Valid() && Contents() == EMPTY
    {
      orgs, users, members, provisioning := {}, map[], map[], map[];
      invitations, notes, usedTokens, accepted := map[], EMPTY.notes, {}, [];
    }

    ghost predicate Valid()
      reads this
    {
      Good(Contents())
    }

    ghost function Contents(): State
      reads this
    {
      State(orgs, users, members, provisioning, invitations, notes, usedTokens, accepted)
    }

    /** Restores the rows at the start of a transaction. */
    method Rollback(s: State)
      modifies this
      ensures Contents() == s
    {
      orgs, users, members, provisioning := s.orgs, s.users, s.members, s.provisioning;
      invitations, notes, usedTokens, accepted := s.invitations, s.notes, s.usedTokens, s.accepted;
    }

    method Snapshot() returns (s: State)
      ensures s == Contents()
    {
      s := State(orgs, users, members, provisioning, invitations, notes, usedTokens, accepted);
    }

    method DeliverWorkspaceInvitation(org: OrgId, email: Email, role: Role, actorRole: Role, token: Token, now: Time)
      returns (r: Result<(), Error>)
      requires token !in usedTokens
      modifies this
      ensures old(Valid()) ==> Valid()
      ensures Commits(old(Contents()), Contents(), r,
                      Deliver(old(Contents()), org, email, role, actorRole, token, now))
    {
      var s := Snapshot();
      DeliverKeeps(s, org, email, role, actorRole, token, now);
      if org !in orgs {
        return Failure(NotFound);
      }
      if IsMemberEmail(s, org, email) {
        return Failure(AlreadyMember);
      }
      if actorRole.Admin? {
        if exists t | t in invitations ::
             Supersedes(invitations[t], org, email) && Privileged(invitations[t].role) {
          return Failure(RolePermission);
        }
      }
      invitations := RevokeActive(invitations, org, email, now);
      invitations := invitations[token := Invitation(org, email, role, now + INVITATION_LIFETIME, None, None)];
      usedTokens := usedTokens + {token};
      r := Success(());
    }

    method SendOwnerInvitation(org: OrgId, ownerEmail: Email, mailReady: bool, token: Token, now: Time)
      returns (r: Result<(), Error>)
      requires token !in usedTokens
      modifies this
      ensures Commits(old(Contents()), Contents(), r,
                      if !mailReady then Failure(NoEmailAccount)
                      else Deliver(old(Contents()), org, ownerEmail, Owner, Owner, token, now))
    {
      if !mailReady {
        return Failure(NoEmailAccount);
      }
      r := DeliverWorkspaceInvitation(org, ownerEmail, Owner, Owner, token, now);
    }

    method CreateWorkspace(org: OrgId, creator: UserId, ownerEmail: Email, mailReady: bool, token: Token, now: Time)
      returns (r: Result<(), Error>)
      requires Valid() && org !in orgs && creator in users && token !in usedTokens
      modifies this
      ensures Valid()
      ensures Commits(old(Contents()), Contents(), r,
                      Access.CreateWorkspace(old(Contents()), org, creator, ownerEmail, mailReady, token, now))
    {
      var start := Snapshot();
      StepKeeps(start, DoCreate(org, creator, ownerEmail, mailReady, token, now));
      orgs := orgs + {org};
      members := members[Seat(org, creator) := Owner];
      if Fold(ownerEmail) != Fold(users[creator]) {
        provisioning := provisioning[org := Provisioning(creator, ownerEmail)];
        r := SendOwnerInvitation(org, ownerEmail, mailReady, token, now);
        if r.Failure? {
          Rollback(start);
        }
        return;
      }
      r := Success(());
    }

    /** The signed-in user, or a new account for the invited address. */
    method ResolveUser(invitation: Invitation, who: Acceptor) returns (r: Result<(), Error>)
      modifies this`users
      ensures match InvitedUser(old(Contents()), invitation, who)
              case Success(table) => r == Success(()) && users == table
              case Failure(e) => r == Failure(e) && users == old(users)
    {
      match who {
        case SignedIn(u) =>
          if u !in users || Fold(users[u]) != invitation.email {
            return Failure(WrongEmail);
          }
        case Registering(u) =>
          if exists v | v in users :: Fold(users[v]) == Fold(invitation.email) {
            return Failure(AccountExists);
          }
          users := users[u := invitation.email];
      }
      r := Success(());
    }

    /** Replaces the creator by the awaited owner, or adds a member with the offered role. */
    method TakeSeat(org: OrgId, user: UserId, role: Role)
      modifies this`members, this`provisioning
      ensures provisioning == old(provisioning) - {org}
      ensures members == if org in old(provisioning)
                         then SeatOwner(old(members), org, old(provisioning)[org].creator, user)
                         else if Seat(org, user) in old(members) then old(members)
                         else old(members)[Seat(org, user) := role]
    {
      var seat := Seat(org, user);
      if org in provisioning {
        var creatorSeat := Seat(org, provisioning[org].creator);
        if creatorSeat in members && members[creatorSeat].Owner? {
          members := members - {creatorSeat};
        }
        if seat !in members || members[seat] != Owner {
          members := members[seat := Owner];
        }
        provisioning := provisioning - {org};
      } else if seat !in members {
        members := members[seat := role];
      }
    }

    method EnterWorkspace(task: TaskId, invitation: Invitation, user: UserId, now: Time)
      requires task in notes.lookups
      modifies this
      ensures Contents() == Enter(old(Contents()), task, invitation, user, now)
    {
      TakeSeat(invitation.org, user, invitation.role);
      var token := notes.lookups[task].token;
      invitations := invitations[token := invitation.(acceptedAt := Some(now))];
      notes := notes.(lookups := notes.lookups - {task});
      accepted := accepted + [token];
    }

    /** Everything that is read again under the lock. */
    method ReadLocked(task: TaskId, now: Time) returns (r: Result<Invitation, Error>)
      ensures r == Recheck(Contents(), task, now)
    {
      if task !in notes.lookups {
        return Failure(NotFound);
      }
      var token, org := notes.lookups[task].token, notes.lookups[task].org;
      if org !in orgs {
        return Failure(NotFound);
      }
      if token !in invitations || invitations[token].org != org || !Pending(invitations[token], now) {
        return Failure(NotFound);
      }
      var invitation := invitations[token];
      var awaited := org in provisioning;
      if invitation.role.Owner? {
        if !awaited || Fold(provisioning[org].ownerEmail) != Fold(invitation.email) {
          return Failure(NotFound);
        }
      } else if awaited {
        return Failure(AwaitingOwner);
      }
      r := Success(invitation);
    }

    method AcceptWorkspaceInvitation(task: TaskId, who: Acceptor, now: Time) returns (r: Result<(), Error>)
      requires Valid() && (who.Registering? ==> who.user !in users)
      modifies this
      ensures Valid()
      ensures Commits(old(Contents()), Contents(), r, Accept(old(Contents()), task, who, now))
    {
      StepKeeps(Contents(), DoAccept(task, who, now));
      var locked := ReadLocked(task, now);
      if locked.Failure? {
        return Failure(locked.error);
      }
      var invitation := locked.value;
      r := ResolveUser(invitation, who);
      if r.Failure? {
        return;
      }
      EnterWorkspace(task, invitation, who.user, now);
    }

    /** The permission check: the capability of the requester, read without a lock. */
    method GetOrganizationForUser(task: TaskId, c: Check) returns (r: Result<(), Error>)
      requires Valid()
      modifies this`notes
      ensures Valid()
      ensures Commits(old(Contents()), Contents(), r, CheckCapability(old(Contents()), task, c))
    {
      StepKeeps(Contents(), DoCheck(task, c));
      var seat := Seat(c.org, c.requester);
      if seat !in members || !Allows(members[seat], c.capability) || c.org in provisioning {
        return Failure(NotFound);
      }
      notes := notes.(checks := notes.checks[task := c]);
      r := Success(());
    }

    /** The role of the requester, read in a second query. */
    method GetMembership(task: TaskId) returns (r: Result<(), Error>)
      requires Valid()
      modifies this`notes
      ensures Valid()
      ensures Commits(old(Contents()), Contents(), r, ReadRole(old(Contents()), task))
    {
      StepKeeps(Contents(), DoReadRole(task));
      if task !in notes.checks || !notes.checks[task].capability.ManageMembers? {
        return Failure(NotFound);
      }
      var seat := Seat(notes.checks[task].org, notes.checks[task].requester);
      if seat !in members {
        return Failure(NotFound);
      }
      notes := notes.(permits := notes.permits[task := Permit(seat.org, seat.user, members[seat])]);
      r := Success(());
    }

    method PatchMembership(task: TaskId, target: UserId, role: Role) returns (r: Result<(), Error>)
      requires Valid()
      modifies this
      ensures Valid()
      ensures Commits(old(Contents()), Contents(), r, ChangeRole(old(Contents()), task, target, role))
    {
      StepKeeps(Contents(), DoChangeRole(task, target, role));
      if task !in notes.permits || Seat(notes.permits[task].org, target) !in members {
        return Failure(NotFound);
      }
      var seat := Seat(notes.permits[task].org, target);
      var isOwner := notes.permits[task].role.Owner?;
      if role.Owner? {
        if !isOwner {
          return Failure(Forbidden);
        }
        if !members[seat].Owner? {
          members := DemoteOwners(members, seat.org);
          members := members[seat := Owner];
        }
      } else {
        if members[seat].Owner? {
          return Failure(BadRequest);
        }
        if !isOwner && (members[seat].Admin? || role.Admin?) {
          return Failure(Forbidden);
        }
        members := members[seat := role];
      }
      r := Success(());
    }

    method DeleteMembership(task: TaskId, target: UserId) returns (r: Result<(), Error>)
      requires Valid()
      modifies this
      ensures Valid()
      ensures Commits(old(Contents()), Contents(), r, RemoveMember(old(Contents()), task, target))
    {
      StepKeeps(Contents(), DoRemoveMember(task, target));
      if task !in notes.permits || Seat(notes.permits[task].org, target) !in members {
        return Failure(NotFound);
      }
      var seat := Seat(notes.permits[task].org, target);
      if members[seat].Owner? {
        return Failure(BadRequest);
      }
      if !notes.permits[task].role.Owner? && members[seat].Admin? {
        return Failure(Forbidden);
      }
      members := members - {seat};
      r := Success(());
    }
  }
}
