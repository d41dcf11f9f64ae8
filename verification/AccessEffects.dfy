/**
 * Whom each membership and invitation operation refuses, and what it changes otherwise, in terms
 * of the rows before it.
 */
module AccessEffects {
  import opened Wrappers
  import opened Access

  // ----- addresses

  /** Folding puts the letters A to Z in lower case and keeps every other character. */
  lemma {:induction false} FoldIs(e: Email)
    ensures |Fold(e)| == |e|
    ensures forall i | 0 <= i < |e| ::
              Fold(e)[i] as int == if 65 <= e[i] as int <= 90 then e[i] as int + 32 else e[i] as int
  {
    if e != "" { FoldIs(e[1..]); }
  }

  predicate SameAddress(a: Email, b: Email) { Fold(a) == Fold(b) }

  predicate HasAccount(s: State, email: Email) {
    exists u | u in s.users :: SameAddress(s.users[u], email)
  }

  predicate Belongs(s: State, org: OrgId, email: Email) {
    exists k | k in s.members :: k.org == org && k.user in s.users && SameAddress(s.users[k.user], email)
  }

  // ----- delivering invitations

  predicate IsOpen(i: Invitation) { i.acceptedAt == None && i.revokedAt == None }

  predicate IsFor(i: Invitation, org: OrgId, email: Email) {
    i.org == org && SameAddress(i.email, email) && IsOpen(i)
  }

  predicate OffersMore(s: State, org: OrgId, email: Email) {
    exists t | t in s.invitations ::
      IsFor(s.invitations[t], org, email) && (s.invitations[t].role == Admin || s.invitations[t].role == Owner)
  }

  /** The open invitations of the address are revoked, and one that runs for seven days is added. */
  predicate IsDelivered(before: map<Token, Invitation>, after: map<Token, Invitation>,
                        org: OrgId, email: Email, role: Role, token: Token, now: Time)
  {
    && after.Keys == before.Keys + {token}
    && after[token] == Invitation(org, email, role, now + 7 * 24 * 60 * 60, None, None)
    && forall t | t in before && t != token ::
         after[t] == if IsFor(before[t], org, email) then before[t].(revokedAt := Some(now)) else before[t]
  }

  lemma DeliveryEffect(s: State, org: OrgId, email: Email, role: Role, actorRole: Role, token: Token, now: Time)
    ensures var r := Deliver(s, org, email, role, actorRole, token, now);
            if org !in s.orgs then r == Failure(NotFound)
            else if Belongs(s, org, email) then r == Failure(AlreadyMember)
            else if actorRole == Admin && OffersMore(s, org, email) then r == Failure(RolePermission)
            else
              && r.Success?
              && IsDelivered(s.invitations, r.value.invitations, org, email, role, token, now)
              && r.value == s.(invitations := r.value.invitations, usedTokens := s.usedTokens + {token})
  {
    assert Belongs(s, org, email) <==> IsMemberEmail(s, org, email);
    forall t | t in s.invitations
      ensures Supersedes(s.invitations[t], org, email) <==> IsFor(s.invitations[t], org, email)
    {
    }
  }

  // ----- permissions

  predicate MayManage(s: State, org: OrgId, user: UserId) {
    && Seat(org, user) in s.members
    && (s.members[Seat(org, user)] == Owner || s.members[Seat(org, user)] == Admin)
    && org !in s.provisioning
  }

  predicate MayDelete(s: State, org: OrgId, user: UserId) {
    Seat(org, user) in s.members && s.members[Seat(org, user)] == Owner && org !in s.provisioning
  }

  /** Owners and administrators manage members, only owners delete, and nobody while it is pending. */
  lemma CheckOutcome(s: State, task: TaskId, c: Check)
    ensures CheckCapability(s, task, c)
         == if (if c.capability == ManageMembers then MayManage(s, c.org, c.requester)
                else MayDelete(s, c.org, c.requester))
            then Success(s.(notes := s.notes.(checks := s.notes.checks[task := c])))
            else Failure(NotFound)
  {
  }

  lemma ReadingOutcome(s: State, task: TaskId)
    ensures var r := ReadRole(s, task);
            var known := task in s.notes.checks && s.notes.checks[task].capability == ManageMembers;
            if known && Seat(s.notes.checks[task].org, s.notes.checks[task].requester) in s.members then
              var c := s.notes.checks[task];
              var permit := Permit(c.org, c.requester, s.members[Seat(c.org, c.requester)]);
              r == Success(s.(notes := s.notes.(permits := s.notes.permits[task := permit])))
            else r == Failure(NotFound)
  {
  }

  // ----- requests about invitations

  lemma DraftOutcome(s: State, task: TaskId, email: Email, role: Role, mailReady: bool)
    requires task in s.notes.permits
    ensures var r := DraftInvitation(s, task, email, role, mailReady);
            var p := s.notes.permits[task];
            if role == Owner then r == Failure(BadRequest)
            else if p.role == Admin && role == Admin then r == Failure(Forbidden)
            else if Belongs(s, p.org, email) then r == Failure(AlreadyMember)
            else if !mailReady then r == Failure(NoEmailAccount)
            else r == Success(s.(notes := s.notes.(drafts := s.notes.drafts[task := Draft(p, email, role)])))
  {
    assert Belongs(s, s.notes.permits[task].org, email) <==> IsMemberEmail(s, s.notes.permits[task].org, email);
  }

  lemma ResendOutcome(s: State, task: TaskId, previous: Token, mailReady: bool)
    requires task in s.notes.permits
    ensures var r := DraftResend(s, task, previous, mailReady);
            var p := s.notes.permits[task];
            if previous !in s.invitations || s.invitations[previous].org != p.org then r == Failure(NotFound)
            else
              var i := s.invitations[previous];
              if p.role == Admin && (i.role == Admin || i.role == Owner) then r == Failure(Forbidden)
              else if i.acceptedAt != None || Belongs(s, p.org, i.email) then r == Failure(Conflict)
              else if !mailReady then r == Failure(NoEmailAccount)
              else r == Success(s.(notes := s.notes.(drafts := s.notes.drafts[task := Draft(p, i.email, i.role)])))
  {
    var p := s.notes.permits[task];
    if previous in s.invitations {
      var email := s.invitations[previous].email;
      assert Belongs(s, p.org, email) <==> IsMemberEmail(s, p.org, email);
    }
  }

  /** A draft is delivered as it was drafted, on the role that was read. */
  lemma DraftDelivery(s: State, task: TaskId, token: Token, now: Time)
    requires task in s.notes.drafts
    ensures var r := DeliverDraft(s, task, token, now);
            var d := s.notes.drafts[task];
            if d.permit.org !in s.orgs then r == Failure(NotFound)
            else if Belongs(s, d.permit.org, d.email) then r == Failure(AlreadyMember)
            else if d.permit.role == Admin && OffersMore(s, d.permit.org, d.email) then r == Failure(RolePermission)
            else
              && r.Success?
              && IsDelivered(s.invitations, r.value.invitations, d.permit.org, d.email, d.role, token, now)
              && r.value == s.(invitations := r.value.invitations, usedTokens := s.usedTokens + {token})
  {
    var d := s.notes.drafts[task];
    DeliveryEffect(s, d.permit.org, d.email, d.role, d.permit.role, token, now);
  }

  lemma RevocationOutcome(s: State, task: TaskId, token: Token, now: Time)
    requires task in s.notes.permits && s.notes.permits[task].org in s.orgs
    ensures var r := Revoke(s, task, token, now);
            var p := s.notes.permits[task];
            if token !in s.invitations || s.invitations[token].org != p.org then r == Failure(NotFound)
            else
              var i := s.invitations[token];
              if p.role == Admin && (i.role == Admin || i.role == Owner) then r == Failure(Forbidden)
              else if i.acceptedAt != None then r == Failure(Conflict)
              else if i.revokedAt != None then r == Success(s)
              else r == Success(s.(invitations := s.invitations[token := i.(revokedAt := Some(now))]))
  {
  }

  // ----- workspaces

  /** Everything but the workspaces, the memberships, the provisioning and the invitations. */
  predicate SameRest(s: State, s': State) {
    s'.users == s.users && s'.notes == s.notes && s'.accepted == s.accepted
  }

  /** The creator owns the new workspace; somebody else as its owner is awaited and invited. */
  lemma CreationEffect(s: State, org: OrgId, creator: UserId, ownerEmail: Email, mailReady: bool,
                       token: Token, now: Time)
    requires creator in s.users && forall k | k in s.members :: k.org != org
    ensures var r := CreateWorkspace(s, org, creator, ownerEmail, mailReady, token, now);
            var own := SameAddress(ownerEmail, s.users[creator]);
            if own || mailReady then
              && r.Success? && SameRest(s, r.value)
              && r.value.orgs == s.orgs + {org}
              && r.value.members == s.members[Seat(org, creator) := Owner]
              && (if own then
                    && r.value.provisioning == s.provisioning && r.value.invitations == s.invitations
                    && r.value.usedTokens == s.usedTokens
                  else
                    && r.value.provisioning == s.provisioning[org := Provisioning(creator, ownerEmail)]
                    && IsDelivered(s.invitations, r.value.invitations, org, ownerEmail, Owner, token, now)
                    && r.value.usedTokens == s.usedTokens + {token})
            else r == Failure(NoEmailAccount)
  {
    if !SameAddress(ownerEmail, s.users[creator]) {
      var s1 := s.(orgs := s.orgs + {org}, members := s.members[Seat(org, creator) := Owner],
                   provisioning := s.provisioning[org := Provisioning(creator, ownerEmail)]);
      DeliveryEffect(s1, org, ownerEmail, Owner, Owner, token, now);
      assert !Belongs(s1, org, ownerEmail);
    }
  }

  /** Only the creator of a pending workspace or an installation administrator may go on with it. */
  predicate MayProvision(s: State, org: OrgId, requester: UserId, superuser: bool) {
    org in s.provisioning && (superuser || s.provisioning[org].creator == requester)
  }

  /** The invitations without the owner invitations of the workspace that were not accepted. */
  predicate OwnerOffersGone(before: map<Token, Invitation>, after: map<Token, Invitation>, org: OrgId) {
    && (forall t | t in before ::
          t in after <==> before[t].org != org || before[t].role != Owner || before[t].acceptedAt != None)
    && forall t | t in after :: t in before && after[t] == before[t]
  }

  lemma OwnerResendEffect(s: State, org: OrgId, requester: UserId, superuser: bool, mailReady: bool,
                          token: Token, now: Time)
    ensures var r := ResendOwner(s, org, requester, superuser, mailReady, token, now);
            if !MayProvision(s, org, requester, superuser) then r == Failure(NotFound)
            else if !mailReady then r == Failure(NoEmailAccount)
            else if org !in s.orgs then r == Failure(NotFound)
            else if Belongs(s, org, s.provisioning[org].ownerEmail) then r == Failure(AlreadyMember)
            else
              && r.Success?
              && r.value == s.(invitations := r.value.invitations, usedTokens := s.usedTokens + {token})
              && exists kept :: OwnerOffersGone(s.invitations, kept, org)
                   && IsDelivered(kept, r.value.invitations, org, s.provisioning[org].ownerEmail, Owner, token, now)
  {
    var kept := WithoutOwnerInvitations(s.invitations, org);
    assert OwnerOffersGone(s.invitations, kept, org);
    if MayProvision(s, org, requester, superuser) {
      var s1 := s.(invitations := kept);
      DeliveryEffect(s1, org, s.provisioning[org].ownerEmail, Owner, Owner, token, now);
      assert Belongs(s1, org, s.provisioning[org].ownerEmail) <==> Belongs(s, org, s.provisioning[org].ownerEmail);
    }
  }

  /** The workspace is gone with all its rows; the rows of other workspaces are the same. */
  ghost predicate IsDropped(s: State, s': State, org: OrgId) {
    && SameRest(s, s') && s'.usedTokens == s.usedTokens
    && s'.orgs == s.orgs - {org} && s'.provisioning == s.provisioning - {org}
    && (forall k :: k in s'.members <==> k in s.members && k.org != org)
    && (forall k | k in s'.members :: s'.members[k] == s.members[k])
    && (forall t :: t in s'.invitations <==> t in s.invitations && s.invitations[t].org != org)
    && (forall t | t in s'.invitations :: s'.invitations[t] == s.invitations[t])
  }

  lemma CancellationEffect(s: State, org: OrgId, requester: UserId, superuser: bool)
    ensures var r := CancelWorkspace(s, org, requester, superuser);
            if MayProvision(s, org, requester, superuser) then r.Success? && IsDropped(s, r.value, org)
            else r == Failure(NotFound)
  {
  }

  lemma DeletionEffect(s: State, task: TaskId)
    ensures var r := DeleteWorkspace(s, task);
            if task in s.notes.checks && s.notes.checks[task].capability == DeleteOrganization
            then r.Success? && IsDropped(s, r.value, s.notes.checks[task].org)
            else r == Failure(NotFound)
  {
  }

  // ----- accepting

  /** Neither accepted nor revoked, and not expired. */
  predicate CanBeAccepted(i: Invitation, now: Time) { IsOpen(i) && now < i.expiresAt }

  lemma LookUpOutcome(s: State, task: TaskId, token: Token, now: Time)
    ensures var r := LookUp(s, task, token, now);
            if token in s.invitations && CanBeAccepted(s.invitations[token], now) then
              var found := Lookup(token, s.invitations[token].org);
              r == Success(s.(notes := s.notes.(lookups := s.notes.lookups[task := found])))
            else r == Failure(NotFound)
  {
  }

  /** What was looked up is still there and can be accepted. */
  predicate StillThere(s: State, l: Lookup, now: Time) {
    && l.org in s.orgs && l.token in s.invitations && s.invitations[l.token].org == l.org
    && CanBeAccepted(s.invitations[l.token], now)
  }

  predicate AwaitedOwner(s: State, i: Invitation) {
    i.org in s.provisioning && SameAddress(s.provisioning[i.org].ownerEmail, i.email)
  }

  /** Exactly when the locked part of an acceptance succeeds, and why it is refused otherwise. */
  lemma AcceptanceOutcome(s: State, task: TaskId, who: Acceptor, now: Time)
    requires task in s.notes.lookups
    ensures var r := Accept(s, task, who, now);
            var l := s.notes.lookups[task];
            if !StillThere(s, l, now) then r == Failure(NotFound)
            else
              var i := s.invitations[l.token];
              if i.role == Owner && !AwaitedOwner(s, i) then r == Failure(NotFound)
              else if i.role != Owner && i.org in s.provisioning then r == Failure(AwaitingOwner)
              else if who.SignedIn? && (who.user !in s.users || Fold(s.users[who.user]) != i.email) then
                r == Failure(WrongEmail)
              else if who.Registering? && HasAccount(s, i.email) then r == Failure(AccountExists)
              else r.Success?
  {
    var l := s.notes.lookups[task];
    if StillThere(s, l, now) {
      var i := s.invitations[l.token];
      assert HasAccount(s, i.email) <==> exists v | v in s.users :: Fold(s.users[v]) == Fold(i.email);
    }
  }

  /** The seats after an awaited owner has taken over from the creator. */
  ghost predicate OwnerSeated(before: map<Seat, Role>, after: map<Seat, Role>, org: OrgId, creator: UserId,
                              user: UserId)
  {
    forall k ::
      if k == Seat(org, user) then k in after && after[k] == Owner
      else if k == Seat(org, creator) && k in before && before[k] == Owner then k !in after
      else (k in after <==> k in before) && (k in after ==> after[k] == before[k])
  }

  /** The seats after a member has joined; an existing seat keeps its role. */
  predicate MemberSeated(before: map<Seat, Role>, after: map<Seat, Role>, seat: Seat, role: Role) {
    after == if seat in before then before else before[seat := role]
  }

  lemma AcceptanceEffect(s: State, task: TaskId, who: Acceptor, now: Time)
    requires Accept(s, task, who, now).Success?
    ensures task in s.notes.lookups && s.notes.lookups[task].token in s.invitations
    ensures var s' := Accept(s, task, who, now).value;
            var token := s.notes.lookups[task].token;
            var i := s.invitations[token];
            && s'.orgs == s.orgs && s'.usedTokens == s.usedTokens
            && s'.users == (if who.Registering? then s.users[who.user := i.email] else s.users)
            && (if i.org in s.provisioning
                then OwnerSeated(s.members, s'.members, i.org, s.provisioning[i.org].creator, who.user)
                else MemberSeated(s.members, s'.members, Seat(i.org, who.user), i.role))
            && s'.provisioning == s.provisioning - {i.org}
            && s'.invitations == s.invitations[token := i.(acceptedAt := Some(now))]
            && s'.notes == s.notes.(lookups := s.notes.lookups - {task})
            && s'.accepted == s.accepted + [token]
  {
  }

  // ----- members

  /** Exactly when a role change is accepted, and why it is refused otherwise. */
  lemma RoleChangeOutcome(s: State, task: TaskId, target: UserId, role: Role)
    requires task in s.notes.permits
    ensures var r := ChangeRole(s, task, target, role);
            var p := s.notes.permits[task];
            if Seat(p.org, target) !in s.members then r == Failure(NotFound)
            else
              var had := s.members[Seat(p.org, target)];
              if role == Owner && p.role != Owner then r == Failure(Forbidden)
              else if role != Owner && had == Owner then r == Failure(BadRequest)
              else if p.role != Owner && (had == Admin || role == Admin) then r == Failure(Forbidden)
              else r.Success?
  {
  }

  /**
   * Removing a member: the owner cannot be removed, and an administrator only by the owner.
   * Otherwise the seat of the target is gone, and everything else stays as it is.
   */
  lemma RemovalEffect(s: State, task: TaskId, target: UserId)
    requires task in s.notes.permits
    ensures var r := RemoveMember(s, task, target);
            var p := s.notes.permits[task];
            var seat := Seat(p.org, target);
            if seat !in s.members then r == Failure(NotFound)
            else if s.members[seat] == Owner then r == Failure(BadRequest)
            else if s.members[seat] == Admin && p.role != Owner then r == Failure(Forbidden)
            else
              && r.Success? && r.value == s.(members := r.value.members)
              && (forall k :: k in r.value.members <==> k in s.members && k != seat)
              && (forall k | k in r.value.members :: r.value.members[k] == s.members[k])
  {
  }

  // ----- accounts

  predicate OwnsOne(s: State, u: UserId) {
    exists k | k in s.members :: k.user == u && s.members[k] == Owner
  }

  lemma DeletionCheckOutcome(s: State, task: TaskId, u: UserId)
    ensures var r := CheckDeletion(s, task, u);
            if u !in s.users then r == Failure(NotFound)
            else if OwnsOne(s, u) then r == Failure(Conflict)
            else r == Success(s.(notes := s.notes.(deletions := s.notes.deletions[task := u])))
  {
    assert OwnsOne(s, u) <==> OwnsSomething(s, u);
  }

  /** The account and its seats are gone unless it created a pending workspace; the rest stays. */
  lemma AccountDeletionEffect(s: State, task: TaskId)
    requires task in s.notes.deletions
    ensures var r := DeleteAccount(s, task);
            var u := s.notes.deletions[task];
            if exists org | org in s.provisioning :: s.provisioning[org].creator == u then r == Failure(Conflict)
            else
              && r.Success?
              && r.value == s.(users := s.users - {u}, members := r.value.members,
                               notes := s.notes.(deletions := s.notes.deletions - {task}))
              && (forall k :: k in r.value.members <==> k in s.members && k.user != u)
              && (forall k | k in r.value.members :: r.value.members[k] == s.members[k])
  {
  }
}
