/** Workspace memberships, pending provisioning and invitations, and the operations on them. */
module Access {
  import opened Wrappers

  type UserId = nat
  type OrgId = nat
  type TaskId = nat
  type Time = int
  type Email = string

  /** The digest under which an invitation is stored; it identifies the invitation. */
  type Token = string

  datatype Role = Owner | Admin | Member | Viewer

  /** A membership row is identified by its workspace and its user. */
  datatype Seat = Seat(org: OrgId, user: UserId)

  datatype Provisioning = Provisioning(creator: UserId, ownerEmail: Email)

  datatype Invitation = Invitation(
    org: OrgId,
    email: Email,
    role: Role,
    expiresAt: Time,
    acceptedAt: Option<Time>,
    revokedAt: Option<Time>)

  /** What an acceptance read before it took the lock. */
  datatype Lookup = Lookup(token: Token, org: OrgId)

  datatype Capability = ManageMembers | DeleteOrganization

  /** A request that has passed its permission check, and has not read the requester's role yet. */
  datatype Check = Check(org: OrgId, requester: UserId, capability: Capability)

  /** A request that has read the role as well; neither reading takes a lock. */
  datatype Permit = Permit(org: OrgId, requester: UserId, role: Role)

  /** An invitation that passed the checks of its request and is about to be delivered. */
  datatype Draft = Draft(permit: Permit, email: Email, role: Role)

  /** What the requests under way have read without a lock. */
  datatype Notes = Notes(
    lookups: map<TaskId, Lookup>,
    checks: map<TaskId, Check>,
    permits: map<TaskId, Permit>,
    drafts: map<TaskId, Draft>,
    deletions: map<TaskId, UserId>)

  datatype State = State(
    orgs: set<OrgId>,
    users: map<UserId, Email>,
    members: map<Seat, Role>,
    provisioning: map<OrgId, Provisioning>,
    invitations: map<Token, Invitation>,
    notes: Notes,
    usedTokens: set<Token>,
    accepted: seq<Token>)

  datatype Error =
    | NotFound
    | Forbidden
    | BadRequest
    | Conflict
    | NoEmailAccount
    | AlreadyMember
    | RolePermission
    | WrongEmail
    | AccountExists
    | AwaitingOwner

  const INVITATION_LIFETIME: int := 7 * 24 * 3600

  // ----- comparisons

  function FoldChar(c: char): char {
    if 'A' <= c <= 'Z' then (c as int - 'A' as int + 'a' as int) as char else c
  }

  /** Lower case; case-insensitive comparisons compare folded addresses. */
  function Fold(e: Email): Email {
    if e == "" then "" else [FoldChar(e[0])] + Fold(e[1..])
  }

  predicate Live(i: Invitation) { i.acceptedAt.None? && i.revokedAt.None? }

  predicate Pending(i: Invitation, now: Time) { Live(i) && i.expiresAt > now }

  predicate Privileged(r: Role) { r.Admin? || r.Owner? }

  predicate IsMemberEmail(s: State, org: OrgId, email: Email) {
    exists k | k in s.members :: k.org == org && k.user in s.users && Fold(s.users[k.user]) == Fold(email)
  }

  predicate Allows(role: Role, capability: Capability) {
    match capability
    case ManageMembers => Privileged(role)
    case DeleteOrganization => role.Owner?
  }

  /** The role allows the request, and the workspace is not awaiting its owner. */
  predicate HasCapability(s: State, c: Check) {
    && Seat(c.org, c.requester) in s.members && Allows(s.members[Seat(c.org, c.requester)], c.capability)
    && c.org !in s.provisioning
  }

  predicate RoleManageable(requester: Role, role: Role) {
    !(requester.Admin? && Privileged(role))
  }

  // ----- issuing invitations

  predicate Supersedes(i: Invitation, org: OrgId, email: Email) {
    i.org == org && Fold(i.email) == Fold(email) && Live(i)
  }

  function RevokeActive(invitations: map<Token, Invitation>, org: OrgId, email: Email, now: Time)
    : map<Token, Invitation>
  {
    map t | t in invitations ::
      if Supersedes(invitations[t], org, email) then invitations[t].(revokedAt := Some(now)) else invitations[t]
  }

  /** Replaces the live invitations of an address by a fresh one, under the lock of the workspace. */
  function Deliver(s: State, org: OrgId, email: Email, role: Role, actorRole: Role, token: Token, now: Time)
    : Result<State, Error>
  {
    if org !in s.orgs then Failure(NotFound)
    else if IsMemberEmail(s, org, email) then Failure(AlreadyMember)
    else if actorRole.Admin?
            && exists t | t in s.invitations ::
                 Supersedes(s.invitations[t], org, email) && Privileged(s.invitations[t].role) then
      Failure(RolePermission)
    else
      var issued := Invitation(org, email, role, now + INVITATION_LIFETIME, None, None);
      Success(s.(invitations := RevokeActive(s.invitations, org, email, now)[token := issued],
                 usedTokens := s.usedTokens + {token}))
  }

  /** The permission check that every managing request starts with. */
  function CheckCapability(s: State, task: TaskId, c: Check): Result<State, Error> {
    if !HasCapability(s, c) then Failure(NotFound)
    else Success(s.(notes := s.notes.(checks := s.notes.checks[task := c])))
  }

  /** The second reading: the membership of the requester as it is by now. */
  function ReadRole(s: State, task: TaskId): Result<State, Error> {
    if task !in s.notes.checks || !s.notes.checks[task].capability.ManageMembers? then Failure(NotFound)
    else
      var seat := Seat(s.notes.checks[task].org, s.notes.checks[task].requester);
      if seat !in s.members then Failure(NotFound)
      else
        var permit := Permit(seat.org, seat.user, s.members[seat]);
        Success(s.(notes := s.notes.(permits := s.notes.permits[task := permit])))
  }

  /** The checks of an invitation request, before anything is locked. */
  function DraftInvitation(s: State, task: TaskId, email: Email, role: Role, mailReady: bool): Result<State, Error> {
    if task !in s.notes.permits then Failure(NotFound)
    else
      var permit := s.notes.permits[task];
      if role.Owner? then Failure(BadRequest)
      else if !RoleManageable(permit.role, role) then Failure(Forbidden)
      else if IsMemberEmail(s, permit.org, email) then Failure(AlreadyMember)
      else if !mailReady then Failure(NoEmailAccount)
      else Success(s.(notes := s.notes.(drafts := s.notes.drafts[task := Draft(permit, email, role)])))
  }

  /** The same for sending an earlier invitation again. */
  function DraftResend(s: State, task: TaskId, previous: Token, mailReady: bool): Result<State, Error> {
    if task !in s.notes.permits then Failure(NotFound)
    else
      var permit := s.notes.permits[task];
      if previous !in s.invitations || s.invitations[previous].org != permit.org then Failure(NotFound)
      else
        var i := s.invitations[previous];
        if !RoleManageable(permit.role, i.role) then Failure(Forbidden)
        else if i.acceptedAt.Some? || IsMemberEmail(s, permit.org, i.email) then Failure(Conflict)
        else if !mailReady then Failure(NoEmailAccount)
        else Success(s.(notes := s.notes.(drafts := s.notes.drafts[task := Draft(permit, i.email, i.role)])))
  }

  function DeliverDraft(s: State, task: TaskId, token: Token, now: Time): Result<State, Error> {
    if task !in s.notes.drafts then Failure(NotFound)
    else
      var d := s.notes.drafts[task];
      Deliver(s, d.permit.org, d.email, d.role, d.permit.role, token, now)
  }

  function Revoke(s: State, task: TaskId, token: Token, now: Time): Result<State, Error> {
    if task !in s.notes.permits then Failure(NotFound)
    else
      var permit := s.notes.permits[task];
      if permit.org !in s.orgs || token !in s.invitations || s.invitations[token].org != permit.org then
        Failure(NotFound)
      else
        var i := s.invitations[token];
        if !RoleManageable(permit.role, i.role) then Failure(Forbidden)
        else if i.acceptedAt.Some? then Failure(Conflict)
        else if i.revokedAt.Some? then Success(s)
        else Success(s.(invitations := s.invitations[token := i.(revokedAt := Some(now))]))
  }

  // ----- workspaces

  function CreateWorkspace(s: State, org: OrgId, creator: UserId, ownerEmail: Email, mailReady: bool,
                           token: Token, now: Time)
    : Result<State, Error>
    requires creator in s.users
  {
    var s1 := s.(orgs := s.orgs + {org}, members := s.members[Seat(org, creator) := Owner]);
    if Fold(ownerEmail) == Fold(s.users[creator]) then Success(s1)
    else if !mailReady then Failure(NoEmailAccount)
    else
      Deliver(s1.(provisioning := s1.provisioning[org := Provisioning(creator, ownerEmail)]),
              org, ownerEmail, Owner, Owner, token, now)
  }

  function WithoutOwnerInvitations(invitations: map<Token, Invitation>, org: OrgId): map<Token, Invitation> {
    map t | t in invitations
            && !(invitations[t].org == org && invitations[t].role.Owner? && invitations[t].acceptedAt.None?)
         :: invitations[t]
  }

  /** Only while the workspace is pending, by its creator or an installation administrator. */
  function ResendOwner(s: State, org: OrgId, requester: UserId, superuser: bool, mailReady: bool,
                       token: Token, now: Time)
    : Result<State, Error>
  {
    if org !in s.provisioning || !(s.provisioning[org].creator == requester || superuser) then Failure(NotFound)
    else if !mailReady then Failure(NoEmailAccount)
    else
      Deliver(s.(invitations := WithoutOwnerInvitations(s.invitations, org)),
              org, s.provisioning[org].ownerEmail, Owner, Owner, token, now)
  }

  /** Deleting a workspace takes its memberships, provisioning and invitations with it. */
  function DropOrganization(s: State, org: OrgId): State {
    s.(orgs := s.orgs - {org},
       members := map k | k in s.members && k.org != org :: s.members[k],
       provisioning := s.provisioning - {org},
       invitations := map t | t in s.invitations && s.invitations[t].org != org :: s.invitations[t])
  }

  function CancelWorkspace(s: State, org: OrgId, requester: UserId, superuser: bool): Result<State, Error> {
    if org !in s.provisioning || !(s.provisioning[org].creator == requester || superuser) then Failure(NotFound)
    else Success(DropOrganization(s, org))
  }

  function DeleteWorkspace(s: State, task: TaskId): Result<State, Error> {
    if task !in s.notes.checks || !s.notes.checks[task].capability.DeleteOrganization? then Failure(NotFound)
    else Success(DropOrganization(s, s.notes.checks[task].org))
  }

  // ----- accepting

  /** The unlocked read at the start of an acceptance. */
  function LookUp(s: State, task: TaskId, token: Token, now: Time): Result<State, Error> {
    if token !in s.invitations || !Pending(s.invitations[token], now) then Failure(NotFound)
    else Success(s.(notes := s.notes.(lookups := s.notes.lookups[task := Lookup(token, s.invitations[token].org)])))
  }

  datatype Acceptor = SignedIn(user: UserId) | Registering(user: UserId)

  /** The accepting user and the user table afterwards. */
  function InvitedUser(s: State, i: Invitation, who: Acceptor): Result<map<UserId, Email>, Error> {
    match who
    case SignedIn(u) =>
      if u !in s.users || Fold(s.users[u]) != i.email then Failure(WrongEmail) else Success(s.users)
    case Registering(u) =>
      if exists v | v in s.users :: Fold(s.users[v]) == Fold(i.email) then Failure(AccountExists)
      else Success(s.users[u := i.email])
  }

  /** Owner invitations need a pending workspace with that owner, all others a workspace with one. */
  function ProvisioningError(s: State, i: Invitation): Option<Error> {
    if i.role.Owner? then
      if i.org !in s.provisioning || Fold(s.provisioning[i.org].ownerEmail) != Fold(i.email)
      then Some(NotFound) else None
    else if i.org in s.provisioning then Some(AwaitingOwner)
    else None
  }

  function SeatOwner(members: map<Seat, Role>, org: OrgId, creator: UserId, user: UserId): map<Seat, Role> {
    var seat := Seat(org, creator);
    (if seat in members && members[seat].Owner? then members - {seat} else members)[Seat(org, user) := Owner]
  }

  /** The checks under the lock of the workspace that was looked up. */
  function Recheck(s: State, task: TaskId, now: Time): Result<Invitation, Error> {
    if task !in s.notes.lookups then Failure(NotFound)
    else
      var token, org := s.notes.lookups[task].token, s.notes.lookups[task].org;
      if org !in s.orgs then Failure(NotFound)
      else if token !in s.invitations || s.invitations[token].org != org || !Pending(s.invitations[token], now) then
        Failure(NotFound)
      else
        var i := s.invitations[token];
        if ProvisioningError(s, i).Some? then Failure(ProvisioningError(s, i).value) else Success(i)
  }

  /** The user takes the offered seat, and the invitation is used up. */
  function Enter(s: State, task: TaskId, i: Invitation, user: UserId, now: Time): State
    requires task in s.notes.lookups
  {
    var token, seat := s.notes.lookups[task].token, Seat(i.org, user);
    s.(members := if i.org in s.provisioning
                  then SeatOwner(s.members, i.org, s.provisioning[i.org].creator, user)
                  else if seat in s.members then s.members
                  else s.members[seat := i.role],
       provisioning := s.provisioning - {i.org},
       invitations := s.invitations[token := i.(acceptedAt := Some(now))],
       notes := s.notes.(lookups := s.notes.lookups - {task}),
       accepted := s.accepted + [token])
  }

  /** The rest of the acceptance, under that lock. */
  function Accept(s: State, task: TaskId, who: Acceptor, now: Time): Result<State, Error> {
    match Recheck(s, task, now)
    case Failure(e) => Failure(e)
    case Success(i) =>
      match InvitedUser(s, i, who)
      case Failure(e) => Failure(e)
      case Success(users) => Success(Enter(s.(users := users), task, i, who.user, now))
  }

  // ----- roles

  function DemoteOwners(members: map<Seat, Role>, org: OrgId): map<Seat, Role> {
    map k | k in members :: if k.org == org && members[k].Owner? then Admin else members[k]
  }

  /** The target is read under its lock, the requester's role was read before. */
  function ChangeRole(s: State, task: TaskId, target: UserId, role: Role): Result<State, Error> {
    if task !in s.notes.permits || Seat(s.notes.permits[task].org, target) !in s.members then Failure(NotFound)
    else
      var org, isOwner := s.notes.permits[task].org, s.notes.permits[task].role.Owner?;
      var seat := Seat(org, target);
      if role.Owner? then
        if !isOwner then Failure(Forbidden)
        else if s.members[seat].Owner? then Success(s)
        else Success(s.(members := DemoteOwners(s.members, org)[seat := Owner]))
      else if s.members[seat].Owner? then Failure(BadRequest)
      else if !isOwner && (s.members[seat].Admin? || role.Admin?) then Failure(Forbidden)
      else Success(s.(members := s.members[seat := role]))
  }

  function RemoveMember(s: State, task: TaskId, target: UserId): Result<State, Error> {
    if task !in s.notes.permits || Seat(s.notes.permits[task].org, target) !in s.members then Failure(NotFound)
    else
      var seat := Seat(s.notes.permits[task].org, target);
      if s.members[seat].Owner? then Failure(BadRequest)
      else if !s.notes.permits[task].role.Owner? && s.members[seat].Admin? then Failure(Forbidden)
      else Success(s.(members := s.members - {seat}))
  }

  // ----- accounts

  predicate OwnsSomething(s: State, u: UserId) {
    exists k | k in s.members :: k.user == u && s.members[k].Owner?
  }

  /** Deleting a user takes the user's memberships along. */
  function DropUser(s: State, u: UserId): State {
    s.(users := s.users - {u}, members := map k | k in s.members && k.user != u :: s.members[k])
  }

  /** The unlocked check of an account deletion. */
  function CheckDeletion(s: State, task: TaskId, u: UserId): Result<State, Error> {
    if u !in s.users then Failure(NotFound)
    else if OwnsSomething(s, u) then Failure(Conflict)
    else Success(s.(notes := s.notes.(deletions := s.notes.deletions[task := u])))
  }

  /** The deletion after the check; the creator of a pending workspace is protected. */
  function DeleteAccount(s: State, task: TaskId): Result<State, Error> {
    if task !in s.notes.deletions then Failure(NotFound)
    else
      var u := s.notes.deletions[task];
      if exists org | org in s.provisioning :: s.provisioning[org].creator == u then Failure(Conflict)
      else Success(DropUser(s.(notes := s.notes.(deletions := s.notes.deletions - {task})), u))
  }

  // ----- runs

  datatype Step =
    | DoPutUser(user: UserId, email: Email)
    | DoCreate(org: OrgId, creator: UserId, ownerEmail: Email, mailReady: bool, token: Token, now: Time)
    | DoResendOwner(org: OrgId, requester: UserId, superuser: bool, mailReady: bool, token: Token, now: Time)
    | DoCancelWorkspace(org: OrgId, requester: UserId, superuser: bool)
    | DoCheck(task: TaskId, check: Check)
    | DoReadRole(task: TaskId)
    | DoDeleteWorkspace(task: TaskId)
    | DoDraftInvitation(task: TaskId, email: Email, role: Role, mailReady: bool)
    | DoDraftResend(task: TaskId, previous: Token, mailReady: bool)
    | DoDeliver(task: TaskId, token: Token, now: Time)
    | DoRevoke(task: TaskId, token: Token, now: Time)
    | DoLookUp(task: TaskId, token: Token, now: Time)
    | DoAccept(task: TaskId, who: Acceptor, now: Time)
    | DoChangeRole(task: TaskId, target: UserId, role: Role)
    | DoRemoveMember(task: TaskId, target: UserId)
    | DoCheckDeletion(task: TaskId, user: UserId)
    | DoDeleteAccount(task: TaskId)

  /** New rows get new identifiers, and random tokens never repeat. */
  predicate FreshIds(s: State, step: Step) {
    match step
    case DoCreate(org, creator, ownerEmail, mailReady, token, now) =>
      org !in s.orgs && creator in s.users && token !in s.usedTokens
    case DoResendOwner(org, requester, superuser, mailReady, token, now) => token !in s.usedTokens
    case DoDeliver(task, token, now) => token !in s.usedTokens
    case DoAccept(task, who, now) => who.Registering? ==> who.user !in s.users
    case _ => true
  }

  function Apply(s: State, step: Step): Result<State, Error>
    requires FreshIds(s, step)
  {
    match step
    case DoPutUser(user, email) => Success(s.(users := s.users[user := email]))
    case DoCreate(org, creator, ownerEmail, mailReady, token, now) =>
      CreateWorkspace(s, org, creator, ownerEmail, mailReady, token, now)
    case DoResendOwner(org, requester, superuser, mailReady, token, now) =>
      ResendOwner(s, org, requester, superuser, mailReady, token, now)
    case DoCancelWorkspace(org, requester, superuser) => CancelWorkspace(s, org, requester, superuser)
    case DoCheck(task, check) => CheckCapability(s, task, check)
    case DoReadRole(task) => ReadRole(s, task)
    case DoDeleteWorkspace(task) => DeleteWorkspace(s, task)
    case DoDraftInvitation(task, email, role, mailReady) => DraftInvitation(s, task, email, role, mailReady)
    case DoDraftResend(task, previous, mailReady) => DraftResend(s, task, previous, mailReady)
    case DoDeliver(task, token, now) => DeliverDraft(s, task, token, now)
    case DoRevoke(task, token, now) => Revoke(s, task, token, now)
    case DoLookUp(task, token, now) => LookUp(s, task, token, now)
    case DoAccept(task, who, now) => Accept(s, task, who, now)
    case DoChangeRole(task, target, role) => ChangeRole(s, task, target, role)
    case DoRemoveMember(task, target) => RemoveMember(s, task, target)
    case DoCheckDeletion(task, user) => CheckDeletion(s, task, user)
    case DoDeleteAccount(task) => DeleteAccount(s, task)
  }

  /** A refused operation rolls back; a step with stale identifiers does not happen. */
  function Next(s: State, step: Step): State {
    if FreshIds(s, step) && Apply(s, step).Success? then Apply(s, step).value else s
  }

  function Run(s: State, steps: seq<Step>): State
    decreases |steps|
  {
    if steps == [] then s else Run(Next(s, steps[0]), steps[1..])
  }

  const EMPTY: State :=
    State({}, map[], map[], map[], map[], Notes(map[], map[], map[], map[], map[]), {}, [])

  ghost predicate Reachable(s: State) {
    exists steps :: s == Run(EMPTY, steps)
  }
}
