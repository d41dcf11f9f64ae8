/** What requests can do to administrators and owners, when the requester is read without a lock. */
module Authority {
  import opened Wrappers
  import opened Access
  import Invitations
  import opened Ownership

  // ----- where permissions come from

  /** The role of the permission is the requester's role in this state. */
  predicate ReadIn(s: State, p: Permit) {
    Seat(p.org, p.requester) in s.members && s.members[Seat(p.org, p.requester)] == p.role
  }

  /** Some state of the run before the last one allows what the check was about. */
  ghost predicate WasCapable(s: State, steps: seq<Step>, c: Check)
    decreases |steps|
  {
    steps != [] && (HasCapability(s, c) || WasCapable(Next(s, steps[0]), steps[1..], c))
  }

  ghost predicate WasRead(s: State, steps: seq<Step>, p: Permit)
    decreases |steps|
  {
    steps != [] && (ReadIn(s, p) || WasRead(Next(s, steps[0]), steps[1..], p))
  }

  /** In one state the requester could manage the workspace, and in that or a later one had the role. */
  ghost predicate CapableThenRead(s: State, steps: seq<Step>, p: Permit)
    decreases |steps|
  {
    steps != []
    && ((HasCapability(s, CheckOf(p)) && WasRead(s, steps, p)) || CapableThenRead(Next(s, steps[0]), steps[1..], p))
  }

  function CheckOf(p: Permit): Check { Check(p.org, p.requester, ManageMembers) }

  lemma {:induction false} CapableOneMore(s: State, steps: seq<Step>, a: Step, c: Check)
    requires WasCapable(s, steps, c) || HasCapability(Run(s, steps), c)
    ensures WasCapable(s, steps + [a], c)
    decreases |steps|
  {
    if steps == [] {
    } else {
      assert (steps + [a])[1..] == steps[1..] + [a];
      if !HasCapability(s, c) { CapableOneMore(Next(s, steps[0]), steps[1..], a, c); }
    }
  }

  lemma {:induction false} ReadOneMore(s: State, steps: seq<Step>, a: Step, p: Permit)
    requires WasRead(s, steps, p) || ReadIn(Run(s, steps), p)
    ensures WasRead(s, steps + [a], p)
    decreases |steps|
  {
    if steps == [] {
    } else {
      assert (steps + [a])[1..] == steps[1..] + [a];
      if !ReadIn(s, p) { ReadOneMore(Next(s, steps[0]), steps[1..], a, p); }
    }
  }

  lemma {:induction false} CapableThenReadNow(s: State, steps: seq<Step>, a: Step, p: Permit)
    requires CapableThenRead(s, steps, p) || (WasCapable(s, steps, CheckOf(p)) && ReadIn(Run(s, steps), p))
    ensures CapableThenRead(s, steps + [a], p)
    decreases |steps|
  {
    assert (steps + [a])[1..] == steps[1..] + [a];
    if HasCapability(s, CheckOf(p)) && (WasRead(s, steps, p) || ReadIn(Run(s, steps), p)) {
      ReadOneMore(s, steps, a, p);
    } else {
      CapableThenReadNow(Next(s, steps[0]), steps[1..], a, p);
    }
  }

  /** Everything that requests have noted about their requesters was so at some time. */
  ghost predicate NotesAreReal(steps: seq<Step>) {
    var notes := Run(EMPTY, steps).notes;
    && (forall task | task in notes.checks :: WasCapable(EMPTY, steps, notes.checks[task]))
    && (forall task | task in notes.permits :: CapableThenRead(EMPTY, steps, notes.permits[task]))
    && (forall task | task in notes.drafts :: CapableThenRead(EMPTY, steps, notes.drafts[task].permit))
  }

  /** What one step adds to the notes. */
  lemma NotesOfStep(s: State, step: Step, task: TaskId)
    ensures var s' := Next(s, step);
            && (task in s'.notes.checks ==>
                  (task in s.notes.checks && s'.notes.checks[task] == s.notes.checks[task])
                  || HasCapability(s, s'.notes.checks[task]))
            && (task in s'.notes.permits ==>
                  (task in s.notes.permits && s'.notes.permits[task] == s.notes.permits[task])
                  || (task in s.notes.checks && s.notes.checks[task] == CheckOf(s'.notes.permits[task])
                      && ReadIn(s, s'.notes.permits[task])))
            && (task in s'.notes.drafts ==>
                  (task in s.notes.drafts && s'.notes.drafts[task] == s.notes.drafts[task])
                  || (task in s.notes.permits && s'.notes.drafts[task].permit == s.notes.permits[task]))
  {
    if KeepsNotes(step) {
      KeepingNotes(s, step);
    }
  }

  /** Steps that note nothing about a requester. */
  predicate KeepsNotes(step: Step) {
    !(step.DoCheck? || step.DoReadRole? || step.DoDraftInvitation? || step.DoDraftResend?)
  }

  lemma KeepingNotes(s: State, step: Step)
    requires KeepsNotes(step)
    ensures var s' := Next(s, step);
            s'.notes.checks == s.notes.checks && s'.notes.permits == s.notes.permits
            && s'.notes.drafts == s.notes.drafts
  {
    if ChangesMembers(step) {
      MembersKeepNotes(s, step);
    } else if step.DoDeliver? || step.DoRevoke? || step.DoResendOwner? || step.DoCreate? {
      InvitingKeepsNotes(s, step);
    }
  }

  predicate ChangesMembers(step: Step) { Invitations.ChangesMembers(step) }

  lemma MembersKeepNotes(s: State, step: Step)
    requires ChangesMembers(step)
    ensures var s' := Next(s, step);
            s'.notes.checks == s.notes.checks && s'.notes.permits == s.notes.permits
            && s'.notes.drafts == s.notes.drafts
  {
  }

  lemma InvitingKeepsNotes(s: State, step: Step)
    requires step.DoDeliver? || step.DoRevoke? || step.DoResendOwner? || step.DoCreate?
    ensures Next(s, step).notes == s.notes
  {
  }

  lemma {:induction false} RunSnoc(s: State, steps: seq<Step>, a: Step)
    ensures Run(s, steps + [a]) == Next(Run(s, steps), a)
    decreases |steps|
  {
    if steps == [] {
      assert [] + [a] == [a];
      assert Run(Next(s, a), [a][1..]) == Next(s, a);
    } else {
      assert (steps + [a])[1..] == steps[1..] + [a];
      RunSnoc(Next(s, steps[0]), steps[1..], a);
    }
  }

  lemma NotesStayReal(steps: seq<Step>, a: Step)
    requires NotesAreReal(steps)
    ensures NotesAreReal(steps + [a])
  {
    var s := Run(EMPTY, steps);
    RunSnoc(EMPTY, steps, a);
    var s' := Next(s, a);
    forall task
      ensures task in s'.notes.checks ==> WasCapable(EMPTY, steps + [a], s'.notes.checks[task])
      ensures task in s'.notes.permits ==> CapableThenRead(EMPTY, steps + [a], s'.notes.permits[task])
      ensures task in s'.notes.drafts ==> CapableThenRead(EMPTY, steps + [a], s'.notes.drafts[task].permit)
    {
      NotesOfStep(s, a, task);
      if task in s'.notes.checks { CapableOneMore(EMPTY, steps, a, s'.notes.checks[task]); }
      if task in s'.notes.permits { CapableThenReadNow(EMPTY, steps, a, s'.notes.permits[task]); }
      if task in s'.notes.drafts { CapableThenReadNow(EMPTY, steps, a, s'.notes.drafts[task].permit); }
    }
  }

  /**
   * In every run: whatever permission a request holds, in one state its requester could manage
   * the workspace, and in that or a later state had the role that was read.
   */
  lemma {:induction false} PermissionsWereReal(steps: seq<Step>)
    ensures NotesAreReal(steps)
    decreases |steps|
  {
    if steps == [] {
    } else {
      var n := |steps| - 1;
      PermissionsWereReal(steps[..n]);
      NotesStayReal(steps[..n], steps[n]);
      assert steps[..n] + [steps[n]] == steps;
    }
  }

  // ----- role changes and removals

  /** A role change or removal by somebody who was not the owner when the role was read. */
  predicate ByNonOwner(s: State, step: Step) {
    match step
    case DoChangeRole(task, target, role) => task in s.notes.permits && !s.notes.permits[task].role.Owner?
    case DoRemoveMember(task, target) => task in s.notes.permits && !s.notes.permits[task].role.Owner?
    case _ => false
  }

  /** Privileged seats and their roles are the same in both tables. */
  predicate SamePrivileged(members: map<Seat, Role>, members': map<Seat, Role>, seat: Seat) {
    && (seat in members' && Privileged(members'[seat]) <==> seat in members && Privileged(members[seat]))
    && (seat in members && Privileged(members[seat]) ==> seat in members' && members'[seat] == members[seat])
  }

  lemma RoleChangeIsLimited(s: State, task: TaskId, target: UserId, role: Role, seat: Seat)
    requires task in s.notes.permits && !s.notes.permits[task].role.Owner?
    requires ChangeRole(s, task, target, role).Success?
    ensures SamePrivileged(s.members, ChangeRole(s, task, target, role).value.members, seat)
  {
  }

  lemma RemovalIsLimited(s: State, task: TaskId, target: UserId, seat: Seat)
    requires task in s.notes.permits && !s.notes.permits[task].role.Owner?
    requires RemoveMember(s, task, target).Success?
    ensures SamePrivileged(s.members, RemoveMember(s, task, target).value.members, seat)
  {
  }

  /**
   * Administrators manage only members and viewers: no such role change or removal makes, changes
   * or removes an administrator or owner, whatever has happened since the role was read.
   */
  lemma AdministratorsAreLimited(s: State, step: Step, seat: Seat)
    requires ByNonOwner(s, step)
    ensures SamePrivileged(s.members, Next(s, step).members, seat)
  {
    if Apply(s, step).Success? {
      match step
      case DoChangeRole(task, target, role) => RoleChangeIsLimited(s, task, target, role, seat);
      case DoRemoveMember(task, target) => RemovalIsLimited(s, task, target, seat);
    }
  }

  /** The user never owned the workspace in the states before the last one. */
  ghost predicate NeverOwned(s: State, steps: seq<Step>, org: OrgId, u: UserId)
    decreases |steps|
  {
    steps != [] ==> !OwnsSeat(s.members, org, u) && NeverOwned(Next(s, steps[0]), steps[1..], org, u)
  }

  lemma {:induction false} NeverReadAsOwner(s: State, steps: seq<Step>, p: Permit)
    requires WasRead(s, steps, p) && NeverOwned(s, steps, p.org, p.requester)
    ensures !p.role.Owner?
    decreases |steps|
  {
    if !ReadIn(s, p) { NeverReadAsOwner(Next(s, steps[0]), steps[1..], p); }
  }

  lemma {:induction false} CapableThenReadIsRead(s: State, steps: seq<Step>, p: Permit)
    requires CapableThenRead(s, steps, p)
    ensures WasRead(s, steps, p)
    decreases |steps|
  {
    if !WasRead(s, steps, p) { CapableThenReadIsRead(Next(s, steps[0]), steps[1..], p); }
  }

  /** So over whole runs: somebody who never owned the workspace changes no privileged seat that way. */
  lemma NonOwnersAreLimited(steps: seq<Step>, task: TaskId, target: UserId, role: Role, seat: Seat)
    ensures var s := Run(EMPTY, steps);
            task in s.notes.permits
            && NeverOwned(EMPTY, steps, s.notes.permits[task].org, s.notes.permits[task].requester) ==>
              && SamePrivileged(s.members, Next(s, DoChangeRole(task, target, role)).members, seat)
              && SamePrivileged(s.members, Next(s, DoRemoveMember(task, target)).members, seat)
  {
    var s := Run(EMPTY, steps);
    PermissionsWereReal(steps);
    if task in s.notes.permits
       && NeverOwned(EMPTY, steps, s.notes.permits[task].org, s.notes.permits[task].requester) {
      CapableThenReadIsRead(EMPTY, steps, s.notes.permits[task]);
      NeverReadAsOwner(EMPTY, steps, s.notes.permits[task]);
      AdministratorsAreLimited(s, DoChangeRole(task, target, role), seat);
      AdministratorsAreLimited(s, DoRemoveMember(task, target), seat);
    }
  }

  // ----- invitations of administrators

  /** The live invitations that offer a privileged role. */
  function PrivilegedOffers(s: State): map<Token, Invitation> {
    map t | t in s.invitations && Live(s.invitations[t]) && Privileged(s.invitations[t].role) :: s.invitations[t]
  }

  /** The permission of a request that delivers or revokes an invitation. */
  function RequestPermit(s: State, step: Step): Option<Permit> {
    match step
    case DoDeliver(task, token, now) => if task in s.notes.drafts then Some(s.notes.drafts[task].permit) else None
    case DoRevoke(task, token, now) => if task in s.notes.permits then Some(s.notes.permits[task]) else None
    case _ => None
  }

  /** The request is about an invitation with a privileged role: it issues, replaces or revokes one. */
  predicate TouchesOffers(s: State, step: Step) {
    match step
    case DoDeliver(task, token, now) =>
      task in s.notes.drafts
      && (Privileged(s.notes.drafts[task].role)
          || exists t | t in PrivilegedOffers(s) ::
               Supersedes(s.invitations[t], s.notes.drafts[task].permit.org, s.notes.drafts[task].email))
    case DoRevoke(task, token, now) => token in PrivilegedOffers(s)
    case _ => false
  }

  /** An administrator's draft offers no privileged role. */
  predicate DraftsOk(s: State) {
    forall task | task in s.notes.drafts ::
      RoleManageable(s.notes.drafts[task].permit.role, s.notes.drafts[task].role)
  }

  lemma DraftsStayOk(s: State, step: Step)
    requires DraftsOk(s)
    ensures DraftsOk(Next(s, step))
  {
    if KeepsNotes(step) { KeepingNotes(s, step); }
  }

  lemma DeliveryTouches(s: State, task: TaskId, token: Token, now: Time)
    requires Invitations.Inv(s) && token !in s.usedTokens && DeliverDraft(s, task, token, now).Success?
    ensures PrivilegedOffers(DeliverDraft(s, task, token, now).value) != PrivilegedOffers(s)
       <==> TouchesOffers(s, DoDeliver(task, token, now))
  {
    var d := s.notes.drafts[task];
    var s' := DeliverDraft(s, task, token, now).value;
    forall t | t in s.invitations ensures t in s.usedTokens { assert Invitations.RowOk(s, t); }
    if Privileged(d.role) {
      assert token in PrivilegedOffers(s');
    } else if t :| t in PrivilegedOffers(s) && Supersedes(s.invitations[t], d.permit.org, d.email) {
      assert t !in PrivilegedOffers(s');
    } else {
      forall t ensures t in PrivilegedOffers(s') <==> t in PrivilegedOffers(s) {
      }
    }
  }

  lemma AdministratorsDeliverNoOffer(s: State, task: TaskId, token: Token, now: Time)
    requires DraftsOk(s) && task in s.notes.drafts && s.notes.drafts[task].permit.role.Admin?
    requires DeliverDraft(s, task, token, now).Success?
    ensures !TouchesOffers(s, DoDeliver(task, token, now))
  {
  }

  lemma RevocationTouches(s: State, task: TaskId, token: Token, now: Time)
    requires Invitations.Inv(s) && Revoke(s, task, token, now).Success?
    ensures PrivilegedOffers(Revoke(s, task, token, now).value) != PrivilegedOffers(s)
       <==> TouchesOffers(s, DoRevoke(task, token, now))
    ensures s.notes.permits[task].role.Admin? ==> !TouchesOffers(s, DoRevoke(task, token, now))
  {
    var s' := Revoke(s, task, token, now).value;
    if token in PrivilegedOffers(s) {
      assert token !in PrivilegedOffers(s');
    } else {
      forall t ensures t in PrivilegedOffers(s') <==> t in PrivilegedOffers(s) {
        if t == token { assert Invitations.RowOk(s, t); }
      }
    }
  }

  /** Only a request that read its requester as the owner changes the offers of privileged roles. */
  predicate OnlyOwnersOffer(s: State, step: Step) {
    var p := RequestPermit(s, step);
    p.Some? && PrivilegedOffers(Next(s, step)) != PrivilegedOffers(s) ==> p.value.role.Owner?
  }

  /** A request gets through that touches such an offer, and its requester was read below administrator. */
  predicate SlipsThrough(s: State, step: Step) {
    var p := RequestPermit(s, step);
    && p.Some? && !Privileged(p.value.role) && TouchesOffers(s, step)
    && FreshIds(s, step) && Apply(s, step).Success?
  }

  /** The condition is exact: a requester read as administrator is always refused. */
  lemma StepOffersExactly(s: State, step: Step)
    requires Invitations.Inv(s) && DraftsOk(s)
    ensures OnlyOwnersOffer(s, step) <==> !SlipsThrough(s, step)
  {
    if RequestPermit(s, step).Some? && FreshIds(s, step) && Apply(s, step).Success? {
      match step
      case DoDeliver(task, token, now) =>
        DeliveryTouches(s, task, token, now);
        if s.notes.drafts[task].permit.role.Admin? { AdministratorsDeliverNoOffer(s, task, token, now); }
      case DoRevoke(task, token, now) => RevocationTouches(s, task, token, now);
    }
  }

  ghost predicate AlwaysOnlyOwnersOffer(s: State, steps: seq<Step>)
    decreases |steps|
  {
    steps != [] ==> OnlyOwnersOffer(s, steps[0]) && AlwaysOnlyOwnersOffer(Next(s, steps[0]), steps[1..])
  }

  predicate NoneSlipsThrough(s: State, steps: seq<Step>)
    decreases |steps|
  {
    steps != [] ==> !SlipsThrough(s, steps[0]) && NoneSlipsThrough(Next(s, steps[0]), steps[1..])
  }

  lemma {:induction false} RunOffersExactly(s: State, steps: seq<Step>)
    requires Invitations.Inv(s) && DraftsOk(s)
    ensures AlwaysOnlyOwnersOffer(s, steps) <==> NoneSlipsThrough(s, steps)
    decreases |steps|
  {
    if steps != [] {
      StepOffersExactly(s, steps[0]);
      Invitations.NextKeeps(s, steps[0]);
      DraftsStayOk(s, steps[0]);
      RunOffersExactly(Next(s, steps[0]), steps[1..]);
    }
  }

  /**
   * In every run: only requests that read their requester as the owner issue, replace or revoke
   * an invitation with a privileged role, if and only if no such request gets through whose role
   * reading found the requester below administrator.
   */
  lemma OffersAreOwnersExactly(steps: seq<Step>)
    ensures AlwaysOnlyOwnersOffer(EMPTY, steps) <==> NoneSlipsThrough(EMPTY, steps)
  {
    RunOffersExactly(EMPTY, steps);
  }

  /**
   * And whoever slips through has lost the role in the middle of the request: in one state the
   * requester could manage the workspace, in a later one the role was below administrator.
   */
  lemma SlippingIsDemotion(steps: seq<Step>, step: Step)
    ensures var s := Run(EMPTY, steps);
            SlipsThrough(s, step) ==>
              var p := RequestPermit(s, step).value;
              CapableThenRead(EMPTY, steps, p) && !Privileged(p.role)
  {
    PermissionsWereReal(steps);
  }
}
