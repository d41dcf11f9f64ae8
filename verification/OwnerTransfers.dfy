/**
 * Concurrent transfers of the ownership of one workspace, statement by statement.  Each locks its
 * own target, so only the locks on the owners' rows and the unique constraint stand between them.
 */
module OwnerTransfers {
  import opened Access

  type Roles = map<UserId, Role>

  /**
   * How far a transfer is: its target is locked; its update has chosen the rows to demote from what
   * was committed then; or it has locked and demoted those that still are owners.
   */
  datatype Phase =
    | Locked(target: UserId)
    | Chosen(target: UserId, seen: set<UserId>)
    | Demoted(target: UserId, demoted: set<UserId>)

  /** The committed rows, and the transfers under way. */
  datatype Workspace = Workspace(roles: Roles, transfers: map<TaskId, Phase>)

  datatype Step =
    | DoLock(task: TaskId, target: UserId)
    | DoChoose(task: TaskId)
    | DoDemote(task: TaskId)
    | DoCommit(task: TaskId)

  function Owners(roles: Roles): set<UserId> { set u | u in roles && roles[u].Owner? }

  /** Another transfer has a lock on the row. */
  predicate HeldByOther(s: Workspace, task: TaskId, u: UserId) {
    exists t | t in s.transfers :: t != task && Holds(s.transfers[t], u)
  }

  predicate Holds(p: Phase, u: UserId) { p.target == u || (p.Demoted? && u in p.demoted) }

  /** The rows after the demotion and the promotion. */
  function Promoted(roles: Roles, demoted: set<UserId>, target: UserId): Roles {
    (map u | u in roles :: if u in demoted then Admin else roles[u])[target := Owner]
  }

  predicate Enabled(s: Workspace, step: Step) {
    match step
    case DoLock(task, target) =>
      task !in s.transfers && target in s.roles && !s.roles[target].Owner? && !HeldByOther(s, task, target)
    case DoChoose(task) => task in s.transfers && s.transfers[task].Locked?
    case DoDemote(task) =>
      task in s.transfers && s.transfers[task].Chosen?
      && forall u | u in s.transfers[task].seen :: !HeldByOther(s, task, u)
    case DoCommit(task) => task in s.transfers && s.transfers[task].Demoted?
  }

  /** With the constraint a second owner makes the transfer fail and roll back. */
  function Effect(unique: bool, s: Workspace, step: Step): Workspace
    requires Enabled(s, step)
  {
    match step
    case DoLock(task, target) => s.(transfers := s.transfers[task := Locked(target)])
    case DoChoose(task) =>
      s.(transfers := s.transfers[task := Chosen(s.transfers[task].target, Owners(s.roles))])
    case DoDemote(task) =>
      var p := s.transfers[task];
      s.(transfers := s.transfers[task := Demoted(p.target, p.seen * Owners(s.roles))])
    case DoCommit(task) =>
      var p := s.transfers[task];
      var roles := Promoted(s.roles, p.demoted, p.target);
      Workspace(if unique && Owners(roles) != {p.target} then s.roles else roles, s.transfers - {task})
  }

  function Next(unique: bool, s: Workspace, step: Step): Workspace {
    if Enabled(s, step) then Effect(unique, s, step) else s
  }

  function Run(unique: bool, s: Workspace, steps: seq<Step>): Workspace
    decreases |steps|
  {
    if steps == [] then s else Run(unique, Next(unique, s, steps[0]), steps[1..])
  }

  ghost predicate OneOwner(roles: Roles) { exists u :: Owners(roles) == {u} }

  /** A workspace with one owner and no transfer under way. */
  ghost predicate Initial(s: Workspace) { OneOwner(s.roles) && s.transfers == map[] }

  ghost predicate AlwaysOneOwner(unique: bool) {
    forall s, steps | Initial(s) :: OneOwner(Run(unique, s, steps).roles)
  }

  // ----- with the constraint

  lemma {:induction false} ConstraintKeepsOneOwner(s: Workspace, steps: seq<Step>)
    requires OneOwner(s.roles)
    ensures OneOwner(Run(true, s, steps).roles)
    decreases |steps|
  {
    if steps == [] {
    } else {
      ConstraintStep(s, steps[0]);
      ConstraintKeepsOneOwner(Next(true, s, steps[0]), steps[1..]);
    }
  }

  lemma ConstraintStep(s: Workspace, step: Step)
    requires OneOwner(s.roles)
    ensures OneOwner(Next(true, s, step).roles)
  {
  }

  // ----- without it

  function ThreeMembers(): Workspace { Workspace(map[0 := Owner, 1 := Member, 2 := Member], map[]) }

  /** Both transfers have chosen the old owner, and the first one has committed. */
  function FirstCommitted(): Workspace {
    Workspace(map[0 := Admin, 1 := Owner, 2 := Member], map[11 := Chosen(2, {0})])
  }

  lemma RunFirst(unique: bool, s: Workspace, step: Step, rest: seq<Step>)
    ensures Run(unique, s, [step] + rest) == Run(unique, Next(unique, s, step), rest)
  {
    assert ([step] + rest)[1..] == rest;
  }

  lemma BothChoose()
    ensures var s1 := Next(false, ThreeMembers(), DoLock(10, 1));
            var s2 := Next(false, s1, DoLock(11, 2));
            var s3 := Next(false, s2, DoChoose(10));
            Next(false, s3, DoChoose(11))
            == ThreeMembers().(transfers := map[10 := Chosen(1, {0}), 11 := Chosen(2, {0})])
  {
    assert Owners(ThreeMembers().roles) == {0};
    var s1 := Next(false, ThreeMembers(), DoLock(10, 1));
    assert s1 == ThreeMembers().(transfers := map[10 := Locked(1)]);
    var s2 := Next(false, s1, DoLock(11, 2));
    assert s2 == ThreeMembers().(transfers := map[10 := Locked(1), 11 := Locked(2)]);
    var s3 := Next(false, s2, DoChoose(10));
    assert s3 == ThreeMembers().(transfers := map[10 := Chosen(1, {0}), 11 := Locked(2)]);
  }

  lemma FirstCommits(s: Workspace)
    requires s == ThreeMembers().(transfers := map[10 := Chosen(1, {0}), 11 := Chosen(2, {0})])
    ensures Next(false, Next(false, s, DoDemote(10)), DoCommit(10)) == FirstCommitted()
  {
    assert Owners(s.roles) == {0};
    assert {0} * Owners(s.roles) == {0};
    assert forall u | u in {0} :: !HeldByOther(s, 10, u);
    var s1 := Next(false, s, DoDemote(10));
    assert s1 == s.(transfers := map[10 := Demoted(1, {0}), 11 := Chosen(2, {0})]);
    assert s1.transfers - {10} == map[11 := Chosen(2, {0})];
  }

  lemma SecondCommits()
    ensures var s := Next(false, Next(false, FirstCommitted(), DoDemote(11)), DoCommit(11));
            Owners(s.roles) == {1, 2}
  {
    assert Owners(FirstCommitted().roles) == {1};
    assert {0} * Owners(FirstCommitted().roles) == {};
    assert forall u | u in {0} :: !HeldByOther(FirstCommitted(), 11, u);
    var s1 := Next(false, FirstCommitted(), DoDemote(11));
    assert s1 == FirstCommitted().(transfers := map[11 := Demoted(2, {})]);
  }

  /** Both choose the old owner; the second one waits, finds nobody left to demote, and promotes. */
  lemma TwoTransfersCollide() returns (s: Workspace, steps: seq<Step>)
    ensures Initial(s) && Owners(Run(false, s, steps).roles) == {1, 2}
  {
    s := ThreeMembers();
    assert Owners(s.roles) == {0};
    BothChoose();
    var s4 := Next(false, Next(false, Next(false, Next(false, s, DoLock(10, 1)), DoLock(11, 2)), DoChoose(10)),
                   DoChoose(11));
    FirstCommits(s4);
    SecondCommits();
    var last := [DoDemote(11)] + ([DoCommit(11)] + []);
    RunFirst(false, Next(false, FirstCommitted(), DoDemote(11)), DoCommit(11), []);
    RunFirst(false, FirstCommitted(), DoDemote(11), [DoCommit(11)] + []);
    var middle := [DoDemote(10)] + ([DoCommit(10)] + last);
    RunFirst(false, Next(false, s4, DoDemote(10)), DoCommit(10), last);
    RunFirst(false, s4, DoDemote(10), [DoCommit(10)] + last);
    steps := [DoLock(10, 1)] + ([DoLock(11, 2)] + ([DoChoose(10)] + ([DoChoose(11)] + middle)));
    FourSteps(s, DoLock(10, 1), DoLock(11, 2), DoChoose(10), DoChoose(11), middle);
  }

  lemma FourSteps(s: Workspace, a: Step, b: Step, c: Step, d: Step, rest: seq<Step>)
    ensures Run(false, s, [a] + ([b] + ([c] + ([d] + rest))))
         == Run(false, Next(false, Next(false, Next(false, Next(false, s, a), b), c), d), rest)
  {
    RunFirst(false, s, a, [b] + ([c] + ([d] + rest)));
    RunFirst(false, Next(false, s, a), b, [c] + ([d] + rest));
    RunFirst(false, Next(false, Next(false, s, a), b), c, [d] + rest);
    RunFirst(false, Next(false, Next(false, Next(false, s, a), b), c), d, rest);
  }

  /**
   * A transfer that nothing interferes with makes its target the owner and every owner before an
   * administrator, and changes nobody else.
   */
  lemma TransferAlone(unique: bool, s: Workspace, task: TaskId, target: UserId)
    requires Initial(s) && target in s.roles && s.roles[target] != Owner
    ensures var s1 := Next(unique, Next(unique, s, DoLock(task, target)), DoChoose(task));
            var s2 := Next(unique, Next(unique, s1, DoDemote(task)), DoCommit(task));
            && s2.transfers == map[] && s2.roles.Keys == s.roles.Keys
            && s2.roles[target] == Owner
            && forall u | u in s.roles && u != target ::
                 s2.roles[u] == if s.roles[u] == Owner then Admin else s.roles[u]
  {
    var owners := Owners(s.roles);
    var s1 := Next(unique, s, DoLock(task, target));
    assert s1 == s.(transfers := map[task := Locked(target)]);
    var s2 := Next(unique, s1, DoChoose(task));
    assert s2 == s.(transfers := map[task := Chosen(target, owners)]);
    var s3 := Next(unique, s2, DoDemote(task));
    assert owners * owners == owners;
    assert s3 == s.(transfers := map[task := Demoted(target, owners)]);
    var roles := Promoted(s.roles, owners, target);
    assert Owners(roles) == {target};
    assert s3.transfers - {task} == map[];
  }

  /**
   * However concurrent transfers interleave, a workspace with one owner always keeps exactly one
   * if and only if the database enforces that there is at most one.
   */
  lemma OneOwnerNeedsTheConstraint(unique: bool)
    ensures AlwaysOneOwner(unique) <==> unique
  {
    if unique {
      forall s, steps | Initial(s) ensures OneOwner(Run(unique, s, steps).roles) {
        ConstraintKeepsOneOwner(s, steps);
      }
    } else {
      var s, steps := TwoTransfersCollide();
      assert 1 in Owners(Run(false, s, steps).roles) && 2 in Owners(Run(false, s, steps).roles);
      assert !OneOwner(Run(unique, s, steps).roles);
    }
  }
}
