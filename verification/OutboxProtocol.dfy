/**
 * Any number of workers, retries and dispatcher runs over the outbox, with one clock.  A worker
 * may be lost at any moment.  What no worker does is live longer than the task limit after its
 * claim; this is the assumption under which the clock may advance.
 */
module OutboxProtocol {
  import opened Wrappers
  import opened Outbox

  type WorkerId = nat

  datatype Phase = Sending | SendSucceeded | SendFailed

  /** A worker that holds a claimed message, with the row as it was when claimed. */
  datatype Worker = Worker(message: MessageId, claimedAt: Time, attempts: nat, phase: Phase)

  /** What has happened to a message so far. */
  datatype History = History(claims: nat, sends: nat, failures: nat, lost: nat, secret: string)

  datatype State = State(
    now: Time,
    messages: map<MessageId, Message>,
    workers: map<WorkerId, Worker>,
    history: map<MessageId, History>)

  datatype Step =
    | DoEnqueue(id: MessageId, kind: Kind, secret: string)
    | DoKeepLegacy(id: MessageId, row: Message)
    | DoClaim(w: WorkerId, id: MessageId)
    | DoSend(w: WorkerId, ok: bool)
    | DoFinish(w: WorkerId)
    | DoLose(w: WorkerId)
    | DoDispatch(staleBefore: Time)
    | DoTick(seconds: nat)

  predicate Enabled(l: Limits, s: State, step: Step) {
    match step
    case DoEnqueue(id, kind, secret) => id !in s.messages && !kind.AutomationRun?
    case DoKeepLegacy(id, row) => id !in s.messages && row.kind.AutomationRun?
    case DoClaim(w, id) =>
      w !in s.workers && id in s.messages && id in s.history && Claimable(s.messages[id], s.now, l.lockTimeout)
    case DoSend(w, ok) => w in s.workers && s.workers[w].phase.Sending? && s.workers[w].message in s.history
    case DoFinish(w) => w in s.workers && !s.workers[w].phase.Sending? && s.workers[w].message in s.messages
    case DoLose(w) => w in s.workers && s.workers[w].message in s.history
    case DoDispatch(staleBefore) => staleBefore <= s.now - l.lockTimeout
    case DoTick(seconds) =>
      forall w | w in s.workers :: s.now + seconds <= s.workers[w].claimedAt + l.taskLimit
  }

  function Effect(l: Limits, s: State, step: Step): State
    requires Enabled(l, s, step)
  {
    match step
    case DoEnqueue(id, kind, secret) =>
      s.(messages := s.messages[id := NewMessage(kind, secret, s.now)],
         history := s.history[id := History(0, 0, 0, 0, secret)])
    case DoKeepLegacy(id, row) =>
      s.(messages := s.messages[id := row], history := s.history[id := History(0, 0, 0, 0, row.secret)])
    case DoClaim(w, id) =>
      var m := Claimed(s.messages[id], s.now);
      var h := s.history[id];
      s.(messages := s.messages[id := m],
         workers := s.workers[w := Worker(id, s.now, m.attempts, Sending)],
         history := s.history[id := h.(claims := h.claims + 1)])
    case DoSend(w, ok) =>
      var worker := s.workers[w];
      var h := s.history[worker.message];
      s.(workers := s.workers[w := worker.(phase := if ok then SendSucceeded else SendFailed)],
         history := s.history[worker.message := if ok then h.(sends := h.sends + 1)
                                                else h.(failures := h.failures + 1)])
    case DoFinish(w) =>
      var worker := s.workers[w];
      var m := s.messages[worker.message];
      s.(messages := s.messages[worker.message := if worker.phase.SendSucceeded? then AfterSuccess(m, s.now)
                                                  else AfterFailure(m, worker.attempts, s.now)],
         workers := s.workers - {w})
    case DoLose(w) =>
      var id := s.workers[w].message;
      s.(workers := s.workers - {w},
         history := s.history[id := s.history[id].(lost := s.history[id].lost + 1)])
    case DoDispatch(staleBefore) => s.(messages := Requeue(s.messages, staleBefore))
    case DoTick(seconds) => s.(now := s.now + seconds)
  }

  function Next(l: Limits, s: State, step: Step): State {
    if Enabled(l, s, step) then Effect(l, s, step) else s
  }

  function Run(l: Limits, s: State, steps: seq<Step>): State
    decreases |steps|
  {
    if steps == [] then s else Run(l, Next(l, s, steps[0]), steps[1..])
  }

  const START: State := State(0, map[], map[], map[])

  ghost predicate Reachable(l: Limits, s: State) {
    exists steps :: s == Run(l, START, steps)
  }

  // ----- the invariant

  predicate Holds(s: State, w: WorkerId, id: MessageId) {
    w in s.workers && s.workers[w].message == id
  }

  /** No two live workers hold the same message. */
  ghost predicate Exclusive(s: State) {
    forall v, w, id | Holds(s, v, id) && Holds(s, w, id) :: v == w
  }

  predicate WorkerOk(l: Limits, s: State, worker: Worker) {
    && worker.message in s.messages
    && var m := s.messages[worker.message];
       && m.status.Processing? && m.lockedAt == Some(worker.claimedAt)
       && m.attempts == worker.attempts
       && s.now <= worker.claimedAt + l.taskLimit
  }

  function One(b: bool): nat { if b then 1 else 0 }

  /** The account of a message that was queued here, given the worker that holds it, if any. */
  predicate Accounted(m: Message, h: History, holder: Option<Worker>) {
    var sending := holder.Some? && holder.value.phase.Sending?;
    var delivered := m.status.Sent? || (holder.Some? && holder.value.phase.SendSucceeded?);
    && m.attempts == h.claims
    && m.secret == (if m.status.Sent? then "" else h.secret)
    && (m.status.Processing? <==> m.lockedAt.Some?)
    && (m.status.Processing? && holder.None? ==> h.lost > 0)
    && (h.sends <= h.lost + One(delivered))
    && (delivered ==> h.sends > 0)
    && h.failures + h.sends + One(sending) <= h.claims <= h.failures + h.sends + One(sending) + h.lost
    && h.claims <= MAX_ATTEMPTS - One(holder.None? && (m.status.Queued? || m.status.Processing?)) + h.lost
    && (m.status.Failed? ==> h.claims >= MAX_ATTEMPTS)
    && (holder.Some? ==> m.status.Processing? && h.claims > 0)
  }

  /** Legacy rows may be in any state, and no worker ever holds one. */
  predicate RowOk(m: Message, h: History, holder: Option<Worker>) {
    if m.kind.AutomationRun? then holder.None? else Accounted(m, h, holder)
  }

  ghost predicate MessageOk(s: State, id: MessageId) {
    && id in s.messages && id in s.history
    && (forall w | Holds(s, w, id) :: RowOk(s.messages[id], s.history[id], Some(s.workers[w])))
    && ((forall w :: !Holds(s, w, id)) ==> RowOk(s.messages[id], s.history[id], None))
  }

  ghost predicate Inv(l: Limits, s: State) {
    && s.messages.Keys == s.history.Keys
    && Exclusive(s)
    && (forall w | w in s.workers :: WorkerOk(l, s, s.workers[w]))
    && (forall id | id in s.messages :: MessageOk(s, id))
  }

  // ----- every step keeps it

  /** A message that can be claimed is held by nobody: a holder's lock is too young to be stale. */
  lemma ClaimableIsFree(l: Limits, s: State, id: MessageId)
    requires l.taskLimit < l.lockTimeout
    requires forall w | w in s.workers :: WorkerOk(l, s, s.workers[w])
    requires id in s.messages && Claimable(s.messages[id], s.now, l.lockTimeout)
    ensures forall w :: !Holds(s, w, id)
  {
  }

  lemma StaleIsFree(l: Limits, s: State, id: MessageId, staleBefore: Time)
    requires l.taskLimit <= l.lockTimeout && staleBefore <= s.now - l.lockTimeout
    requires forall w | w in s.workers :: WorkerOk(l, s, s.workers[w])
    requires id in s.messages && Stale(s.messages[id], staleBefore)
    ensures forall w :: !Holds(s, w, id)
  {
  }

  /** A message keeps its account if neither its row, its history nor its holders change. */
  lemma Untouched(s: State, s': State, id: MessageId)
    requires MessageOk(s, id)
    requires id in s'.messages && s'.messages[id] == s.messages[id]
    requires id in s'.history && s'.history[id] == s.history[id]
    requires forall w :: Holds(s', w, id) <==> Holds(s, w, id)
    requires forall w | Holds(s, w, id) :: w in s'.workers && s'.workers[w] == s.workers[w]
    ensures MessageOk(s', id)
  {
  }

  /** The step touched nothing but one message and the workers that hold it. */
  ghost predicate TouchesOnly(s: State, s': State, id: MessageId) {
    && s'.now == s.now
    && s'.messages.Keys == s'.history.Keys == s.messages.Keys + {id}
    && (forall x | x in s.messages && x != id ::
          x in s.history && s'.messages[x] == s.messages[x] && s'.history[x] == s.history[x])
    && (forall w, x | x != id :: Holds(s', w, x) <==> Holds(s, w, x))
    && (forall w, x | x != id && Holds(s, w, x) :: w in s'.workers && s'.workers[w] == s.workers[w])
  }

  /** What has to be shown about the touched message: its only holder, if any, and its account. */
  ghost predicate TouchedOk(l: Limits, s: State, id: MessageId, holder: Option<WorkerId>) {
    && (forall w: WorkerId :: Holds(s, w, id) <==> holder == Some(w))
    && id in s.messages && id in s.history
    && (holder.Some? ==> WorkerOk(l, s, s.workers[holder.value]))
    && RowOk(s.messages[id], s.history[id], if holder.Some? then Some(s.workers[holder.value]) else None)
  }

  lemma LocalStep(l: Limits, s: State, s': State, id: MessageId, holder: Option<WorkerId>)
    requires Inv(l, s) && TouchesOnly(s, s', id) && TouchedOk(l, s', id, holder)
    ensures Inv(l, s')
  {
    forall w | w in s'.workers ensures WorkerOk(l, s', s'.workers[w]) {
      var x := s'.workers[w].message;
      assert Holds(s', w, x);
      if x != id {
        assert Holds(s, w, x) && WorkerOk(l, s, s.workers[w]);
      }
    }
    forall x | x in s'.messages ensures MessageOk(s', x) {
      if x != id { Untouched(s, s', x); }
    }
    forall u, v, x | Holds(s', u, x) && Holds(s', v, x) ensures u == v {
      if x != id { assert Holds(s, u, x) && Holds(s, v, x); }
    }
  }

  /** A new row, queued here or kept from before, belongs to nobody. */
  lemma NewRowKeeps(l: Limits, s: State, id: MessageId, step: Step)
    requires Inv(l, s) && Enabled(l, s, step)
    requires (step.DoEnqueue? || step.DoKeepLegacy?) && step.id == id
    ensures Inv(l, Effect(l, s, step))
  {
    forall w ensures !Holds(s, w, id) {
      if w in s.workers { assert WorkerOk(l, s, s.workers[w]); }
    }
    LocalStep(l, s, Effect(l, s, step), id, None);
  }

  lemma ClaimKeeps(l: Limits, s: State, w: WorkerId, id: MessageId)
    requires l.taskLimit < l.lockTimeout
    requires Inv(l, s) && Enabled(l, s, DoClaim(w, id))
    ensures Inv(l, Effect(l, s, DoClaim(w, id)))
  {
    ClaimableIsFree(l, s, id);
    assert MessageOk(s, id);
    ClaimTouched(l, s, w, id);
    LocalStep(l, s, Effect(l, s, DoClaim(w, id)), id, Some(w));
  }

  lemma ClaimTouched(l: Limits, s: State, w: WorkerId, id: MessageId)
    requires s.messages.Keys == s.history.Keys
    requires Enabled(l, s, DoClaim(w, id)) && TouchedOk(l, s, id, None)
    ensures TouchesOnly(s, Effect(l, s, DoClaim(w, id)), id)
    ensures TouchedOk(l, Effect(l, s, DoClaim(w, id)), id, Some(w))
  {
  }

  /** Only worker `w` and the message it holds are involved; nobody else holds that message. */
  lemma SoleHolder(l: Limits, s: State, w: WorkerId)
    requires Inv(l, s) && w in s.workers
    ensures TouchedOk(l, s, s.workers[w].message, Some(w))
  {
    var id := s.workers[w].message;
    assert Holds(s, w, id) && WorkerOk(l, s, s.workers[w]) && MessageOk(s, id);
  }

  /** A worker's own steps touch its message only. */
  lemma WorkerTouches(l: Limits, s: State, w: WorkerId, step: Step)
    requires s.messages.Keys == s.history.Keys && w in s.workers && s.workers[w].message in s.messages
    requires (step.DoSend? && step.w == w) || step == DoFinish(w) || step == DoLose(w)
    requires Enabled(l, s, step)
    ensures TouchesOnly(s, Effect(l, s, step), s.workers[w].message)
  {
  }

  lemma SendTouched(l: Limits, s: State, w: WorkerId, ok: bool)
    requires Enabled(l, s, DoSend(w, ok)) && TouchedOk(l, s, s.workers[w].message, Some(w))
    ensures TouchedOk(l, Effect(l, s, DoSend(w, ok)), s.workers[w].message, Some(w))
  {
  }

  lemma FinishTouched(l: Limits, s: State, w: WorkerId)
    requires Enabled(l, s, DoFinish(w)) && TouchedOk(l, s, s.workers[w].message, Some(w))
    ensures TouchedOk(l, Effect(l, s, DoFinish(w)), s.workers[w].message, None)
  {
  }

  lemma LoseTouched(l: Limits, s: State, w: WorkerId)
    requires Enabled(l, s, DoLose(w)) && TouchedOk(l, s, s.workers[w].message, Some(w))
    ensures TouchedOk(l, Effect(l, s, DoLose(w)), s.workers[w].message, None)
  {
  }

  lemma WorkerStepKeeps(l: Limits, s: State, w: WorkerId, step: Step)
    requires Inv(l, s) && w in s.workers
    requires (step.DoSend? && step.w == w) || step == DoFinish(w) || step == DoLose(w)
    requires Enabled(l, s, step)
    ensures Inv(l, Effect(l, s, step))
  {
    var id := s.workers[w].message;
    SoleHolder(l, s, w);
    WorkerTouches(l, s, w, step);
    if step.DoSend? {
      SendTouched(l, s, w, step.ok);
    } else if step.DoFinish? {
      FinishTouched(l, s, w);
    } else {
      LoseTouched(l, s, w);
    }
    LocalStep(l, s, Effect(l, s, step), id, if step.DoSend? then Some(w) else None);
  }

  lemma DispatchKeeps(l: Limits, s: State, staleBefore: Time)
    requires l.taskLimit < l.lockTimeout
    requires Inv(l, s) && staleBefore <= s.now - l.lockTimeout
    ensures Inv(l, Effect(l, s, DoDispatch(staleBefore)))
  {
    var s' := Effect(l, s, DoDispatch(staleBefore));
    forall v, x ensures Holds(s', v, x) <==> Holds(s, v, x) {
    }
    forall v | v in s'.workers ensures WorkerOk(l, s', s'.workers[v]) {
      var id := s.workers[v].message;
      assert WorkerOk(l, s, s.workers[v]) && Holds(s, v, id);
      if Stale(s.messages[id], staleBefore) { StaleIsFree(l, s, id, staleBefore); }
    }
    forall x | x in s'.messages ensures MessageOk(s', x) {
      assert MessageOk(s, x);
      if Stale(s.messages[x], staleBefore) {
        StaleIsFree(l, s, x, staleBefore);
        assert RowOk(s'.messages[x], s'.history[x], None);
      } else {
        Untouched(s, s', x);
      }
    }
  }

  lemma TickKeeps(l: Limits, s: State, seconds: nat)
    requires Inv(l, s) && Enabled(l, s, DoTick(seconds))
    ensures Inv(l, Effect(l, s, DoTick(seconds)))
  {
    var s' := Effect(l, s, DoTick(seconds));
    forall v, x ensures Holds(s', v, x) <==> Holds(s, v, x) {
    }
    forall v | v in s'.workers ensures WorkerOk(l, s', s'.workers[v]) {
      assert WorkerOk(l, s, s.workers[v]);
    }
    forall x | x in s'.messages ensures MessageOk(s', x) {
      Untouched(s, s', x);
    }
  }

  lemma NextKeeps(l: Limits, s: State, step: Step)
    requires l.taskLimit < l.lockTimeout
    requires Inv(l, s)
    ensures Inv(l, Next(l, s, step))
  {
    if Enabled(l, s, step) {
      match step
      case DoEnqueue(id, kind, secret) => NewRowKeeps(l, s, id, step);
      case DoKeepLegacy(id, row) => NewRowKeeps(l, s, id, step);
      case DoClaim(w, id) => ClaimKeeps(l, s, w, id);
      case DoSend(w, ok) => WorkerStepKeeps(l, s, w, step);
      case DoFinish(w) => WorkerStepKeeps(l, s, w, step);
      case DoLose(w) => WorkerStepKeeps(l, s, w, step);
      case DoDispatch(staleBefore) => DispatchKeeps(l, s, staleBefore);
      case DoTick(seconds) => TickKeeps(l, s, seconds);
    }
  }

  lemma {:induction false} RunKeeps(l: Limits, s: State, steps: seq<Step>)
    requires l.taskLimit < l.lockTimeout
    requires Inv(l, s)
    ensures Inv(l, Run(l, s, steps))
    decreases |steps|
  {
    if steps == [] {
    } else {
      NextKeeps(l, s, steps[0]);
      RunKeeps(l, Next(l, s, steps[0]), steps[1..]);
    }
  }

  lemma ReachableIsInvariant(l: Limits, s: State)
    requires l.taskLimit < l.lockTimeout && Reachable(l, s)
    ensures Inv(l, s)
  {
    var steps :| s == Run(l, START, steps);
    RunKeeps(l, START, steps);
  }

  // ----- safety

  predicate Done(m: Message) { m.status.Sent? || m.status.Failed? }

  /** One step leaves a finished message exactly as it is. */
  predicate KeepsDone(l: Limits, s: State, step: Step, id: MessageId) {
    id in s.messages && Done(s.messages[id]) ==>
      id in Next(l, s, step).messages && Next(l, s, step).messages[id] == s.messages[id]
  }

  lemma StepKeepsDone(l: Limits, s: State, step: Step, id: MessageId)
    requires l.taskLimit < l.lockTimeout && Inv(l, s)
    ensures KeepsDone(l, s, step, id)
  {
    if step.DoFinish? && Enabled(l, s, step) {
      SoleHolder(l, s, step.w);
    }
  }

  /** SENT and FAILED are final: no later run changes anything about such a message. */
  lemma {:induction false} DoneIsFinal(l: Limits, s: State, steps: seq<Step>, id: MessageId)
    requires l.taskLimit < l.lockTimeout && Inv(l, s)
    requires id in s.messages && Done(s.messages[id])
    ensures id in Run(l, s, steps).messages && Run(l, s, steps).messages[id] == s.messages[id]
    decreases |steps|
  {
    if steps == [] {
    } else {
      NextKeeps(l, s, steps[0]);
      StepKeepsDone(l, s, steps[0], id);
      DoneIsFinal(l, Next(l, s, steps[0]), steps[1..], id);
    }
  }

  /**
   * Legacy rows are kept for a rollback to recover.  The dispatcher does not look at the kind when
   * it requeues: a legacy row changes if and only if a dispatcher run finds it stale, and then it
   * is put back into the queue, where no worker claims it.
   */
  lemma LegacyChangesExactly(l: Limits, s: State, step: Step, id: MessageId)
    requires l.taskLimit < l.lockTimeout && Inv(l, s)
    requires id in s.messages && s.messages[id].kind.AutomationRun?
    ensures id in Next(l, s, step).messages
    ensures var m, m' := s.messages[id], Next(l, s, step).messages[id];
            && (m' != m <==> step.DoDispatch? && Enabled(l, s, step) && Stale(m, step.staleBefore))
            && (m' != m ==> m' == m.(status := Queued, lockedAt := None))
  {
    if (step.DoFinish? || step.DoSend? || step.DoLose?) && Enabled(l, s, step) {
      SoleHolder(l, s, step.w);
    }
  }

  // ----- the time limits are exactly what safety needs

  /** One worker outlives its lock, and a second one claims the same message. */
  function DoubleClaim(l: Limits): seq<Step> {
    [DoEnqueue(0, PasswordReset, ""), DoClaim(0, 0), DoTick(l.lockTimeout), DoClaim(1, 0)]
  }

  function DoublyHeld(l: Limits): State {
    State(l.lockTimeout,
          map[0 := Message(PasswordReset, "", Processing, 2, 0, Some(l.lockTimeout), None)],
          map[0 := Worker(0, 0, 1, Sending), 1 := Worker(0, l.lockTimeout, 2, Sending)],
          map[0 := History(2, 0, 0, 0, "")])
  }

  lemma RunsOfFour(l: Limits, s: State, steps: seq<Step>)
    requires |steps| == 4
    ensures Run(l, s, steps)
         == Next(l, Next(l, Next(l, Next(l, s, steps[0]), steps[1]), steps[2]), steps[3])
  {
    assert steps[1..][1..] == steps[2..] && steps[2..][1..] == steps[3..] && steps[3..][1..] == [];
    assert Run(l, Next(l, s, steps[0]), steps[1..])
        == Run(l, Next(l, Next(l, s, steps[0]), steps[1]), steps[2..]);
    assert Run(l, Next(l, Next(l, Next(l, s, steps[0]), steps[1]), steps[2]), steps[3..])
        == Run(l, Next(l, Next(l, Next(l, Next(l, s, steps[0]), steps[1]), steps[2]), steps[3]), []);
  }

  lemma LongTasksCollide(l: Limits)
    requires l.taskLimit >= l.lockTimeout
    ensures Run(l, START, DoubleClaim(l)) == DoublyHeld(l)
    ensures !Exclusive(DoublyHeld(l))
  {
    RunsOfFour(l, START, DoubleClaim(l));
    assert Holds(DoublyHeld(l), 0, 0) && Holds(DoublyHeld(l), 1, 0);
  }

  /** No two live workers ever hold the same message if and only if tasks end before locks do. */
  lemma ExclusionNeedsTheLimits(l: Limits)
    ensures (forall s | Reachable(l, s) :: Exclusive(s)) <==> l.taskLimit < l.lockTimeout
  {
    if l.taskLimit < l.lockTimeout {
      forall s | Reachable(l, s) ensures Exclusive(s) {
        ReachableIsInvariant(l, s);
      }
    } else {
      LongTasksCollide(l);
      assert Reachable(l, DoublyHeld(l));
    }
  }

  /** Both workers have finished sending; the first has recorded its success. */
  function SentAndHeld(l: Limits): State {
    State(l.lockTimeout,
          map[0 := Message(PasswordReset, "", Sent, 2, 0, None, Some(l.lockTimeout))],
          map[1 := Worker(0, l.lockTimeout, 2, SendFailed)],
          map[0 := History(2, 1, 1, 0, "")])
  }

  lemma {:induction false} RunsCompose(l: Limits, s: State, a: seq<Step>, b: seq<Step>)
    ensures Run(l, s, a + b) == Run(l, Run(l, s, a), b)
    decreases |a|
  {
    if a == [] {
      assert a + b == b;
    } else {
      assert (a + b)[0] == a[0] && (a + b)[1..] == a[1..] + b;
      RunsCompose(l, Next(l, s, a[0]), a[1..], b);
    }
  }

  /** After the first holder has sent and finished. */
  function SentAndSending(l: Limits): State {
    SentAndHeld(l).(workers := map[1 := Worker(0, l.lockTimeout, 2, Sending)],
                    history := map[0 := History(2, 1, 0, 0, "")])
  }

  lemma FirstHolderFinishes(l: Limits)
    ensures Next(l, Next(l, DoublyHeld(l), DoSend(0, true)), DoFinish(0)) == SentAndSending(l)
  {
    var s1 := Next(l, DoublyHeld(l), DoSend(0, true));
    assert s1.workers - {0} == map[1 := Worker(0, l.lockTimeout, 2, Sending)];
  }

  lemma SecondHolderFails(l: Limits)
    ensures Next(l, Next(l, SentAndSending(l), DoSend(1, false)), DoTick(0)) == SentAndHeld(l)
  {
  }

  /** The first holder sends and finishes, the second one's send fails. */
  lemma FirstHolderSends(l: Limits)
    ensures Run(l, DoublyHeld(l), [DoSend(0, true), DoFinish(0), DoSend(1, false), DoTick(0)]) == SentAndHeld(l)
  {
    RunsOfFour(l, DoublyHeld(l), [DoSend(0, true), DoFinish(0), DoSend(1, false), DoTick(0)]);
    FirstHolderFinishes(l);
    SecondHolderFails(l);
  }

  lemma SentWhileHeld(l: Limits)
    requires l.taskLimit >= l.lockTimeout
    ensures Reachable(l, SentAndHeld(l))
  {
    LongTasksCollide(l);
    FirstHolderSends(l);
    RunsCompose(l, START, DoubleClaim(l), [DoSend(0, true), DoFinish(0), DoSend(1, false), DoTick(0)]);
  }

  /** A finished message is never overwritten if and only if tasks end before locks do. */
  lemma FinalityNeedsTheLimits(l: Limits)
    ensures (forall s, step, id | Reachable(l, s) :: KeepsDone(l, s, step, id))
       <==> l.taskLimit < l.lockTimeout
  {
    if l.taskLimit < l.lockTimeout {
      forall s, step, id | Reachable(l, s) ensures KeepsDone(l, s, step, id) {
        ReachableIsInvariant(l, s);
        StepKeepsDone(l, s, step, id);
      }
    } else {
      SentWhileHeld(l);
      assert !KeepsDone(l, SentAndHeld(l), DoFinish(1), 0);
    }
  }

  /** The deployed task limit and lock timeout meet the condition. */
  lemma DeployedIsSafe(s: State)
    requires Reachable(DEPLOYED, s)
    ensures Exclusive(s)
    ensures forall step, id :: KeepsDone(DEPLOYED, s, step, id)
  {
    ExclusionNeedsTheLimits(DEPLOYED);
    FinalityNeedsTheLimits(DEPLOYED);
  }

  // ----- accounting

  /**
   * For every message queued here, in every reachable state: `attempts` counts the claims; there
   * was at most one completed send beyond the workers lost; the secret is intact until SENT and
   * blank from then on; and `attempts` exceeds the maximum only by workers lost.
   */
  lemma Accounting(l: Limits, s: State, id: MessageId)
    requires l.taskLimit < l.lockTimeout && Reachable(l, s)
    requires id in s.messages && !s.messages[id].kind.AutomationRun?
    ensures id in s.history
    ensures s.messages[id].attempts == s.history[id].claims <= MAX_ATTEMPTS + s.history[id].lost
    ensures s.history[id].sends <= 1 + s.history[id].lost
    ensures s.messages[id].secret == if s.messages[id].status.Sent? then "" else s.history[id].secret
  {
    ReachableIsInvariant(l, s);
    assert MessageOk(s, id);
  }

  /** When no worker was lost, FAILED means exactly that six sends have failed and none is running. */
  lemma SixFailures(l: Limits, s: State, id: MessageId)
    requires l.taskLimit < l.lockTimeout && Reachable(l, s)
    requires id in s.messages && !s.messages[id].kind.AutomationRun?
    ensures id in s.history
    ensures s.history[id].lost == 0 ==>
              && s.history[id].failures <= MAX_ATTEMPTS
              && (s.messages[id].status.Failed? <==>
                    s.history[id].failures == MAX_ATTEMPTS && forall w :: !Holds(s, w, id))
              && (s.messages[id].status.Sent? ==> s.history[id].sends == 1)
              && (s.messages[id].status.Queued? ==> s.messages[id].attempts == s.history[id].failures)
  {
    ReachableIsInvariant(l, s);
    assert MessageOk(s, id);
    if w :| Holds(s, w, id) {
      assert RowOk(s.messages[id], s.history[id], Some(s.workers[w]));
    }
  }

  /** Retries wait between a minute and an hour, and never less than the time before. */
  lemma {:induction false} BackoffGrows(attempts: nat)
    requires attempts >= 1
    ensures 60 <= Backoff(attempts) <= Backoff(attempts + 1) <= 3600
  {
    PowerIsPositive(attempts - 1);
  }

  lemma {:induction false} PowerIsPositive(n: nat)
    ensures Pow2(n) >= 1
  {
    if n > 0 { PowerIsPositive(n - 1); }
  }
}
