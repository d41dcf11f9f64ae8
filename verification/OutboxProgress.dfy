/** No message is ever beyond delivery: whatever has happened, a short continuation sends it. */
module OutboxProgress {
  import opened Numbers
  import opened Outbox
  import opened OutboxProtocol

  // ----- times are never far in the future

  /** No retry waits longer than an hour, and no lock was taken in the future. */
  predicate Timely(s: State) {
    forall id | id in s.messages && !s.messages[id].kind.AutomationRun? :: RowTimely(s.messages[id], s.now)
  }

  predicate RowTimely(m: Message, now: Time) {
    m.availableAt <= now + MAX_DELAY && (m.lockedAt.Some? ==> m.lockedAt.value <= now)
  }

  const MAX_DELAY: nat := 3600

  lemma NextIsTimely(l: Limits, s: State, step: Step)
    requires Timely(s)
    ensures Timely(Next(l, s, step))
  {
    var s' := Next(l, s, step);
    forall id | id in s'.messages && !s'.messages[id].kind.AutomationRun? ensures RowTimely(s'.messages[id], s'.now) {
      if id in s.messages { assert !s.messages[id].kind.AutomationRun?; }
    }
  }

  lemma {:induction false} RunIsTimely(l: Limits, s: State, steps: seq<Step>)
    requires Timely(s)
    ensures Timely(Run(l, s, steps))
    decreases |steps|
  {
    if steps == [] {
    } else {
      NextIsTimely(l, s, steps[0]);
      RunIsTimely(l, Next(l, s, steps[0]), steps[1..]);
    }
  }

  lemma ReachableIsTimely(l: Limits, s: State)
    requires Reachable(l, s)
    ensures Timely(s)
  {
    var steps :| s == Run(l, START, steps);
    RunIsTimely(l, START, steps);
  }

  // ----- the continuation

  predicate WorkersKnown(s: State) {
    forall w | w in s.workers :: s.workers[w].message in s.history
  }

  lemma LoseOne(l: Limits, s: State, w: WorkerId)
    requires WorkersKnown(s) && w in s.workers
    ensures var s' := Next(l, s, DoLose(w));
            WorkersKnown(s') && s'.workers == s.workers - {w} && s'.messages == s.messages && s'.now == s.now
  {
  }

  lemma RunFirst(l: Limits, s: State, step: Step, rest: seq<Step>)
    ensures Run(l, s, [step] + rest) == Run(l, Next(l, s, step), rest)
  {
    assert ([step] + rest)[1..] == rest;
  }

  /** Even if every worker under way is lost, nothing else changes. */
  lemma {:induction false} LoseAll(l: Limits, s: State) returns (steps: seq<Step>)
    requires WorkersKnown(s)
    ensures var s' := Run(l, s, steps);
            s'.workers == map[] && s'.messages == s.messages && s'.now == s.now
    decreases |s.workers|
  {
    if s.workers == map[] {
      steps := [];
    } else {
      var w :| w in s.workers;
      LoseOne(l, s, w);
      Fewer(s.workers, w);
      var rest := LoseAll(l, Next(l, s, DoLose(w)));
      RunFirst(l, s, DoLose(w), rest);
      steps := [DoLose(w)] + rest;
    }
  }

  lemma Fewer(workers: map<WorkerId, Worker>, w: WorkerId)
    requires w in workers
    ensures |workers - {w}| < |workers|
  {
    assert (workers - {w}).Keys == workers.Keys - {w};
    assert |workers.Keys - {w}| < |workers.Keys|;
    assert |workers - {w}| == |(workers - {w}).Keys| && |workers| == |workers.Keys|;
  }

  /** How long to wait until every lock is abandoned and every retry due. */
  function Patience(l: Limits): nat { Max(l.lockTimeout, MAX_DELAY) + 1 }

  lemma AfterWaiting(l: Limits, s: State)
    requires s.workers == map[]
    ensures var s1 := Next(l, s, DoTick(Patience(l)));
            var s2 := Next(l, s1, DoDispatch(s1.now - l.lockTimeout));
            s2 == s.(now := s.now + Patience(l), messages := Requeue(s.messages, s.now + Patience(l) - l.lockTimeout))
  {
  }

  lemma WaitedLongEnough(l: Limits, m: Message, now: Time)
    requires !m.kind.AutomationRun? && !Done(m) && RowTimely(m, now)
    requires m.status.Processing? <==> m.lockedAt.Some?
    ensures var later := now + Patience(l);
            Dispatchable(Requeue(map[0 := m], later - l.lockTimeout)[0], later)
  {
  }

  lemma RequeueOne(messages: map<MessageId, Message>, id: MessageId, staleBefore: Time)
    requires id in messages
    ensures id in Requeue(messages, staleBefore)
    ensures Requeue(messages, staleBefore)[id] == Requeue(map[0 := messages[id]], staleBefore)[0]
  {
  }

  /** The row as the invariant knows it when no worker is left. */
  lemma UnheldRow(l: Limits, s: State, id: MessageId)
    requires Inv(l, s) && s.workers == map[] && id in s.messages && !s.messages[id].kind.AutomationRun?
    ensures s.messages[id].status.Processing? <==> s.messages[id].lockedAt.Some?
  {
    assert MessageOk(s, id);
    assert forall w :: !Holds(s, w, id);
  }

  lemma ReadyAfterWaiting(l: Limits, s: State, id: MessageId)
    requires Inv(l, s) && s.workers == map[] && id in s.messages
    requires !s.messages[id].kind.AutomationRun? && !Done(s.messages[id]) && RowTimely(s.messages[id], s.now)
    ensures var messages := Requeue(s.messages, s.now + Patience(l) - l.lockTimeout);
            id in messages && Dispatchable(messages[id], s.now + Patience(l))
  {
    UnheldRow(l, s, id);
    WaitedLongEnough(l, s.messages[id], s.now);
    RequeueOne(s.messages, id, s.now + Patience(l) - l.lockTimeout);
  }

  /** Once all workers are lost, waiting is all it takes. */
  lemma ReadyAfterLosses(l: Limits, s: State, id: MessageId) returns (losses: seq<Step>)
    requires l.taskLimit < l.lockTimeout && Reachable(l, s)
    requires id in s.messages && !s.messages[id].kind.AutomationRun? && !Done(s.messages[id])
    ensures var s' := Run(l, s, losses);
            var messages := Requeue(s'.messages, s'.now + Patience(l) - l.lockTimeout);
            && s'.workers == map[] && s'.now == s.now
            && id in messages && Dispatchable(messages[id], s'.now + Patience(l))
  {
    ReachableIsInvariant(l, s);
    ReachableIsTimely(l, s);
    forall w | w in s.workers ensures s.workers[w].message in s.history {
      assert WorkerOk(l, s, s.workers[w]);
    }
    losses := LoseAll(l, s);
    RunKeeps(l, s, losses);
    ReadyAfterWaiting(l, Run(l, s, losses), id);
  }

  /**
   * From every reachable state, even if all workers are lost now: within the patience one run of
   * the dispatcher finds the message ready to be handed out.
   */
  lemma BecomesDispatchable(l: Limits, s: State, id: MessageId) returns (steps: seq<Step>)
    requires l.taskLimit < l.lockTimeout && Reachable(l, s)
    requires id in s.messages && !s.messages[id].kind.AutomationRun? && !Done(s.messages[id])
    ensures var s' := Run(l, s, steps);
            && s'.workers == map[] && s'.now == s.now + Patience(l)
            && id in s'.messages && Dispatchable(s'.messages[id], s'.now)
  {
    var losses := ReadyAfterLosses(l, s, id);
    var s0 := Run(l, s, losses);
    AfterWaiting(l, s0);
    var tick, dispatch := DoTick(Patience(l)), DoDispatch(s0.now + Patience(l) - l.lockTimeout);
    steps := losses + [tick, dispatch];
    RunsCompose(l, s, losses, [tick, dispatch]);
    RunOfTwo(l, s0, tick, dispatch);
  }

  lemma RunOfTwo(l: Limits, s: State, a: Step, b: Step)
    ensures Run(l, s, [a, b]) == Next(l, Next(l, s, a), b)
  {
    assert [a, b][1..] == [b];
    assert Run(l, Next(l, s, a), [b]) == Run(l, Next(l, Next(l, s, a), b), []);
  }

  lemma HistoryOfReachable(l: Limits, s: State, steps: seq<Step>)
    requires l.taskLimit < l.lockTimeout && Reachable(l, s)
    ensures Run(l, s, steps).messages.Keys == Run(l, s, steps).history.Keys
  {
    ReachableIsInvariant(l, s);
    RunKeeps(l, s, steps);
  }

  lemma DeliveredAtOnce(l: Limits, s: State, id: MessageId)
    requires s.workers == map[] && id in s.messages && id in s.history && Dispatchable(s.messages[id], s.now)
    ensures var s' := Next(l, Next(l, Next(l, s, DoClaim(0, id)), DoSend(0, true)), DoFinish(0));
            id in s'.messages && s'.messages[id].status.Sent? && s'.now == s.now
  {
    var s1 := Next(l, s, DoClaim(0, id));
    assert 0 in s1.workers && s1.workers[0].message == id && s1.workers[0].phase.Sending? && id in s1.history;
    var s2 := Next(l, s1, DoSend(0, true));
    assert 0 in s2.workers && s2.workers[0].message == id && s2.workers[0].phase.SendSucceeded?;
  }

  /**
   * So from every reachable state every message that is neither finished nor legacy has a
   * continuation within that time after which it is sent.
   */
  lemma EveryMessageCanBeSent(l: Limits, s: State, id: MessageId) returns (steps: seq<Step>)
    requires l.taskLimit < l.lockTimeout && Reachable(l, s)
    requires id in s.messages && !s.messages[id].kind.AutomationRun? && !Done(s.messages[id])
    ensures var s' := Run(l, s, steps);
            id in s'.messages && s'.messages[id].status.Sent? && s'.now == s.now + Patience(l)
  {
    var start := BecomesDispatchable(l, s, id);
    var s1 := Run(l, s, start);
    HistoryOfReachable(l, s, start);
    DeliveredAtOnce(l, s1, id);
    var claim, send, finish := DoClaim(0, id), DoSend(0, true), DoFinish(0);
    steps := start + ([claim] + [send, finish]);
    RunsCompose(l, s, start, [claim] + [send, finish]);
    RunFirst(l, s1, claim, [send, finish]);
    RunOfTwo(l, Next(l, s1, claim), send, finish);
  }
}
