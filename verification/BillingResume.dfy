/** When resuming undoes a pause or a pending cancellation, and what a cancellation leaves covered. */
module BillingResume {
  import opened Wrappers
  import opened Calendar
  import opened Billing
  import opened BillingInvariants
  import opened BillingChain
  import opened BillingTiling

  // ----- the condition

  /** The live charges that a stop on the day cancels. */
  function LaterDues(charges: Charges, day: Date): set<Date> {
    set d | d in LiveDues(charges) && Lt(day, d)
  }

  function KeptDues(charges: Charges, day: Date): set<Date> { LiveDues(charges) - LaterDues(charges, day) }

  predicate IsLast(dates: set<Date>, d: Date) {
    d in dates && forall e | e in dates :: Le(e, d)
  }

  predicate SomeOwes(charges: Charges) {
    exists d | d in LiveDues(charges) :: Outstanding(charges[d]) > 0
  }

  /** The cancelled charges are just the one that resuming brings back, and it is billed next. */
  predicate BringsBack(s: State, kept: set<Date>, later: set<Date>, last: Date) {
    IsLast(kept, last) && s.sub.interval != OneOff
    && later == {NextDue(s.sub, last)} && s.sub.nextBilling == NextDue(s.sub, last)
  }

  /**
   * The condition under which stopping on a day and resuming brings everything back.  A caller
   * can evaluate it before stopping.  With nothing live that started by the day, nothing may
   * start later; with nothing later, a charge must owe or the interval be one-off; otherwise
   * exactly one charge starts later, one interval after the last started one, and it is what the
   * subscription bills next.
   */
  predicate Restorable(s: State, day: Date) {
    var kept, later := KeptDues(s.charges, day), LaterDues(s.charges, day);
    if kept == {} then later == {}
    else if later == {} then s.sub.interval == OneOff || SomeOwes(s.charges)
    else exists last | last in kept :: BringsBack(s, kept, later, last)
  }

  // ----- what stopping and resuming do

  lemma DropKeepsOrCancels(charges: Charges, day: Date)
    requires RowsOk(charges)
    ensures LiveDues(DropAfter(charges, day)) == KeptDues(charges, day)
    ensures forall d | d in charges && d !in LaterDues(charges, day) :: DropAfter(charges, day)[d] == charges[d]
    ensures forall d | d in LaterDues(charges, day) ::
              && charges[d].state.Open?
              && DropAfter(charges, day)[d] == charges[d].(state := ChargeState.Cancelled)
  {
    forall d | d in charges
      ensures d in LaterDues(charges, day) ==>
                && charges[d].state.Open?
                && DropAfter(charges, day)[d] == charges[d].(state := ChargeState.Cancelled)
      ensures d !in LaterDues(charges, day) ==> DropAfter(charges, day)[d] == charges[d]
    {
      assert RowOk(d, charges[d]);
    }
  }

  lemma DropsNothing(charges: Charges, day: Date)
    requires RowsOk(charges)
    ensures DropAfter(charges, day) == charges <==> LaterDues(charges, day) == {}
  {
    DropKeepsOrCancels(charges, day);
    if LaterDues(charges, day) != {} {
      var d :| d in LaterDues(charges, day);
      assert DropAfter(charges, day)[d] != charges[d];
    }
  }

  /** Resuming with nothing live only changes the status. */
  lemma ResumingNothing(s: State, today: Date)
    requires Resumable(s.sub, today) && LiveDues(s.charges) == {}
    ensures Resume(s, today) == Success(s.(sub := Reactivate(s.sub)))
  {
    assert forall d | d in s.charges && Live(s.charges[d]) :: d in LiveDues(s.charges);
  }

  lemma ResumingAfter(s: State, today: Date, last: Date)
    requires Resumable(s.sub, today) && IsLast(LiveDues(s.charges), last)
    ensures Resume(s, today)
         == Success(if Outstanding(s.charges[last]) == 0 && s.sub.interval != OneOff
                    then Reopen(State(Reactivate(s.sub).(nextBilling := NextDue(s.sub, last)), s.charges),
                                NextDue(s.sub, last))
                    else s.(sub := Reactivate(s.sub)))
  {
    forall e | e in s.charges && Live(s.charges[e]) ensures Le(e, last) {
      assert e in LiveDues(s.charges);
    }
    LatestIsUnique(s.charges, last);
  }

  /** Only the last live charge can owe. */
  lemma SomeOwesIsLast(charges: Charges, last: Date)
    requires OnlyLastOwes(charges) && IsLast(LiveDues(charges), last)
    ensures SomeOwes(charges) <==> Outstanding(charges[last]) > 0
  {
    forall d | d in LiveDues(charges) && Outstanding(charges[d]) > 0 ensures d == last {
      if !Lt(d, last) { KeyIsInjective(d, last); }
    }
  }

  /** The state after the stop; only the status and what was dropped differ. */
  function Stopped(s: State, stopped: Subscription, day: Date): State {
    State(stopped, DropAfter(s.charges, day))
  }

  lemma UndoneWithNothingKept(s: State, day: Date, stopped: Subscription, today: Date)
    requires Inv(s) && Reactivate(stopped) == s.sub && Resumable(stopped, today)
    requires KeptDues(s.charges, day) == {}
    ensures Resume(Stopped(s, stopped, day), today) == Success(s) <==> LaterDues(s.charges, day) == {}
  {
    DropKeepsOrCancels(s.charges, day);
    DropsNothing(s.charges, day);
    ResumingNothing(Stopped(s, stopped, day), today);
  }

  lemma UndoneWithNothingLater(s: State, day: Date, stopped: Subscription, today: Date, last: Date)
    requires Inv(s) && Reactivate(stopped) == s.sub && Resumable(stopped, today)
    requires LaterDues(s.charges, day) == {} && IsLast(LiveDues(s.charges), last)
    ensures Resume(Stopped(s, stopped, day), today) == Success(s)
       <==> s.sub.interval == OneOff || SomeOwes(s.charges)
  {
    DropsNothing(s.charges, day);
    ResumingAfter(Stopped(s, stopped, day), today, last);
    SomeOwesIsLast(s.charges, last);
    if Outstanding(s.charges[last]) == 0 && s.sub.interval != OneOff {
      var next := NextDue(s.sub, last);
      AddMonthsIncreases(last, IntervalMonths(s.sub.interval));
      assert next !in LiveDues(s.charges);
      ReopenAddsOne(State(s.sub.(nextBilling := next), s.charges), next);
    }
  }

  lemma SplitDetermines(kept: set<Date>, later: set<Date>, next: Date)
    requires kept * later == {} && next !in kept
    ensures kept + later == kept + {next} <==> later == {next}
  {
    if kept + later == kept + {next} {
      forall d ensures d in later <==> d == next {
        assert d in kept + later <==> d in kept + {next};
      }
    }
  }

  lemma ReopeningRestores(s: State, day: Date, next: Date)
    requires RowsOk(s.charges) && LaterDues(s.charges, day) == {next}
    ensures var dropped := State(s.sub.(nextBilling := next), DropAfter(s.charges, day));
            Reopen(dropped, next).charges == s.charges
  {
    DropKeepsOrCancels(s.charges, day);
    assert next in LaterDues(s.charges, day);
    forall d | d in s.charges && d != next ensures DropAfter(s.charges, day)[d] == s.charges[d] {
      assert d !in LaterDues(s.charges, day);
    }
  }

  lemma UndoneByReopening(s: State, day: Date, next: Date)
    requires RowsOk(s.charges) && next !in KeptDues(s.charges, day)
    ensures var dropped := State(s.sub.(nextBilling := next), DropAfter(s.charges, day));
            Reopen(dropped, next) == s <==> LaterDues(s.charges, day) == {next} && s.sub.nextBilling == next
  {
    var dropped := State(s.sub.(nextBilling := next), DropAfter(s.charges, day));
    var kept, later := KeptDues(s.charges, day), LaterDues(s.charges, day);
    DropKeepsOrCancels(s.charges, day);
    DropIsOk(s.charges, day);
    ReopenAddsOne(dropped, next);
    SplitDetermines(kept, later, next);
    assert LiveDues(s.charges) == kept + later;
    if later == {next} { ReopeningRestores(s, day, next); }
  }

  lemma DropIsOk(charges: Charges, day: Date)
    requires RowsOk(charges)
    ensures RowsOk(DropAfter(charges, day))
  {
    forall d | d in charges ensures RowOk(d, DropAfter(charges, day)[d]) {
      assert RowOk(d, charges[d]);
    }
  }

  lemma LastKeptIsSettled(charges: Charges, day: Date, last: Date)
    requires RowsOk(charges) && OnlyLastOwes(charges)
    requires LaterDues(charges, day) != {} && IsLast(KeptDues(charges, day), last)
    ensures Outstanding(charges[last]) == 0 && DropAfter(charges, day)[last] == charges[last]
    ensures IsLast(LiveDues(DropAfter(charges, day)), last)
  {
    DropKeepsOrCancels(charges, day);
    var d :| d in LaterDues(charges, day);
    assert last in LiveDues(charges) && last !in LaterDues(charges, day);
    assert Lt(last, d);
  }

  lemma UndoneWithSomeLater(s: State, day: Date, stopped: Subscription, today: Date, last: Date)
    requires Inv(s) && Reactivate(stopped) == s.sub && Resumable(stopped, today)
    requires LaterDues(s.charges, day) != {} && IsLast(KeptDues(s.charges, day), last)
    ensures Resume(Stopped(s, stopped, day), today) == Success(s)
       <==> BringsBack(s, KeptDues(s.charges, day), LaterDues(s.charges, day), last)
  {
    LastKeptIsSettled(s.charges, day, last);
    ResumingAfter(Stopped(s, stopped, day), today, last);
    if s.sub.interval != OneOff {
      var next := NextDue(s.sub, last);
      AddMonthsIncreases(last, IntervalMonths(s.sub.interval));
      assert next !in KeptDues(s.charges, day);
      UndoneByReopening(s, day, next);
    } else {
      DropsNothing(s.charges, day);
    }
  }

  lemma LastIsUnique(dates: set<Date>, a: Date, b: Date)
    requires IsLast(dates, a) && IsLast(dates, b)
    ensures a == b
  {
    KeyIsInjective(a, b);
  }

  /**
   * For every state that keeps the invariant, whatever was edited before: dropping everything
   * after a day and resuming restores the state if and only if it is `Restorable`.
   */
  lemma DropThenResume(s: State, day: Date, stopped: Subscription, today: Date)
    requires Inv(s) && Reactivate(stopped) == s.sub && Resumable(stopped, today)
    ensures Resume(Stopped(s, stopped, day), today) == Success(s) <==> Restorable(s, day)
  {
    var kept, later := KeptDues(s.charges, day), LaterDues(s.charges, day);
    if kept == {} {
      UndoneWithNothingKept(s, day, stopped, today);
    } else {
      var last := Greatest(kept);
      if later == {} {
        assert kept == LiveDues(s.charges);
        UndoneWithNothingLater(s, day, stopped, today, last);
      } else {
        UndoneWithSomeLater(s, day, stopped, today, last);
        forall d | BringsBack(s, kept, later, d) ensures d == last {
          LastIsUnique(kept, d, last);
        }
      }
    }
  }

  /**
   * In every reachable state: pausing an active subscription on one day and resuming it on any
   * day on which it can be resumed gives back exactly the state before (status, every charge with
   * its amounts, and the next billing date) if and only if it was `Restorable`.
   */
  lemma PauseThenResume(s: State, pausedOn: Date, resumedOn: Date)
    requires Reachable(s)
    ensures s.sub.status.Active? && Resumable(Pause(s, pausedOn).sub, resumedOn) ==>
              (Resume(Pause(s, pausedOn), resumedOn) == Success(s) <==> Restorable(s, pausedOn))
  {
    ReachableIsInvariant(s);
    if s.sub.status.Active? && Resumable(Pause(s, pausedOn).sub, resumedOn) {
      DropThenResume(s, pausedOn, Pause(s, pausedOn).sub, resumedOn);
    }
  }

  /** The same for a cancellation at the end of the period that has not taken effect yet. */
  lemma CancelThenResume(s: State, cancelledOn: Date, now: Instant, resumedOn: Date)
    requires Reachable(s)
    ensures var stopped := Cancel(s, false, cancelledOn, now);
            s.sub.status.Active? && Resumable(stopped.sub, resumedOn) ==>
              (Resume(stopped, resumedOn) == Success(s) <==> Restorable(s, CancelDay(s, false, cancelledOn)))
  {
    ReachableIsInvariant(s);
    var stopped := Cancel(s, false, cancelledOn, now);
    if s.sub.status.Active? && Resumable(stopped.sub, resumedOn) {
      DropThenResume(s, CancelDay(s, false, cancelledOn), stopped.sub, resumedOn);
    }
  }

  // ----- with a fixed interval

  /** While the interval is fixed, the later charge needs no comparison with the last kept one. */
  predicate SimplyRestorable(s: State, day: Date) {
    var live, later := LiveDues(s.charges), LaterDues(s.charges, day);
    if live == {} then true
    else if later == {} then SomeOwes(s.charges)
    else later != live && later == {s.sub.nextBilling}
  }

  /** The one later charge is due one interval after the last kept one. */
  lemma OnlyLaterIsNext(s: State, day: Date, last: Date, later: Date)
    requires Inv(s) && CoversInterval(s) && AllMeet(s.charges)
    requires LaterDues(s.charges, day) == {later} && IsLast(KeptDues(s.charges, day), last)
    ensures later == NextDue(s.sub, last)
  {
    assert last in LiveDues(s.charges) && later in LiveDues(s.charges);
    forall d | d in s.charges && Live(s.charges[d]) ensures Le(d, last) || Le(later, d) {
      assert d in LiveDues(s.charges);
      if d !in KeptDues(s.charges, day) { assert d in LaterDues(s.charges, day); }
    }
    assert Lt(last, later) by { assert later in LaterDues(s.charges, day) && last !in LaterDues(s.charges, day); }
    assert Neighbours(s.charges, last, later);
  }

  lemma SimplyBringsBack(s: State, day: Date, last: Date)
    requires Inv(s) && CoversInterval(s) && AllMeet(s.charges)
    requires IsLast(KeptDues(s.charges, day), last)
    ensures var later := LaterDues(s.charges, day);
            BringsBack(s, KeptDues(s.charges, day), later, last) <==> later == {s.sub.nextBilling}
  {
    if LaterDues(s.charges, day) == {s.sub.nextBilling} { OnlyLaterIsNext(s, day, last, s.sub.nextBilling); }
  }

  lemma FixedIntervalRestorable(s: State, day: Date)
    requires Inv(s) && CoversInterval(s) && AllMeet(s.charges)
    ensures Restorable(s, day) <==> SimplyRestorable(s, day)
  {
    var live, kept, later := LiveDues(s.charges), KeptDues(s.charges, day), LaterDues(s.charges, day);
    assert live == kept + later && kept * later == {};
    if kept != {} && later != {} {
      var last := Greatest(kept);
      SimplyBringsBack(s, day, last);
      forall d | BringsBack(s, kept, later, d) ensures d == last {
        LastIsUnique(kept, d, last);
      }
    }
  }

  /** In every run with a fixed interval the charges meet. */
  lemma FixedIntervalMeets(sub: Subscription, steps: seq<Step>)
    requires FixedIntervalRun(sub, steps)
    ensures var s := Run(Init(sub), steps);
            Inv(s) && CoversInterval(s) && AllMeet(s.charges)
  {
    var n, k := FixedIntervalIsChained(sub, steps);
    var s := Run(Init(sub), steps);
    forall a, b | Neighbours(s.charges, a, b) ensures NextDay(s.charges[a].coverageEnd) == b {
      NeighboursMeet(sub, steps, a, b);
      assert RowOk(b, s.charges[b]);
    }
  }

  /** So then stopping and resuming restores the state if and only if it is `SimplyRestorable`. */
  lemma UndoneWithFixedInterval(sub: Subscription, steps: seq<Step>, day: Date, stopped: Subscription, today: Date)
    requires FixedIntervalRun(sub, steps)
    ensures var s := Run(Init(sub), steps);
            Reactivate(stopped) == s.sub && Resumable(stopped, today) ==>
              (Resume(Stopped(s, stopped, day), today) == Success(s) <==> SimplyRestorable(s, day))
  {
    var s := Run(Init(sub), steps);
    FixedIntervalMeets(sub, steps);
    FixedIntervalRestorable(s, day);
    if Reactivate(stopped) == s.sub && Resumable(stopped, today) { DropThenResume(s, day, stopped, today); }
  }

  // ----- the ordinary stop

  /**
   * The ordinary situation: the day lies in the coverage of a live charge, at most one live
   * charge starts later, and the latest live charge owes and is billed next.
   */
  predicate Ordinary(s: State, day: Date, current: Date, latest: Date) {
    && current in LiveDues(s.charges) && Covers(s.charges[current], day)
    && (forall a, b | a in LaterDues(s.charges, day) && b in LaterDues(s.charges, day) :: a == b)
    && IsLast(LiveDues(s.charges), latest)
    && Outstanding(s.charges[latest]) > 0 && s.sub.nextBilling == latest
  }

  lemma OrdinaryStopIsRestorable(s: State, day: Date, current: Date, latest: Date)
    requires Inv(s) && CoversInterval(s) && AllMeet(s.charges) && Ordinary(s, day, current, latest)
    ensures Restorable(s, day)
  {
    var later := LaterDues(s.charges, day);
    assert RowOk(current, s.charges[current]);
    assert current !in later;
    if later != {} {
      var d :| d in later;
      assert Lt(day, d) && Le(d, latest);
      assert latest in later;
      assert later == {latest};
    }
    FixedIntervalRestorable(s, day);
  }

  /** Whenever a charge is live, there is a current one. */
  lemma NothingLive(charges: Charges, today: Date)
    requires RowsOk(charges) && CurrentDue(charges, today).None?
    ensures forall d | d in charges :: !Live(charges[d])
  {
    if d :| d in charges && Live(charges[d]) {
      assert d in LiveDues(charges);
      var c := SomeCurrent(charges, today, LiveDues(charges));
      assert IsCurrent(charges, today, c);
    }
  }

  /** The current charge among some live ones. */
  lemma {:induction false} SomeCurrent(charges: Charges, today: Date, dues: set<Date>) returns (c: Date)
    requires dues != {} && dues <= LiveDues(charges)
    ensures c in dues
    ensures if Le(charges[c].coverageStart, today) then
              forall e | e in dues && Le(charges[e].coverageStart, today) ::
                Le(charges[e].coverageStart, charges[c].coverageStart)
            else
              forall e | e in dues :: Le(charges[c].coverageStart, charges[e].coverageStart)
  {
    var d :| d in dues;
    var rest := dues - {d};
    if rest == {} {
      c := d;
      assert dues == {d};
    } else {
      c := SomeCurrent(charges, today, rest);
      var cs, ds := charges[c].coverageStart, charges[d].coverageStart;
      if Le(cs, today) {
        if Le(ds, today) && Lt(cs, ds) { c := d; }
      } else if Le(ds, today) || Lt(ds, cs) {
        c := d;
      }
      forall e | e in dues ensures e == d || e in rest {
      }
    }
  }

  /** The period that a cancellation ends with contains the day. */
  lemma CurrentEndsLater(s: State, today: Date, current: Date)
    requires Inv(s) && CoversInterval(s)
    requires current in LiveDues(s.charges) && Covers(s.charges[current], today)
    ensures var c := CurrentDue(s.charges, today);
            && c.Some? && c.value in LiveDues(s.charges)
            && Le(c.value, today) && Le(today, s.charges[c.value].coverageEnd)
  {
    var c := SomeCurrent(s.charges, today, LiveDues(s.charges));
    assert IsCurrent(s.charges, today, c);
    var d := CurrentDue(s.charges, today).value;
    assert RowOk(current, s.charges[current]) && RowOk(d, s.charges[d]);
    AddMonthsIsMonotone(current, d, IntervalMonths(s.sub.interval));
    IntervalCovers(s.sub.interval, current, today);
    IntervalCovers(s.sub.interval, d, today);
  }

  lemma OrdinaryAtTheEnd(s: State, today: Date, current: Date, latest: Date)
    requires Inv(s) && CoversInterval(s) && AllMeet(s.charges) && Ordinary(s, today, current, latest)
    ensures Restorable(s, CancelDay(s, false, today))
  {
    CurrentEndsLater(s, today, current);
    var c := CurrentDue(s.charges, today).value;
    var end := s.charges[c].coverageEnd;
    assert RowOk(c, s.charges[c]);
    assert LaterDues(s.charges, end) <= LaterDues(s.charges, today);
    OrdinaryStopIsRestorable(s, end, c, latest);
  }

  /**
   * In every run with a fixed interval the ordinary stop is undone: pausing, or cancelling at the
   * end of the period, and resuming before it takes effect gives back exactly the state before.
   */
  lemma OrdinaryStopIsUndone(sub: Subscription, steps: seq<Step>, today: Date, now: Instant, resumedOn: Date,
                             current: Date, latest: Date)
    requires FixedIntervalRun(sub, steps)
    ensures var s := Run(Init(sub), steps);
            var cancelled := Cancel(s, false, today, now);
            s.sub.status.Active? && Ordinary(s, today, current, latest) ==>
              && (Resumable(Pause(s, today).sub, resumedOn) ==> Resume(Pause(s, today), resumedOn) == Success(s))
              && (Resumable(cancelled.sub, resumedOn) ==> Resume(cancelled, resumedOn) == Success(s))
  {
    var s := Run(Init(sub), steps);
    FixedIntervalMeets(sub, steps);
    assert Reachable(s);
    PauseThenResume(s, today, resumedOn);
    CancelThenResume(s, today, now, resumedOn);
    if s.sub.status.Active? && Ordinary(s, today, current, latest) {
      OrdinaryStopIsRestorable(s, today, current, latest);
      OrdinaryAtTheEnd(s, today, current, latest);
    }
  }

  // ----- what a cancellation leaves covered

  ghost predicate Covered(charges: Charges, day: Date) {
    exists d :: d in charges && Live(charges[d]) && Covers(charges[d], day)
  }

  /** Every live charge that starts by the day also ends by then. */
  predicate NoneOutlasts(charges: Charges, end: Date) {
    forall d | d in LiveDues(charges) && Le(d, end) :: Le(charges[d].coverageEnd, end)
  }

  lemma DropCutsCoverage(charges: Charges, end: Date, day: Date)
    requires RowsOk(charges) && NoneOutlasts(charges, end)
    ensures Covered(DropAfter(charges, end), day) == (Covered(charges, day) && Le(day, end))
  {
    var dropped := DropAfter(charges, end);
    DropKeepsOrCancels(charges, end);
    if Covered(dropped, day) {
      var d :| d in dropped && Live(dropped[d]) && Covers(dropped[d], day);
      assert d in LiveDues(dropped) && d in LiveDues(charges);
    }
    if Covered(charges, day) && Le(day, end) {
      var d :| d in charges && Live(charges[d]) && Covers(charges[d], day);
      assert RowOk(d, charges[d]);
      assert d in LiveDues(charges) && d !in LaterDues(charges, end);
      assert dropped[d] == charges[d];
    }
  }

  /** A kept charge that outlasts the day shows it on its own last day. */
  lemma OutlastingShows(charges: Charges, end: Date, d: Date)
    requires RowsOk(charges) && d in LiveDues(charges) && Le(d, end) && Lt(end, charges[d].coverageEnd)
    ensures Covered(DropAfter(charges, end), charges[d].coverageEnd)
  {
    DropKeepsOrCancels(charges, end);
    assert RowOk(d, charges[d]);
    assert d !in LaterDues(charges, end);
    assert DropAfter(charges, end)[d] == charges[d];
  }

  /**
   * In every reachable state: a cancellation keeps exactly the coverage up to its effective date
   * if and only if no live charge that starts by then ends later.
   */
  lemma CancelEndsCoverage(s: State, immediate: bool, today: Date, now: Instant)
    requires Reachable(s)
    ensures var stopped := Cancel(s, immediate, today, now);
            var end := CancelDay(s, immediate, today);
            && stopped.sub.cancelDate == Some(end)
            && ((forall day :: Covered(stopped.charges, day) == (Covered(s.charges, day) && Le(day, end)))
                <==> NoneOutlasts(s.charges, end))
  {
    ReachableIsInvariant(s);
    var end := CancelDay(s, immediate, today);
    if NoneOutlasts(s.charges, end) {
      forall day ensures Covered(DropAfter(s.charges, end), day) == (Covered(s.charges, day) && Le(day, end)) {
        DropCutsCoverage(s.charges, end, day);
      }
    } else {
      var d :| d in LiveDues(s.charges) && Le(d, end) && !Le(s.charges[d].coverageEnd, end);
      OutlastingShows(s.charges, end, d);
    }
  }

  /** With a fixed interval no charge outlasts the current one. */
  lemma CurrentIsNotOutlasted(s: State, today: Date)
    requires Inv(s) && CoversInterval(s) && AllMeet(s.charges)
    ensures NoneOutlasts(s.charges, CancelDay(s, false, today))
  {
    var current := CurrentDue(s.charges, today);
    if current.Some? {
      var c, end := current.value, s.charges[current.value].coverageEnd;
      forall d | d in LiveDues(s.charges) && Le(d, end) ensures Le(s.charges[d].coverageEnd, end) {
        if Lt(c, d) { EndsBeforeLater(s.charges, c, d); }
        AddMonthsIsMonotone(d, c, IntervalMonths(s.sub.interval));
        IntervalCovers(s.sub.interval, d, s.charges[d].coverageEnd);
        IntervalCovers(s.sub.interval, c, s.charges[d].coverageEnd);
      }
    } else {
      NothingLive(s.charges, today);
    }
  }

  /** So then a cancellation at the end of the period cuts the coverage exactly there. */
  lemma PeriodEndsCoverage(sub: Subscription, steps: seq<Step>, today: Date, now: Instant, day: Date)
    requires FixedIntervalRun(sub, steps)
    ensures var s := Run(Init(sub), steps);
            var stopped := Cancel(s, false, today, now);
            Covered(stopped.charges, day) == (Covered(s.charges, day) && Le(day, stopped.sub.cancelDate.value))
  {
    var s := Run(Init(sub), steps);
    FixedIntervalMeets(sub, steps);
    CurrentIsNotOutlasted(s, today);
    DropCutsCoverage(s.charges, CancelDay(s, false, today), day);
  }
}
