/** Concrete runs of one subscription at which the billing properties with a condition fail. */
module BillingExamples {
  import opened Wrappers
  import opened Calendar
  import opened Billing
  import opened BillingInvariants
  import opened BillingChain
  import opened BillingResume
  import opened BillingTiling

  /** An untaxed renewing subscription over one euro, first billed on the given day. */
  function Example(interval: Interval, first: Date): Subscription {
    Subscription(100, 0, "EUR", interval, first, first, None, None, None, true, Active)
  }

  function IntervalEdit(interval: Interval): Step {
    DoUpdate(Edit(None, None, None, Some(interval), None, None, None, None))
  }

  function PayOff(due: Date): Step { DoPay(due, 100, due) }

  function Unpaid(interval: Interval, due: Date): Charge {
    Charge(due, PeriodEnd(interval, due), 100, 0, 0, 100, "EUR", Open, [])
  }

  function PaidOff(interval: Interval, due: Date): Charge {
    Unpaid(interval, due).(payments := [Payment(100, due)])
  }

  lemma RunOfTwo(s: State, a: Step, b: Step)
    ensures Run(s, [a, b]) == After(After(s, a), b)
  {
    var s1 := After(s, a);
    assert [a, b][1..] == [b] && [b][1..] == [];
    assert Run(s1, [b]) == Run(After(s1, b), []);
  }

  lemma Untaxed(interval: Interval, first: Date)
    ensures TaxAmount(Example(interval, first)) == 0 && GrossPrice(Example(interval, first)) == 100
    ensures ValidNew(Example(interval, first))
  {
  }

  lemma Starting(interval: Interval, first: Date)
    ensures Init(Example(interval, first)) == State(Example(interval, first), map[first := Unpaid(interval, first)])
  {
    Untaxed(interval, first);
  }

  lemma NewIsUnpaid(sub: Subscription, interval: Interval, first: Date, due: Date)
    requires sub == Example(interval, first).(nextBilling := sub.nextBilling)
    ensures NewCharge(sub, due) == Unpaid(interval, due)
  {
    Untaxed(interval, first);
  }

  lemma PaidOffIsSettled(interval: Interval, due: Date)
    ensures Outstanding(PaidOff(interval, due)) == 0 && PaidOff(interval, due).state.Open?
  {
    TotalOfAppend([], Payment(100, due));
    assert [] + [Payment(100, due)] == [Payment(100, due)];
  }

  lemma Paying(s: State, interval: Interval, due: Date)
    requires due in s.charges && s.charges[due] == Unpaid(interval, due)
    ensures After(s, PayOff(due)) == Advance(s.(charges := s.charges[due := PaidOff(interval, due)]), due)
  {
    assert [] + [Payment(100, due)] == [Payment(100, due)];
  }

  /** Paying off a charge of the example whose next due date is free. */
  lemma PayingOff(s: State, interval: Interval, first: Date, created: Interval, due: Date)
    requires interval != OneOff && s.sub == Example(interval, first).(nextBilling := s.sub.nextBilling)
    requires due in s.charges && s.charges[due] == Unpaid(created, due)
    requires NextDue(s.sub, due) !in s.charges
    ensures var next := NextDue(s.sub, due);
            After(s, PayOff(due)) == State(s.sub.(nextBilling := next),
                                           s.charges[due := PaidOff(created, due)][next := Unpaid(interval, next)])
  {
    Paying(s, created, due);
    PaidOffIsSettled(created, due);
    AdvanceEffect(s.(charges := s.charges[due := PaidOff(created, due)]), due);
    NewIsUnpaid(s.sub, interval, first, NextDue(s.sub, due));
  }

  lemma TwoRows(a: Date, b: Date, before: Charge, after: Charge, added: Charge)
    requires a != b
    ensures map[a := before][a := after][b := added] == map[a := after, b := added]
  {
  }

  lemma FirstPaid(s: State, interval: Interval, first: Date, next: Date)
    requires interval != OneOff && next == AddMonths(first, IntervalMonths(interval))
    requires s.sub == Example(interval, first) && s.charges == map[first := Unpaid(interval, first)]
    ensures After(s, PayOff(first))
         == State(Example(interval, first).(nextBilling := next),
                  map[first := PaidOff(interval, first), next := Unpaid(interval, next)])
  {
    AddMonthsIncreases(first, IntervalMonths(interval));
    PayingOff(s, interval, first, interval, first);
    TwoRows(first, next, Unpaid(interval, first), PaidOff(interval, first), Unpaid(interval, next));
  }

  lemma EditingInterval(s: State, interval: Interval)
    requires SubscriptionConstraints(s.sub)
    ensures After(s, IntervalEdit(interval)) == s.(sub := s.sub.(interval := interval))
  {
  }

  lemma ResumingCreates(s: State, today: Date, latest: Date)
    requires Resumable(s.sub, today) && s.sub.interval != OneOff
    requires IsLatest(s.charges, latest) && Outstanding(s.charges[latest]) == 0
    requires NextDue(s.sub, latest) !in s.charges
    ensures var next := NextDue(s.sub, latest);
            var sub := Reactivate(s.sub).(nextBilling := next);
            After(s, DoResume(today)) == State(sub, s.charges[next := NewCharge(sub, next)])
  {
    KeyIsInjective(LatestDue(s.charges).value, latest);
  }

  lemma {:induction false} RunsCompose(s: State, a: seq<Step>, b: seq<Step>)
    ensures Run(s, a + b) == Run(Run(s, a), b)
    decreases |a|
  {
    if a == [] {
      assert a + b == b;
    } else {
      assert (a + b)[1..] == a[1..] + b;
      RunsCompose(After(s, a[0]), a[1..], b);
    }
  }

  // ----- edits of the interval

  /** The two charges after the edit. */
  function Edited(created: Interval, interval: Interval, first: Date): Charges {
    var next := NextDue(Example(interval, first), first);
    map[first := PaidOff(created, first), next := Unpaid(interval, next)]
  }

  /** The interval is edited before the first charge is paid off. */
  lemma EditThenPay(created: Interval, interval: Interval, first: Date)
    requires interval != OneOff
    ensures Run(Init(Example(created, first)), [IntervalEdit(interval), PayOff(first)]).charges
         == Edited(created, interval, first)
  {
    var s := Init(Example(created, first));
    var next := NextDue(Example(interval, first), first);
    Starting(created, first);
    EditingInterval(s, interval);
    var s1 := After(s, IntervalEdit(interval));
    AddMonthsIncreases(first, IntervalMonths(interval));
    PayingOff(s1, interval, first, created, first);
    TwoRows(first, next, Unpaid(created, first), PaidOff(created, first), Unpaid(interval, next));
    RunOfTwo(s, IntervalEdit(interval), PayOff(first));
  }

  lemma MonthsDecide(first: Date, a: nat, b: nat)
    ensures Lt(AddMonths(first, a), AddMonths(first, b)) <==> a < b
  {
  }

  lemma EditedOverlap(created: Interval, interval: Interval, first: Date)
    requires 0 < IntervalMonths(interval) < IntervalMonths(created)
    ensures var next := NextDue(Example(interval, first), first);
            && first in Edited(created, interval, first) && next in Edited(created, interval, first)
            && first != next
            && Live(Edited(created, interval, first)[first]) && Live(Edited(created, interval, first)[next])
            && Covers(Edited(created, interval, first)[first], next)
            && Covers(Edited(created, interval, first)[next], next)
  {
    AddMonthsIncreases(first, IntervalMonths(interval));
    MonthsDecide(first, IntervalMonths(interval), IntervalMonths(created));
    IntervalCovers(created, first, NextDue(Example(interval, first), first));
  }

  lemma EditedGap(created: Interval, interval: Interval, first: Date)
    requires 0 < IntervalMonths(created) < IntervalMonths(interval)
    ensures var charges, day := Edited(created, interval, first), AddMonths(first, IntervalMonths(created));
            && CoversFrom(charges, day) && CoversUntil(charges, day)
            && forall d | d in charges :: !Covers(charges[d], day)
  {
    var day, next := AddMonths(first, IntervalMonths(created)), NextDue(Example(interval, first), first);
    var charges := Edited(created, interval, first);
    AddMonthsIncreases(first, IntervalMonths(created));
    MonthsDecide(first, IntervalMonths(created), IntervalMonths(interval));
    IntervalCovers(created, first, day);
    assert Live(charges[first]) && Live(charges[next]);
    forall d | d in charges ensures !Covers(charges[d], day) {
      assert d == first || d == next;
    }
  }

  /** After an edit to a shorter interval the first two charges always overlap. */
  lemma IntervalEditsOverlap(created: Interval, interval: Interval, first: Date) returns (steps: seq<Step>, day: Date)
    requires 0 < IntervalMonths(interval) < IntervalMonths(created)
    ensures ValidNew(Example(created, first)) && day != first
    ensures var charges := Run(Init(Example(created, first)), steps).charges;
            && first in charges && Live(charges[first]) && Covers(charges[first], day)
            && day in charges && Live(charges[day]) && Covers(charges[day], day)
  {
    steps, day := [IntervalEdit(interval), PayOff(first)], NextDue(Example(interval, first), first);
    Untaxed(created, first);
    EditThenPay(created, interval, first);
    EditedOverlap(created, interval, first);
  }

  /** After an edit to a longer one there is always a gap between them. */
  lemma IntervalEditsLeaveGaps(created: Interval, interval: Interval, first: Date) returns (steps: seq<Step>, day: Date)
    requires 0 < IntervalMonths(created) < IntervalMonths(interval)
    ensures ValidNew(Example(created, first))
    ensures var charges := Run(Init(Example(created, first)), steps).charges;
            && CoversFrom(charges, day) && CoversUntil(charges, day)
            && forall d | d in charges :: !Covers(charges[d], day)
  {
    steps, day := [IntervalEdit(interval), PayOff(first)], AddMonths(first, IntervalMonths(created));
    Untaxed(created, first);
    EditThenPay(created, interval, first);
    EditedGap(created, interval, first);
  }

  // ----- stopping and resuming

  lemma PausedIsResumable(s: State, day: Date)
    requires s.sub.endDate.None?
    ensures Resumable(Pause(s, day).sub, day) && Resume(Pause(s, day), day).Success?
  {
  }

  lemma AllLaterIsNotRestorable(s: State, day: Date)
    requires LiveDues(s.charges) != {} && LaterDues(s.charges, day) == LiveDues(s.charges)
    ensures !Restorable(s, day)
  {
    assert KeptDues(s.charges, day) == {};
  }

  lemma TwoLaterIsNotRestorable(s: State, day: Date, a: Date, b: Date)
    requires a in LaterDues(s.charges, day) && b in LaterDues(s.charges, day) && a != b
    ensures !Restorable(s, day)
  {
    var later := LaterDues(s.charges, day);
    assert forall last :: later != {NextDue(s.sub, last)};
  }

  /** Before the first coverage starts a pause cancels the first charge, and resuming leaves it so. */
  lemma PauseBeforeCoverage(interval: Interval, first: Date, pausedOn: Date)
    requires interval != OneOff && Lt(pausedOn, first)
    ensures FixedIntervalRun(Example(interval, first), [])
    ensures var s := Run(Init(Example(interval, first)), []);
            && Resume(Pause(s, pausedOn), pausedOn).Success?
            && Resume(Pause(s, pausedOn), pausedOn) != Success(s)
  {
    var sub := Example(interval, first);
    var s := Run(Init(sub), []);
    Untaxed(interval, first);
    Starting(interval, first);
    assert first in LiveDues(s.charges) && LiveDues(s.charges) == LaterDues(s.charges, pausedOn);
    AllLaterIsNotRestorable(s, pausedOn);
    PausedIsResumable(s, pausedOn);
    assert Reachable(s);
    PauseThenResume(s, pausedOn, pausedOn);
  }

  /** The example after two charges have been paid in advance. */
  function Ahead(interval: Interval, first: Date, second: Date, third: Date): State {
    State(Example(interval, first).(nextBilling := third),
          map[first := PaidOff(interval, first), second := PaidOff(interval, second),
              third := Unpaid(interval, third)])
  }

  lemma PaidAhead(interval: Interval, first: Date, second: Date, third: Date)
    requires interval != OneOff && second == AddMonths(first, IntervalMonths(interval))
    requires third == AddMonths(second, IntervalMonths(interval))
    ensures Run(Init(Example(interval, first)), [PayOff(first), PayOff(second)])
         == Ahead(interval, first, second, third)
  {
    var s := Init(Example(interval, first));
    Starting(interval, first);
    AddMonthsIncreases(first, IntervalMonths(interval));
    AddMonthsIncreases(second, IntervalMonths(interval));
    FirstPaid(s, interval, first, second);
    PayingOff(After(s, PayOff(first)), interval, first, interval, second);
    RunOfTwo(s, PayOff(first), PayOff(second));
  }

  lemma AheadIsNotRestorable(interval: Interval, first: Date, second: Date, third: Date)
    requires Lt(first, second) && Lt(second, third)
    ensures !Restorable(Ahead(interval, first, second, third), first)
  {
    var s := Ahead(interval, first, second, third);
    assert second in LaterDues(s.charges, first) && third in LaterDues(s.charges, first);
    TwoLaterIsNotRestorable(s, first, second, third);
  }

  /** With two later charges resuming brings back only the first of them. */
  lemma PauseWithTwoLater(interval: Interval, first: Date) returns (steps: seq<Step>)
    requires interval != OneOff
    ensures FixedIntervalRun(Example(interval, first), steps)
    ensures var s := Run(Init(Example(interval, first)), steps);
            && Resume(Pause(s, first), first).Success?
            && Resume(Pause(s, first), first) != Success(s)
  {
    var second := AddMonths(first, IntervalMonths(interval));
    var third := AddMonths(second, IntervalMonths(interval));
    steps := [PayOff(first), PayOff(second)];
    Untaxed(interval, first);
    PaidAhead(interval, first, second, third);
    AddMonthsIncreases(first, IntervalMonths(interval));
    AddMonthsIncreases(second, IntervalMonths(interval));
    AheadIsNotRestorable(interval, first, second, third);
    var s := Run(Init(Example(interval, first)), steps);
    assert Reachable(s);
    PausedIsResumable(s, first);
    PauseThenResume(s, first, first);
  }

  lemma ElsewhereIsNotRestorable(s: State, day: Date, last: Date, later: Date)
    requires KeptDues(s.charges, day) == {last} && LaterDues(s.charges, day) == {later}
    requires later != NextDue(s.sub, last)
    ensures !Restorable(s, day)
  {
  }

  /** The first charge is paid, then the interval is edited. */
  lemma PayThenEdit(created: Interval, interval: Interval, first: Date, second: Date)
    requires created != OneOff && second == AddMonths(first, IntervalMonths(created))
    ensures Run(Init(Example(created, first)), [PayOff(first), IntervalEdit(interval)])
         == State(Example(interval, first).(nextBilling := second),
                  map[first := PaidOff(created, first), second := Unpaid(created, second)])
  {
    var s := Init(Example(created, first));
    Untaxed(created, first);
    Starting(created, first);
    FirstPaid(s, created, first, second);
    EditingInterval(After(s, PayOff(first)), interval);
    RunOfTwo(s, PayOff(first), IntervalEdit(interval));
  }

  lemma TwoRowsSplit(s: State, first: Date, second: Date, a: Charge, b: Charge)
    requires Lt(first, second) && s.charges == map[first := a, second := b] && Live(a) && Live(b)
    ensures KeptDues(s.charges, first) == {first} && LaterDues(s.charges, first) == {second}
    ensures LiveDues(s.charges) == {first, second}
  {
  }

  /**
   * An edit of the interval breaks the ordinary case: the one later charge is billed next and
   * owes, and yet it stays cancelled, because resuming looks one new interval ahead.
   */
  lemma PauseAfterEdit(created: Interval, interval: Interval, first: Date) returns (steps: seq<Step>)
    requires created != OneOff && IntervalMonths(interval) != IntervalMonths(created)
    ensures ValidNew(Example(created, first))
    ensures var s := Run(Init(Example(created, first)), steps);
            && SimplyRestorable(s, first) && SomeOwes(s.charges)
            && Resume(Pause(s, first), first).Success?
            && Resume(Pause(s, first), first) != Success(s)
  {
    var second := AddMonths(first, IntervalMonths(created));
    steps := [PayOff(first), IntervalEdit(interval)];
    var s := Run(Init(Example(created, first)), steps);
    Untaxed(created, first);
    PayThenEdit(created, interval, first, second);
    AddMonthsIncreases(first, IntervalMonths(created));
    TwoRowsSplit(s, first, second, PaidOff(created, first), Unpaid(created, second));
    MonthsDecide(first, IntervalMonths(created), IntervalMonths(interval));
    MonthsDecide(first, IntervalMonths(interval), IntervalMonths(created));
    ElsewhereIsNotRestorable(s, first, first, second);
    assert Outstanding(Unpaid(created, second)) == 100;
    assert Reachable(s);
    PausedIsResumable(s, first);
    PauseThenResume(s, first, first);
  }

  // ----- coverage after a cancellation

  lemma CurrentOfTwo(charges: Charges, first: Date, second: Date, a: Charge, b: Charge)
    requires Lt(first, second) && charges == map[first := a, second := b] && Live(a) && Live(b)
    requires a.coverageStart == first && b.coverageStart == second
    ensures CurrentDue(charges, second) == Some(second)
  {
    assert IsCurrent(charges, second, second);
    var c := CurrentDue(charges, second).value;
    assert c == first || c == second;
    KeyIsInjective(charges[c].coverageStart, second);
  }

  lemma OutlastsWhenCancelled(s: State, today: Date, now: Instant, current: Date, d: Date)
    requires CurrentDue(s.charges, today) == Some(current)
    requires current in s.charges && d in s.charges && Live(s.charges[d])
    requires var end := s.charges[current].coverageEnd;
             Le(s.charges[d].coverageStart, end) && Lt(end, s.charges[d].coverageEnd)
    ensures var stopped := Cancel(s, false, today, now);
            && stopped.sub.cancelDate == Some(s.charges[current].coverageEnd)
            && Covered(stopped.charges, s.charges[d].coverageEnd)
  {
    var dropped := DropAfter(s.charges, s.charges[current].coverageEnd);
    assert d in dropped && Live(dropped[d]) && Covers(dropped[d], s.charges[d].coverageEnd);
  }

  /**
   * After an edit from a long interval to a short one the first charge outlasts the second, and
   * with it the date on which a cancellation is said to take effect.
   */
  lemma CoverageOutlastsCancellation(created: Interval, interval: Interval, first: Date, now: Instant)
    returns (steps: seq<Step>, today: Date, day: Date)
    requires 0 < 2 * IntervalMonths(interval) < IntervalMonths(created)
    ensures ValidNew(Example(created, first))
    ensures var stopped := Cancel(Run(Init(Example(created, first)), steps), false, today, now);
            && stopped.sub.cancelDate.Some? && Lt(stopped.sub.cancelDate.value, day)
            && Covered(stopped.charges, day)
  {
    var second := NextDue(Example(interval, first), first);
    var s := Run(Init(Example(created, first)), [IntervalEdit(interval), PayOff(first)]);
    steps, today, day := [IntervalEdit(interval), PayOff(first)], second, PeriodEnd(created, first);
    Untaxed(created, first);
    EditThenPay(created, interval, first);
    AddMonthsIncreases(first, IntervalMonths(interval));
    CurrentOfTwo(s.charges, first, second, PaidOff(created, first), Unpaid(interval, second));
    EndsEarlier(created, interval, first, second);
    OutlastsWhenCancelled(s, second, now, second, first);
  }

  lemma EndsEarlier(created: Interval, interval: Interval, first: Date, second: Date)
    requires 0 < 2 * IntervalMonths(interval) < IntervalMonths(created)
    requires second == AddMonths(first, IntervalMonths(interval))
    ensures Le(first, PeriodEnd(interval, second)) && Lt(PeriodEnd(interval, second), PeriodEnd(created, first))
  {
    var third := AddMonths(second, IntervalMonths(interval));
    AddMonthsIncreases(first, IntervalMonths(interval));
    IntervalCovers(interval, second, PeriodEnd(created, first));
    IntervalCovers(created, first, PeriodEnd(created, first));
    IntervalCovers(created, first, third);
    assert MonthIndex(third) < MonthIndex(AddMonths(first, IntervalMonths(created)));
  }

  // ----- resuming against the agreement

  /** An example that ends on its first day and does not renew. */
  function Ending(interval: Interval, first: Date): Subscription {
    Example(interval, first).(endDate := Some(first), autoRenew := false)
  }

  lemma PaidWithoutRenewal(s: State, interval: Interval, first: Date)
    requires s == State(Ending(interval, first), map[first := Unpaid(interval, first)])
    ensures After(s, PayOff(first)) == State(Ending(interval, first), map[first := PaidOff(interval, first)])
  {
    Paying(s, interval, first);
    assert s.charges[first := PaidOff(interval, first)] == map[first := PaidOff(interval, first)];
  }

  lemma StartingEnding(interval: Interval, first: Date)
    ensures ValidNew(Ending(interval, first))
    ensures Init(Ending(interval, first)) == State(Ending(interval, first), map[first := Unpaid(interval, first)])
  {
    Untaxed(interval, first);
  }

  lemma PausedWhenPaid(s: State, interval: Interval, first: Date)
    requires s == State(Ending(interval, first), map[first := PaidOff(interval, first)])
    ensures After(s, DoPause(first)) == s.(sub := s.sub.(status := Status.Paused))
  {
    assert DropAfter(s.charges, first) == s.charges;
  }

  /** Resuming bills a subscription that does not renew, and after its end date. */
  lemma ResumeAgainstAgreement(interval: Interval, first: Date) returns (steps: seq<Step>, due: Date)
    requires interval != OneOff
    ensures ValidNew(Ending(interval, first))
    ensures var s := Run(Init(Ending(interval, first)), steps);
            && due in LiveDues(s.charges) && !s.sub.autoRenew
            && s.sub.endDate.Some? && Lt(s.sub.endDate.value, due)
  {
    var s := Init(Ending(interval, first));
    StartingEnding(interval, first);
    PaidWithoutRenewal(s, interval, first);
    var s1 := After(s, PayOff(first));
    PausedWhenPaid(s1, interval, first);
    var s2 := After(s1, DoPause(first));
    PaidOffIsSettled(interval, first);
    due := NextDue(s2.sub, first);
    AddMonthsIncreases(first, IntervalMonths(interval));
    ResumingCreates(s2, first, first);
    steps := [PayOff(first), DoPause(first)] + [DoResume(first)];
    RunsCompose(s, [PayOff(first), DoPause(first)], [DoResume(first)]);
    RunOfTwo(s, PayOff(first), DoPause(first));
    RunOfOne(s2, DoResume(first));
  }

  lemma RunOfOne(s: State, a: Step)
    ensures Run(s, [a]) == After(s, a)
  {
    assert [a][1..] == [];
  }

  // ----- a renewal that stalls

  /** Paying off a charge whose next due date is taken. */
  lemma PayingOffBlocked(s: State, first: Date, interval: Interval, due: Date)
    requires interval != OneOff && s.sub == Example(interval, first).(nextBilling := s.sub.nextBilling)
    requires due in s.charges && s.charges[due] == Unpaid(interval, due)
    requires NextDue(s.sub, due) in s.charges
    ensures After(s, PayOff(due)) == State(s.sub.(nextBilling := NextDue(s.sub, due)),
                                           s.charges[due := PaidOff(interval, due)])
  {
    AddMonthsIncreases(due, IntervalMonths(interval));
    Paying(s, interval, due);
    PaidOffIsSettled(interval, due);
    AdvanceEffect(s.(charges := s.charges[due := PaidOff(interval, due)]), due);
  }

  /** A paused subscription whose only live charge is settled gets the next one. */
  lemma Resuming(s: State, interval: Interval, first: Date, latest: Date, nextBilling: Date)
    requires interval != OneOff
    requires s.sub == Example(interval, first).(nextBilling := nextBilling, status := Status.Paused)
    requires IsLatest(s.charges, latest) && Outstanding(s.charges[latest]) == 0
    requires NextDue(s.sub, latest) !in s.charges
    ensures var next := NextDue(s.sub, latest);
            After(s, DoResume(first))
            == State(Example(interval, first).(nextBilling := next), s.charges[next := Unpaid(interval, next)])
  {
    var next := NextDue(s.sub, latest);
    ResumingCreates(s, first, latest);
    NewIsUnpaid(Example(interval, first).(nextBilling := next), interval, first, next);
  }

  lemma QuarterIsThreeMonths(first: Date)
    requires first.d <= 28
    ensures AddMonths(AddMonths(AddMonths(first, 1), 1), 1) == AddMonths(first, 3)
  {
    SameMonthSameDay(AddMonths(AddMonths(AddMonths(first, 1), 1), 1), AddMonths(first, 3));
  }

  /** A settled charge and a later cancelled one. */
  function PausedAhead(interval: Interval, first: Date, next: Date): State {
    State(Example(interval, first).(nextBilling := next, status := Status.Paused),
          map[first := PaidOff(interval, first),
              next := Unpaid(interval, next).(state := ChargeState.Cancelled)])
  }

  lemma DropsLater(day: Date, a: Date, b: Date, kept: Charge, dropped: Charge)
    requires a != b && Le(kept.coverageStart, day) && Lt(day, dropped.coverageStart) && dropped.state.Open?
    ensures DropAfter(map[a := kept, b := dropped], day)
         == map[a := kept, b := dropped.(state := ChargeState.Cancelled)]
  {
  }

  lemma Pausing(s: State, interval: Interval, first: Date, next: Date)
    requires Lt(first, next) && s.sub == Example(interval, first).(nextBilling := next)
    requires s.charges == map[first := PaidOff(interval, first), next := Unpaid(interval, next)]
    ensures After(s, DoPause(first)) == PausedAhead(interval, first, next)
  {
    DropsLater(first, first, next, PaidOff(interval, first), Unpaid(interval, next));
  }

  lemma LatestWhenPaused(interval: Interval, first: Date, next: Date)
    requires first != next
    ensures IsLatest(PausedAhead(interval, first, next).charges, first)
    ensures Outstanding(PausedAhead(interval, first, next).charges[first]) == 0
    ensures PausedAhead(interval, first, next).charges.Keys == {first, next}
  {
    PaidOffIsSettled(interval, first);
  }

  lemma PaidAndPaused(s: State, interval: Interval, first: Date, next: Date)
    requires interval != OneOff && next == AddMonths(first, IntervalMonths(interval))
    requires s.sub == Example(interval, first) && s.charges == map[first := Unpaid(interval, first)]
    ensures Run(s, [PayOff(first), DoPause(first)]) == PausedAhead(interval, first, next)
  {
    AddMonthsIncreases(first, IntervalMonths(interval));
    FirstPaid(s, interval, first, next);
    Pausing(After(s, PayOff(first)), interval, first, next);
    RunOfTwo(s, PayOff(first), DoPause(first));
  }

  lemma EditedAndResumed(s: State, first: Date, nextBilling: Date)
    requires s.sub == Example(Quarterly, first).(nextBilling := nextBilling, status := Status.Paused)
    requires IsLatest(s.charges, first) && Outstanding(s.charges[first]) == 0
    requires AddMonths(first, 1) !in s.charges
    ensures var next := AddMonths(first, 1);
            Run(s, [IntervalEdit(Monthly), DoResume(first)])
            == State(Example(Monthly, first).(nextBilling := next), s.charges[next := Unpaid(Monthly, next)])
  {
    EditingInterval(s, Monthly);
    Resuming(After(s, IntervalEdit(Monthly)), Monthly, first, first, nextBilling);
    RunOfTwo(s, IntervalEdit(Monthly), DoResume(first));
  }

  lemma TwoMonthsPaid(s: State, first: Date, second: Date)
    requires s.sub == Example(Monthly, first).(nextBilling := s.sub.nextBilling)
    requires second in s.charges && s.charges[second] == Unpaid(Monthly, second)
    requires AddMonths(second, 1) !in s.charges && AddMonths(AddMonths(second, 1), 1) in s.charges
    ensures var third := AddMonths(second, 1);
            Run(s, [PayOff(second), PayOff(third)])
            == State(Example(Monthly, first).(nextBilling := AddMonths(third, 1)),
                     s.charges[second := PaidOff(Monthly, second)][third := PaidOff(Monthly, third)])
  {
    var third := AddMonths(second, 1);
    AddMonthsIncreases(second, 1);
    PayingOff(s, Monthly, first, Monthly, second);
    PayingOffBlocked(After(s, PayOff(second)), first, Monthly, third);
    RunOfTwo(s, PayOff(second), PayOff(third));
  }

  lemma MonthsApart(first: Date, second: Date, third: Date, fourth: Date)
    requires second == AddMonths(first, 1) && third == AddMonths(second, 1) && fourth == AddMonths(third, 1)
    ensures Lt(first, second) && Lt(second, third) && Lt(third, fourth)
  {
  }

  /** Everything up to the cancelled charge is paid. */
  function Stalled(first: Date, second: Date, third: Date, fourth: Date): State {
    State(Example(Monthly, first).(nextBilling := fourth),
          PausedAhead(Quarterly, first, fourth).charges
            [second := PaidOff(Monthly, second)][third := PaidOff(Monthly, third)])
  }

  lemma PaidUpToCancelled(s: State, first: Date, second: Date, third: Date, fourth: Date)
    requires second == AddMonths(first, 1) && third == AddMonths(second, 1) && fourth == AddMonths(third, 1)
    requires s.sub == Example(Quarterly, first).(nextBilling := fourth, status := Status.Paused)
    requires IsLatest(s.charges, first) && Outstanding(s.charges[first]) == 0
    requires second !in s.charges && third !in s.charges && fourth in s.charges
    ensures Run(Run(s, [IntervalEdit(Monthly), DoResume(first)]), [PayOff(second), PayOff(third)])
         == State(Example(Monthly, first).(nextBilling := fourth),
                  s.charges[second := PaidOff(Monthly, second)][third := PaidOff(Monthly, third)])
  {
    MonthsApart(first, second, third, fourth);
    EditedAndResumed(s, first, fourth);
    var s1 := Run(s, [IntervalEdit(Monthly), DoResume(first)]);
    TwoMonthsPaid(s1, first, second);
    Overwritten(s.charges, second, third, Unpaid(Monthly, second), PaidOff(Monthly, second), PaidOff(Monthly, third));
  }

  lemma Overwritten(charges: Charges, a: Date, b: Date, old1: Charge, new1: Charge, new2: Charge)
    ensures charges[a := old1][a := new1][b := new2] == charges[a := new1][b := new2]
  {
  }

  lemma NothingOwedWhenStalled(first: Date, second: Date, third: Date, fourth: Date)
    requires Lt(first, second) && Lt(second, third) && Lt(third, fourth)
    ensures var s := Stalled(first, second, third, fourth);
            NothingOwed(s.charges) && fourth in s.charges && !Live(s.charges[fourth])
  {
    var charges := Stalled(first, second, third, fourth).charges;
    PaidOffIsSettled(Quarterly, first);
    PaidOffIsSettled(Monthly, second);
    PaidOffIsSettled(Monthly, third);
    assert charges.Keys == {first, second, third, fourth};
    forall d | d in charges ensures !Editable(charges[d]) {
      assert charges[d] == if d == third then PaidOff(Monthly, third) else if d == second then PaidOff(Monthly, second)
                           else PausedAhead(Quarterly, first, fourth).charges[d];
    }
  }

  lemma RunOfParts(s: State, a: seq<Step>, b: seq<Step>, c: seq<Step>)
    ensures Run(s, a + b + c) == Run(Run(Run(s, a), b), c)
  {
    RunsCompose(s, a, b);
    RunsCompose(s, a + b, c);
  }

  lemma PausedUpToCancelled(first: Date, second: Date, third: Date, fourth: Date)
    requires second == AddMonths(first, 1) && third == AddMonths(second, 1) && fourth == AddMonths(third, 1)
    ensures Run(Run(PausedAhead(Quarterly, first, fourth), [IntervalEdit(Monthly), DoResume(first)]),
                [PayOff(second), PayOff(third)])
         == Stalled(first, second, third, fourth)
  {
    MonthsApart(first, second, third, fourth);
    LatestWhenPaused(Quarterly, first, fourth);
    PaidUpToCancelled(PausedAhead(Quarterly, first, fourth), first, second, third, fourth);
  }

  /**
   * Resuming under a shorter interval than before can lead payments up to a charge that the pause
   * had cancelled.  The last payment then renews nothing, and nothing is owed any more, although
   * the subscription is active and renews automatically.
   */
  lemma RenewalCanStall(first: Date) returns (steps: seq<Step>)
    requires first.d <= 28
    ensures ValidNew(Example(Quarterly, first))
    ensures var s := Run(Init(Example(Quarterly, first)), steps);
            && s.sub.status.Active? && s.sub.autoRenew && s.sub.endDate.None? && s.sub.interval == Monthly
            && NothingOwed(s.charges)
            && s.sub.nextBilling in s.charges && !Live(s.charges[s.sub.nextBilling])
  {
    var second, fourth := AddMonths(first, 1), AddMonths(first, 3);
    var third := AddMonths(second, 1);
    var s := Init(Example(Quarterly, first));
    var a, b, c := [PayOff(first), DoPause(first)], [IntervalEdit(Monthly), DoResume(first)],
                   [PayOff(second), PayOff(third)];
    steps := a + b + c;
    Untaxed(Quarterly, first);
    Starting(Quarterly, first);
    QuarterIsThreeMonths(first);
    PaidAndPaused(s, Quarterly, first, fourth);
    PausedUpToCancelled(first, second, third, fourth);
    RunOfParts(s, a, b, c);
    MonthsApart(first, second, third, fourth);
    NothingOwedWhenStalled(first, second, third, fourth);
  }
}
