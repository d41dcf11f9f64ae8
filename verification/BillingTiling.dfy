/** When coverage tiles time although the recurring interval may be edited. */
module BillingTiling {
  import opened Wrappers
  import opened Calendar
  import opened Billing
  import opened BillingInvariants
  import opened BillingChain

  // ----- tiling and neighbours

  predicate CoversUntil(charges: Charges, day: Date) {
    exists d | d in charges :: Live(charges[d]) && Le(day, charges[d].coverageEnd)
  }

  predicate CoversFrom(charges: Charges, day: Date) {
    exists d | d in charges :: Live(charges[d]) && Le(d, day)
  }

  /** Every day from the first live due date to the last day covered is covered exactly once. */
  ghost predicate Tiles(charges: Charges) {
    forall day | CoversFrom(charges, day) && CoversUntil(charges, day) :: CoveredOnce(charges, day)
  }

  /** Each live coverage ends the day before the next live one starts. */
  ghost predicate AllMeet(charges: Charges) {
    forall a, b | Neighbours(charges, a, b) :: NextDay(charges[a].coverageEnd) == b
  }

  /** Between two live charges there is a neighbour of the first. */
  lemma NeighbourUpTo(charges: Charges, a: Date, d: Date) returns (b: Date)
    requires a in charges && d in charges && Live(charges[a]) && Live(charges[d]) && Lt(a, d)
    ensures Neighbours(charges, a, b) && Le(b, d)
  {
    var above := set e | e in LiveDues(charges) && Lt(a, e);
    assert d in above;
    b := Least(above);
    forall e | e in charges && Live(charges[e]) ensures Le(e, a) || Le(b, e) {
      if Lt(a, e) { assert e in above; }
    }
  }

  lemma EndsBeforeLater(charges: Charges, a: Date, d: Date)
    requires AllMeet(charges)
    requires a in charges && d in charges && Live(charges[a]) && Live(charges[d]) && Lt(a, d)
    ensures Lt(charges[a].coverageEnd, d)
  {
    var b := NeighbourUpTo(charges, a, d);
    assert Lt(charges[a].coverageEnd, NextDay(charges[a].coverageEnd));
  }

  /** The last charge that has started covers every day up to the start of the next one. */
  lemma MeetingCovers(charges: Charges, day: Date, c: Date)
    requires RowsOk(charges) && AllMeet(charges) && CoversUntil(charges, day)
    requires c in charges && Live(charges[c]) && Le(c, day)
    requires forall e | e in charges && Live(charges[e]) && Le(e, day) :: Le(e, c)
    ensures CoveredOnceBy(charges, day, c)
  {
    assert RowOk(c, charges[c]);
    var b :| b in charges && Live(charges[b]) && Le(day, charges[b].coverageEnd);
    if Lt(b, c) {
      EndsBeforeLater(charges, b, c);
    } else if Lt(c, b) {
      var n := NeighbourUpTo(charges, c, b);
      assert Lt(day, n);
      if Lt(charges[c].coverageEnd, day) { NextIsLeast(charges[c].coverageEnd, day); }
    } else {
      KeyIsInjective(b, c);
    }
    forall e | e in charges && Live(charges[e]) && Covers(charges[e], day) ensures e == c {
      assert RowOk(e, charges[e]);
      if Lt(e, c) { EndsBeforeLater(charges, e, c); } else { KeyIsInjective(e, c); }
    }
  }

  lemma MeetingTiles(charges: Charges)
    requires RowsOk(charges) && AllMeet(charges)
    ensures Tiles(charges)
  {
    forall day | CoversFrom(charges, day) && CoversUntil(charges, day) ensures CoveredOnce(charges, day) {
      var started := set e | e in LiveDues(charges) && Le(e, day);
      var d :| d in charges && Live(charges[d]) && Le(d, day);
      assert d in started;
      var c := Greatest(started);
      forall e | e in charges && Live(charges[e]) && Le(e, day) ensures Le(e, c) {
        assert e in started;
      }
      MeetingCovers(charges, day, c);
    }
  }

  lemma OnlyOneCovers(charges: Charges, day: Date, a: Date, b: Date)
    requires Tiles(charges)
    requires a in charges && Live(charges[a]) && Covers(charges[a], day) && Le(a, day)
    requires b in charges && Live(charges[b]) && Covers(charges[b], day)
    ensures a == b
  {
    assert CoveredOnce(charges, day);
  }

  lemma TilingMeets(charges: Charges, a: Date, b: Date)
    requires RowsOk(charges) && Tiles(charges) && Neighbours(charges, a, b)
    ensures NextDay(charges[a].coverageEnd) == b
  {
    var next := NextDay(charges[a].coverageEnd);
    assert RowOk(a, charges[a]) && RowOk(b, charges[b]);
    if Lt(b, next) {
      if Lt(charges[a].coverageEnd, b) { NextIsLeast(charges[a].coverageEnd, b); }
      OnlyOneCovers(charges, b, b, a);
    } else if Lt(next, b) {
      assert CoveredOnce(charges, next);
      var c :| CoveredOnceBy(charges, next, c);
      assert RowOk(c, charges[c]);
      assert Le(c, a);
      OnlyOneCovers(charges, a, a, c);
    } else {
      KeyIsInjective(b, next);
    }
  }

  /** The days are covered once each exactly when neighbouring coverages meet. */
  lemma TilesWhenMeeting(charges: Charges)
    requires RowsOk(charges)
    ensures Tiles(charges) <==> AllMeet(charges)
  {
    if AllMeet(charges) { MeetingTiles(charges); }
    if Tiles(charges) {
      forall a, b | Neighbours(charges, a, b) ensures NextDay(charges[a].coverageEnd) == b {
        TilingMeets(charges, a, b);
      }
    }
  }

  // ----- the steps that bring a successor to life

  /** The coverage of the charge is one interval as the subscription has it now. */
  predicate FitsInterval(s: State, due: Date) {
    due in s.charges && s.charges[due].coverageEnd == PeriodEnd(s.sub.interval, due)
  }

  /** An accepted payment of the whole balance. */
  predicate Settles(s: State, due: Date, amount: int, paidDate: Date) {
    Pay(s, due, amount, paidDate).Success? && amount == Outstanding(s.charges[due])
  }

  /** The settled charge, if any, whose successor the step creates or reopens. */
  ghost function Extended(s: State, step: Step): Option<Date> {
    match step
    case DoPay(due, amount, paidDate) =>
      if Settles(s, due, amount, paidDate) && Renews(s.sub, due) && NextDue(s.sub, due) !in s.charges
      then Some(due) else None
    case DoResume(today) =>
      var latest := LatestDue(s.charges);
      if Resumable(s.sub, today) && s.sub.interval != OneOff
         && latest.Some? && Outstanding(s.charges[latest.value]) == 0
      then latest else None
    case _ => None
  }

  /** A step that extends the coverage finds a charge that covers one current interval. */
  ghost predicate StepFits(s: State, step: Step) {
    Extended(s, step).Some? ==> FitsInterval(s, Extended(s, step).value)
  }

  lemma NextDayIsInjective(a: Date, b: Date)
    requires NextDay(a) == NextDay(b)
    ensures a == b
  {
    if Lt(a, b) { NextIsLeast(a, b); }
    if Lt(b, a) { NextIsLeast(b, a); }
    KeyIsInjective(a, b);
  }

  lemma MeetsWhenFitting(s: State, due: Date)
    requires s.sub.interval != OneOff && due in s.charges
    ensures NextDay(s.charges[due].coverageEnd) == NextDue(s.sub, due) <==> FitsInterval(s, due)
  {
    if NextDay(s.charges[due].coverageEnd) == NextDue(s.sub, due) {
      NextDayIsInjective(s.charges[due].coverageEnd, PeriodEnd(s.sub.interval, due));
    }
  }

  // ----- from steps to runs

  lemma PayingAddsLast(s: State, due: Date, amount: int, paidDate: Date)
    requires Inv(s) && Extended(s, DoPay(due, amount, paidDate)) == Some(due)
    ensures IsLatest(s.charges, due) && s.sub.interval != OneOff
    ensures LiveDues(Pay(s, due, amount, paidDate).value.charges) == LiveDues(s.charges) + {NextDue(s.sub, due)}
  {
    OwingIsLatest(s.charges, due);
    PaymentEffect(s, due, amount, paidDate);
  }

  /** Reopening adds one live charge and touches no other. */
  lemma ReopenAddsOne(s: State, next: Date)
    requires next !in LiveDues(s.charges) && RowsOk(s.charges)
    ensures LiveDues(Reopen(s, next).charges) == LiveDues(s.charges) + {next}
    ensures forall d | d in s.charges && d != next ::
              d in Reopen(s, next).charges && Reopen(s, next).charges[d] == s.charges[d]
    ensures Reopen(s, next).sub == s.sub
    ensures Reopen(s, next).charges.Keys == s.charges.Keys + {next}
    ensures next in s.charges ==> Reopen(s, next).charges[next] == s.charges[next].(state := Open)
  {
    if next in s.charges { assert RowOk(next, s.charges[next]); }
  }

  lemma ResumingAddsLast(s: State, today: Date, latest: Date)
    requires Inv(s) && Extended(s, DoResume(today)) == Some(latest)
    ensures IsLatest(s.charges, latest) && s.sub.interval != OneOff && Resume(s, today).Success?
    ensures LiveDues(Resume(s, today).value.charges) == LiveDues(s.charges) + {NextDue(s.sub, latest)}
  {
    var next := NextDue(s.sub, latest);
    AddMonthsIncreases(latest, IntervalMonths(s.sub.interval));
    assert next !in LiveDues(s.charges);
    ReopenAddsOne(State(Reactivate(s.sub).(nextBilling := next), s.charges), next);
  }

  /** A step that extends the coverage adds one live charge, after all others. */
  lemma ExtendingAddsLast(s: State, step: Step, d: Date)
    requires Inv(s) && Extended(s, step) == Some(d)
    ensures IsLatest(s.charges, d) && Lt(d, NextDue(s.sub, d)) && s.sub.interval != OneOff
    ensures LiveDues(After(s, step).charges) == LiveDues(s.charges) + {NextDue(s.sub, d)}
  {
    match step
    case DoPay(due, amount, paidDate) => PayingAddsLast(s, due, amount, paidDate);
    case DoResume(today) => ResumingAddsLast(s, today, d);
    AddMonthsIncreases(d, IntervalMonths(s.sub.interval));
  }

  /**
   * In every reachable state, whatever was edited before: when a payment settles a charge of a
   * subscription that renews, the coverage of the next charge starts the day after the settled
   * one ends exactly when the settled one covers one interval as it is now.
   */
  lemma RenewalMeets(s: State, due: Date, amount: int, paidDate: Date)
    requires Reachable(s)
    ensures Settles(s, due, amount, paidDate) && Renews(s.sub, due) ==>
              var charges := Pay(s, due, amount, paidDate).value.charges;
              var next := NextDue(s.sub, due);
              && due in charges && next in charges
              && (NextDay(charges[due].coverageEnd) == charges[next].coverageStart <==> FitsInterval(s, due))
  {
    ReachableIsInvariant(s);
    if Settles(s, due, amount, paidDate) && Renews(s.sub, due) {
      PayKeeps(s, due, amount, paidDate);
      PaymentEffect(s, due, amount, paidDate);
      AddMonthsIncreases(due, IntervalMonths(s.sub.interval));
      MeetsWhenFitting(s, due);
      var charges := Pay(s, due, amount, paidDate).value.charges;
      assert RowOk(NextDue(s.sub, due), charges[NextDue(s.sub, due)]);
    }
  }

  /**
   * A renewing payment brings the next charge to life exactly when its due date is still free: a
   * charge that was cancelled there stays cancelled, and nothing is left to be paid.
   */
  lemma RenewalIsLive(s: State, due: Date, amount: int, paidDate: Date)
    requires Reachable(s)
    ensures Settles(s, due, amount, paidDate) && Renews(s.sub, due) ==>
              var charges := Pay(s, due, amount, paidDate).value.charges;
              var next := NextDue(s.sub, due);
              && next in charges
              && (Live(charges[next]) <==> next !in s.charges)
              && (!Live(charges[next]) ==> NothingOwed(charges))
  {
    ReachableIsInvariant(s);
    if Settles(s, due, amount, paidDate) && Renews(s.sub, due) {
      PaymentEffect(s, due, amount, paidDate);
      OwingIsLatest(s.charges, due);
      AddMonthsIncreases(due, IntervalMonths(s.sub.interval));
      PaidOffOwesNothing(s, due, amount, paidDate);
    }
  }

  lemma PaidOffOwesNothing(s: State, due: Date, amount: int, paidDate: Date)
    requires Inv(s) && due in s.charges && Editable(s.charges[due]) && amount == Outstanding(s.charges[due])
    ensures NothingOwed(Received(s, due, Payment(amount, paidDate)).charges)
  {
    var charges := Received(s, due, Payment(amount, paidDate)).charges;
    ReceiveOk(due, s.charges[due], Payment(amount, paidDate));
    forall d | d in charges ensures !Editable(charges[d]) {
      if d != due && Editable(charges[d]) {
        OwingIsLatest(s.charges, due);
        OwingIsLatest(s.charges, d);
        KeyIsInjective(d, due);
      }
    }
  }

  lemma NextIsFree(charges: Charges, dates: nat -> Date, interval: Interval, n: nat)
    requires Chained(charges, dates, n, n) && IsSchedule(dates, interval)
    ensures dates(n) !in charges
  {
    assert forall i: nat | i < n :: Lt(dates(i), dates(n));
  }

  /** With a fixed interval the next due date is always free. */
  lemma FixedIntervalRenews(sub: Subscription, steps: seq<Step>, due: Date, amount: int, paidDate: Date)
    requires FixedIntervalRun(sub, steps)
    ensures var s := Run(Init(sub), steps);
            Pay(s, due, amount, paidDate).Success? ==> NextDue(s.sub, due) !in s.charges
  {
    var n, k := FixedIntervalIsChained(sub, steps);
    var s := Run(Init(sub), steps);
    if Pay(s, due, amount, paidDate).Success? {
      var dates := Schedule(sub.nextBilling, sub.interval);
      ScheduleIsSchedule(sub.nextBilling, sub.interval);
      OwingIsLastRow(s.charges, dates, n, k, due);
      assert Follows(dates, sub.interval, n - 1);
      NextIsFree(s.charges, dates, sub.interval, n);
    }
  }

  /** The same for the charge that resuming creates or reopens after a settled one. */
  lemma ResumptionMeets(s: State, today: Date, latest: Date)
    requires Reachable(s)
    ensures Extended(s, DoResume(today)) == Some(latest) ==>
              && Resume(s, today).Success?
              && var charges := Resume(s, today).value.charges;
                 var next := NextDue(s.sub, latest);
                 && latest in charges && next in charges && Live(charges[next])
                 && (NextDay(charges[latest].coverageEnd) == charges[next].coverageStart <==> FitsInterval(s, latest))
  {
    ReachableIsInvariant(s);
    if Extended(s, DoResume(today)) == Some(latest) {
      ResumptionOfInvariant(s, today, latest);
    }
  }

  lemma ResumptionOfInvariant(s: State, today: Date, latest: Date)
    requires Inv(s) && Extended(s, DoResume(today)) == Some(latest)
    ensures Resume(s, today).Success?
    ensures var charges := Resume(s, today).value.charges;
            var next := NextDue(s.sub, latest);
            && latest in charges && next in charges && Live(charges[next])
            && (NextDay(charges[latest].coverageEnd) == charges[next].coverageStart <==> FitsInterval(s, latest))
  {
    ResumeKeeps(s, today);
    ExtendingAddsLast(s, DoResume(today), latest);
    ResumeDevelops(s, today);
    MeetsWhenFitting(s, latest);
    var charges := Resume(s, today).value.charges;
    assert NextDue(s.sub, latest) in LiveDues(charges);
    KeepsCoverage(s.charges, charges, latest);
    assert RowOk(NextDue(s.sub, latest), charges[NextDue(s.sub, latest)]);
  }

  /** Any other step keeps a beginning of the live charges. */
  ghost predicate IsBeginning(part: set<Date>, whole: set<Date>) {
    part <= whole && forall a, b | a in whole && b in part && Lt(a, b) :: a in part
  }

  lemma OthersKeepABeginning(s: State, step: Step)
    requires Inv(s) && Extended(s, step).None?
    ensures IsBeginning(LiveDues(After(s, step).charges), LiveDues(s.charges))
  {
    match step
    case DoUpdate(e) => assert LiveDues(After(s, step).charges) == LiveDues(s.charges);
    case DoPay(due, amount, paidDate) => PayingKeepsLive(s, due, amount, paidDate);
    case DoCancel(immediate, today, now) => DroppingKeepsABeginning(s.charges, CancelDay(s, immediate, today));
    case DoPause(today) => DroppingKeepsABeginning(s.charges, today);
    case DoExpire(today) => DroppingKeepsABeginning(s.charges, today);
    case DoResume(today) => assert LiveDues(After(s, step).charges) == LiveDues(s.charges);
  }

  lemma PayingKeepsLive(s: State, due: Date, amount: int, paidDate: Date)
    requires Inv(s) && Extended(s, DoPay(due, amount, paidDate)).None?
    ensures LiveDues(After(s, DoPay(due, amount, paidDate)).charges) == LiveDues(s.charges)
  {
    if Pay(s, due, amount, paidDate).Success? { PaymentEffect(s, due, amount, paidDate); }
  }

  lemma DroppingKeepsABeginning(charges: Charges, day: Date)
    requires RowsOk(charges)
    ensures IsBeginning(LiveDues(DropAfter(charges, day)), LiveDues(charges))
  {
    forall a, b | a in LiveDues(charges) && b in LiveDues(DropAfter(charges, day)) && Lt(a, b)
      ensures a in LiveDues(DropAfter(charges, day))
    {
      assert RowOk(a, charges[a]) && RowOk(b, charges[b]);
    }
  }

  lemma BeginningMeets(charges: Charges, charges': Charges)
    requires AllMeet(charges) && AllDevelop(charges, charges')
    requires IsBeginning(LiveDues(charges'), LiveDues(charges))
    ensures AllMeet(charges')
  {
    forall a, b | Neighbours(charges', a, b) ensures NextDay(charges'[a].coverageEnd) == b {
      assert a in LiveDues(charges') && b in LiveDues(charges');
      forall d | d in charges && Live(charges[d]) ensures Le(d, a) || Le(b, d) {
        assert d in LiveDues(charges);
        if Lt(d, b) { assert d in LiveDues(charges'); }
      }
      assert Neighbours(charges, a, b);
      KeepsCoverage(charges, charges', a);
    }
  }

  /** With one more live charge at the end, everything meets exactly when it met and the last two do. */
  lemma OneMoreMeets(charges: Charges, charges': Charges, d: Date, next: Date)
    requires AllDevelop(charges, charges') && IsLatest(charges, d) && Lt(d, next)
    requires LiveDues(charges') == LiveDues(charges) + {next}
    ensures d in charges' && next in charges'
    ensures AllMeet(charges') <==> AllMeet(charges) && NextDay(charges[d].coverageEnd) == next
  {
    assert next in LiveDues(charges') && d in LiveDues(charges) && d in LiveDues(charges');
    KeepsCoverage(charges, charges', d);
    LastAreNeighbours(charges, charges', d, next);
    forall a, b | b != next ensures Neighbours(charges', a, b) <==> Neighbours(charges, a, b) {
      OldNeighbours(charges, charges', d, next, a, b);
    }
    if AllMeet(charges') {
      forall a, b | Neighbours(charges, a, b) ensures NextDay(charges[a].coverageEnd) == b {
        assert b in LiveDues(charges) && Neighbours(charges', a, b);
        KeepsCoverage(charges, charges', a);
      }
    }
    if AllMeet(charges) && NextDay(charges[d].coverageEnd) == next {
      forall a, b | Neighbours(charges', a, b) ensures NextDay(charges'[a].coverageEnd) == b {
        assert a in LiveDues(charges');
        if b == next {
          OnlyLastMeetsNext(charges, charges', d, next, a);
        } else {
          assert Neighbours(charges, a, b);
          KeepsCoverage(charges, charges', a);
        }
      }
    }
  }

  lemma LastAreNeighbours(charges: Charges, charges': Charges, d: Date, next: Date)
    requires IsLatest(charges, d) && Lt(d, next) && LiveDues(charges') == LiveDues(charges) + {next}
    ensures Neighbours(charges', d, next)
  {
    assert d in LiveDues(charges') && next in LiveDues(charges');
    forall e | e in charges' && Live(charges'[e]) ensures Le(e, d) || Le(next, e) {
      assert e in LiveDues(charges');
    }
  }

  lemma OnlyLastMeetsNext(charges: Charges, charges': Charges, d: Date, next: Date, a: Date)
    requires IsLatest(charges, d) && Lt(d, next) && LiveDues(charges') == LiveDues(charges) + {next}
    requires Neighbours(charges', a, next)
    ensures a == d
  {
    assert a in LiveDues(charges') && d in LiveDues(charges');
    KeyIsInjective(a, d);
  }

  lemma OldNeighbours(charges: Charges, charges': Charges, d: Date, next: Date, a: Date, b: Date)
    requires IsLatest(charges, d) && Lt(d, next) && LiveDues(charges') == LiveDues(charges) + {next}
    requires b != next
    ensures Neighbours(charges', a, b) <==> Neighbours(charges, a, b)
  {
    forall e ensures e in charges' && Live(charges'[e]) <==> (e in charges && Live(charges[e])) || e == next {
      assert e in LiveDues(charges') <==> e in LiveDues(charges) || e == next;
    }
    if b in charges && Live(charges[b]) { assert Lt(b, next); }
  }

  /** One step: the charges tile afterwards exactly when they did and the step fits. */
  lemma StepTiles(s: State, step: Step)
    requires Inv(s) && Tiles(s.charges)
    ensures Tiles(After(s, step).charges) <==> StepFits(s, step)
  {
    var s' := After(s, step);
    AfterKeeps(s, step);
    AfterDevelops(s, step);
    TilesWhenMeeting(s.charges);
    TilesWhenMeeting(s'.charges);
    match Extended(s, step)
    case Some(d) =>
      ExtendingAddsLast(s, step, d);
      OneMoreMeets(s.charges, s'.charges, d, NextDue(s.sub, d));
      MeetsWhenFitting(s, d);
    case None =>
      OthersKeepABeginning(s, step);
      BeginningMeets(s.charges, s'.charges);
  }

  /** The charges tile in every state of the run. */
  ghost predicate AlwaysTiles(s: State, steps: seq<Step>)
    decreases |steps|
  {
    Tiles(s.charges) && (steps != [] ==> AlwaysTiles(After(s, steps[0]), steps[1..]))
  }

  /** Every step of the run fits the state it is taken in. */
  ghost predicate AlwaysFits(s: State, steps: seq<Step>)
    decreases |steps|
  {
    steps != [] ==> StepFits(s, steps[0]) && AlwaysFits(After(s, steps[0]), steps[1..])
  }

  lemma {:induction false} RunTiles(s: State, steps: seq<Step>)
    requires Inv(s) && Tiles(s.charges)
    ensures AlwaysTiles(s, steps) <==> AlwaysFits(s, steps)
    decreases |steps|
  {
    if steps != [] {
      var s' := After(s, steps[0]);
      AfterKeeps(s, steps[0]);
      StepTiles(s, steps[0]);
      if Tiles(s'.charges) { RunTiles(s', steps[1..]); }
    }
  }

  /**
   * For every run with any history of edits: the live charges tile time in all its states if and
   * only if every payment and every resumption that extends the coverage finds the charge it
   * extends covering exactly one interval as the subscription has it then.
   */
  lemma CoverageTilesExactly(sub: Subscription, steps: seq<Step>)
    requires ValidNew(sub)
    ensures AlwaysTiles(Init(sub), steps) <==> AlwaysFits(Init(sub), steps)
  {
    InitKeeps(sub);
    TilesWhenMeeting(Init(sub).charges);
    RunTiles(Init(sub), steps);
  }

  /** With a fixed interval every step fits. */
  lemma {:induction false} FixedIntervalFits(s: State, steps: seq<Step>)
    requires Inv(s) && CoversInterval(s)
    requires forall i | 0 <= i < |steps| :: KeepsInterval(steps[i], s.sub.interval)
    ensures AlwaysFits(s, steps)
    decreases |steps|
  {
    if steps != [] {
      AfterKeeps(s, steps[0]);
      AfterKeepsInterval(s, steps[0]);
      AfterCoversInterval(s, steps[0]);
      FixedIntervalFits(After(s, steps[0]), steps[1..]);
    }
  }
}
