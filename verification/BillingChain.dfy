/** With a fixed recurring interval the charges follow the due-date chain and tile time. */
module BillingChain {
  import opened Wrappers
  import opened Calendar
  import opened Billing
  import opened BillingInvariants

  // ----- schedules

  /** A schedule lists the due dates: increasing, each one interval after the previous one. */
  ghost predicate IsSchedule(due: nat -> Date, interval: Interval) {
    && interval != OneOff
    && (forall i: nat, j: nat | i < j :: Lt(due(i), due(j)))
    && (forall i: nat :: Follows(due, interval, i))
  }

  ghost predicate Follows(due: nat -> Date, interval: Interval, i: nat) {
    due(i + 1) == AddMonths(due(i), IntervalMonths(interval))
  }

  /** The schedule of a subscription first billed on the given day. */
  ghost function Schedule(first: Date, interval: Interval): nat -> Date {
    (i: nat) => Chain(first, IntervalMonths(interval), i)
  }

  lemma ScheduleIsSchedule(first: Date, interval: Interval)
    requires interval != OneOff
    ensures IsSchedule(Schedule(first, interval), interval)
    ensures Schedule(first, interval)(0) == first
  {
    var due := Schedule(first, interval);
    forall i: nat, j: nat | i < j ensures Lt(due(i), due(j)) {
      ChainIsIncreasing(first, IntervalMonths(interval), i, j);
    }
    forall i: nat ensures Follows(due, interval, i) {
      assert due(i + 1) == Chain(first, IntervalMonths(interval), i + 1);
    }
  }

  // ----- the charges follow a schedule

  /**
   * The charges are the first `n` dates of the schedule, of which the first `k` are live, and
   * every charge that was ever followed by another one is settled.
   */
  ghost predicate Chained(charges: Charges, due: nat -> Date, n: nat, k: nat) {
    && k <= n
    && (forall d | d in charges :: exists i: nat :: i < n && d == due(i))
    && (forall i: nat | i < n :: ChainRow(charges, due, n, k, i))
  }

  ghost predicate ChainRow(charges: Charges, due: nat -> Date, n: nat, k: nat, i: nat) {
    && due(i) in charges
    && (Live(charges[due(i)]) <==> i < k)
    && (i + 1 < n ==> Outstanding(charges[due(i)]) == 0)
  }

  /** Every charge covers one full interval from its due date on. */
  predicate CoversInterval(s: State) {
    && s.sub.interval != OneOff
    && forall d | d in s.charges :: s.charges[d].coverageEnd == PeriodEnd(s.sub.interval, d)
  }

  lemma InitIsChained(sub: Subscription, due: nat -> Date)
    requires due(0) == sub.nextBilling
    ensures Chained(Init(sub).charges, due, 1, 1)
  {
    forall i: nat | i < 1 ensures ChainRow(Init(sub).charges, due, 1, 1, i) {
    }
  }

  lemma LatestOnChain(charges: Charges, due: nat -> Date, interval: Interval, n: nat, k: nat)
    requires Chained(charges, due, n, k) && IsSchedule(due, interval)
    ensures LatestDue(charges) == if k == 0 then None else Some(due(k - 1))
  {
    forall d | d in charges && Live(charges[d]) ensures k > 0 && Le(d, due(k - 1)) {
      var i: nat :| i < n && d == due(i);
      assert ChainRow(charges, due, n, k, i);
      assert i < k - 1 ==> Lt(due(i), due(k - 1));
    }
    if k > 0 {
      assert ChainRow(charges, due, n, k, k - 1);
      assert IsLatest(charges, due(k - 1));
      KeyIsInjective(LatestDue(charges).value, due(k - 1));
    }
  }

  /** How many of the first `k` due dates are on or before the given day. */
  ghost function Started(due: nat -> Date, k: nat, day: Date): (j: nat)
    ensures j <= k
  {
    if k == 0 then 0 else if Le(due(k - 1), day) then k else Started(due, k - 1, day)
  }

  lemma {:induction false} StartedSplits(due: nat -> Date, k: nat, day: Date, i: nat)
    requires forall i: nat, j: nat | i < j :: Lt(due(i), due(j))
    requires i < k
    ensures Le(due(i), day) <==> i < Started(due, k, day)
  {
    if Le(due(k - 1), day) {
      assert i < k - 1 ==> Lt(due(i), due(k - 1));
    } else if i < k - 1 {
      StartedSplits(due, k - 1, day, i);
    }
  }

  // ----- each operation keeps the chain

  lemma DropIsChained(charges: Charges, due: nat -> Date, interval: Interval, n: nat, k: nat, day: Date)
    requires RowsOk(charges) && Chained(charges, due, n, k) && IsSchedule(due, interval)
    ensures Chained(DropAfter(charges, day), due, n, Started(due, k, day))
  {
    var j := Started(due, k, day);
    var charges' := DropAfter(charges, day);
    forall i: nat | i < n ensures ChainRow(charges', due, n, j, i) {
      assert ChainRow(charges, due, n, k, i);
      assert RowOk(due(i), charges[due(i)]);
      if i < k { StartedSplits(due, k, day, i); }
    }
  }

  lemma UpdateIsChained(s: State, due: nat -> Date, n: nat, k: nat, e: Edit)
    requires Chained(s.charges, due, n, k) && Update(s, e).Success?
    ensures Chained(Update(s, e).value.charges, due, n, k)
  {
    var charges := Update(s, e).value.charges;
    forall i: nat | i < n ensures ChainRow(charges, due, n, k, i) {
      assert ChainRow(s.charges, due, n, k, i);
    }
  }

  /** A charge may be added after the last row if that row is live and settled. */
  lemma AppendIsChained(charges: Charges, due: nat -> Date, interval: Interval, n: nat, c: Charge)
    requires Chained(charges, due, n, n) && IsSchedule(due, interval) && Live(c)
    requires n > 0 ==> due(n - 1) in charges && Outstanding(charges[due(n - 1)]) == 0
    ensures due(n) !in charges
    ensures Chained(charges[due(n) := c], due, n + 1, n + 1)
  {
    assert forall i: nat | i < n :: Lt(due(i), due(n));
    var m := n + 1;
    var charges' := charges[due(n) := c];
    forall i: nat | i < m ensures ChainRow(charges', due, m, m, i) {
      assert i < n ==> Lt(due(i), due(n));
      if i < n { assert ChainRow(charges, due, n, n, i); }
    }
    forall d | d in charges' ensures exists i: nat :: i < m && d == due(i) {
      if d != due(n) {
        var i: nat :| i < n && d == due(i);
      }
    }
  }

  /** An open charge with a balance is the last row of the chain. */
  lemma OwingIsLastRow(charges: Charges, due: nat -> Date, n: nat, k: nat, d: Date)
    requires Chained(charges, due, n, k)
    requires d in charges && Editable(charges[d])
    ensures n > 0 && k == n && d == due(n - 1)
  {
    var i: nat :| i < n && d == due(i);
    assert ChainRow(charges, due, n, k, i);
  }

  lemma ReceiveIsChained(charges: Charges, due: nat -> Date, interval: Interval, n: nat, k: nat, p: Payment)
    requires Chained(charges, due, n, k) && IsSchedule(due, interval) && n > 0
    requires due(n - 1) in charges
    ensures Chained(charges[due(n - 1) := Receive(charges[due(n - 1)], p)], due, n, k)
  {
    var charges' := charges[due(n - 1) := Receive(charges[due(n - 1)], p)];
    forall i: nat | i < n ensures ChainRow(charges', due, n, k, i) {
      assert ChainRow(charges, due, n, k, i);
      assert i < n - 1 ==> Lt(due(i), due(n - 1));
    }
  }

  lemma AdvanceIsChained(s: State, due: nat -> Date, n: nat) returns (n': nat)
    requires Chained(s.charges, due, n, n) && IsSchedule(due, s.sub.interval) && n > 0
    requires due(n - 1) in s.charges
    ensures Chained(Advance(s, due(n - 1)).charges, due, n', n')
  {
    n' := n;
    if Advance(s, due(n - 1)) != s {
      assert Follows(due, s.sub.interval, n - 1);
      var sub := s.sub.(nextBilling := due(n));
      AppendIsChained(s.charges, due, s.sub.interval, n, NewCharge(sub, due(n)));
      n' := n + 1;
    }
  }

  lemma PayIsChained(s: State, due: nat -> Date, n: nat, k: nat, d: Date, amount: int, paidDate: Date)
    returns (n': nat)
    requires Chained(s.charges, due, n, k) && IsSchedule(due, s.sub.interval)
    requires Pay(s, d, amount, paidDate).Success?
    ensures Chained(Pay(s, d, amount, paidDate).value.charges, due, n', n')
  {
    OwingIsLastRow(s.charges, due, n, k, d);
    var p := Payment(amount, paidDate);
    ReceiveIsChained(s.charges, due, s.sub.interval, n, k, p);
    n' := AdvanceIsChained(s.(charges := s.charges[d := Receive(s.charges[d], p)]), due, n);
  }

  lemma ReopenIsChained(charges: Charges, due: nat -> Date, interval: Interval, n: nat, k: nat)
    requires Chained(charges, due, n, k) && IsSchedule(due, interval) && k < n
    requires k > 0 ==> due(k - 1) in charges && Outstanding(charges[due(k - 1)]) == 0
    ensures due(k) in charges && charges[due(k)].state.Cancelled?
    ensures Chained(charges[due(k) := charges[due(k)].(state := Open)], due, n, k + 1)
  {
    assert ChainRow(charges, due, n, k, k);
    var m := k + 1;
    var charges' := charges[due(k) := charges[due(k)].(state := Open)];
    forall i: nat | i < n ensures ChainRow(charges', due, n, m, i) {
      assert ChainRow(charges, due, n, k, i);
      assert i < k ==> Lt(due(i), due(k));
      assert i > k ==> Lt(due(k), due(i));
    }
  }

  /** What resuming does on a chain: nothing, or one more live charge on the next due date. */
  lemma ResumeOnChain(s: State, due: nat -> Date, n: nat, k: nat, today: Date)
    requires Chained(s.charges, due, n, k) && IsSchedule(due, s.sub.interval)
    requires Resumable(s.sub, today)
    requires k > 0 ==> due(k - 1) in s.charges
    ensures Resume(s, today) == Success(
              if k > 0 && Outstanding(s.charges[due(k - 1)]) == 0
              then Reopen(State(Reactivate(s.sub).(nextBilling := due(k)), s.charges), due(k))
              else s.(sub := Reactivate(s.sub)))
  {
    LatestOnChain(s.charges, due, s.sub.interval, n, k);
    if k > 0 {
      assert Follows(due, s.sub.interval, k - 1);
    }
  }

  lemma ResumeIsChained(s: State, due: nat -> Date, n: nat, k: nat, today: Date)
    returns (n': nat, k': nat)
    requires Chained(s.charges, due, n, k) && IsSchedule(due, s.sub.interval)
    requires Resume(s, today).Success?
    ensures Chained(Resume(s, today).value.charges, due, n', k')
  {
    if k > 0 { assert ChainRow(s.charges, due, n, k, k - 1); }
    ResumeOnChain(s, due, n, k, today);
    n', k' := n, k;
    if k > 0 && Outstanding(s.charges[due(k - 1)]) == 0 {
      k' := k + 1;
      if k < n {
        ReopenIsChained(s.charges, due, s.sub.interval, n, k);
      } else {
        var sub := Reactivate(s.sub).(nextBilling := due(k));
        AppendIsChained(s.charges, due, s.sub.interval, n, NewCharge(sub, due(n)));
        n' := n + 1;
      }
    }
  }

  predicate KeepsInterval(step: Step, interval: Interval) {
    step.DoUpdate? && step.edit.interval.Some? ==> step.edit.interval.value == interval
  }

  lemma AfterKeepsInterval(s: State, step: Step)
    requires KeepsInterval(step, s.sub.interval)
    ensures After(s, step).sub.interval == s.sub.interval
  {
  }

  /** Coverage never changes, and new charges cover one interval. */
  lemma AfterCoversInterval(s: State, step: Step)
    requires Inv(s) && CoversInterval(s) && KeepsInterval(step, s.sub.interval)
    ensures CoversInterval(After(s, step))
  {
    AfterKeepsInterval(s, step);
    AfterDevelops(s, step);
    var s' := After(s, step);
    forall d | d in s'.charges ensures s'.charges[d].coverageEnd == PeriodEnd(s.sub.interval, d) {
      if d in s.charges {
        KeepsCoverage(s.charges, s'.charges, d);
      } else {
        NewRowsAreNew(s, step, d);
      }
    }
  }

  lemma KeepsCoverage(charges: Charges, charges': Charges, d: Date)
    requires AllDevelop(charges, charges') && d in charges
    ensures d in charges' && charges'[d].coverageEnd == charges[d].coverageEnd
  {
  }

  lemma NewRowsAreNew(s: State, step: Step, d: Date)
    requires d !in s.charges && d in After(s, step).charges
    ensures After(s, step).charges[d] == NewCharge(After(s, step).sub, d)
    ensures After(s, step).sub.interval == s.sub.interval
  {
    match step
    case DoUpdate(e) => assert false;
    case DoPay(due, amount, paidDate) =>
    case DoCancel(immediate, today, now) => assert false;
    case DoPause(today) => assert false;
    case DoExpire(today) => assert false;
    case DoResume(today) =>
  }

  lemma AfterIsChained(s: State, due: nat -> Date, n: nat, k: nat, step: Step) returns (n': nat, k': nat)
    requires RowsOk(s.charges) && Chained(s.charges, due, n, k) && IsSchedule(due, s.sub.interval)
    ensures Chained(After(s, step).charges, due, n', k')
  {
    n', k' := n, k;
    if Apply(s, step).Success? {
      match step
      case DoUpdate(e) => UpdateIsChained(s, due, n, k, e);
      case DoPay(d, amount, paidDate) =>
        n' := PayIsChained(s, due, n, k, d, amount, paidDate);
        k' := n';
      case DoCancel(immediate, today, now) =>
        var day := CancelDay(s, immediate, today);
        DropIsChained(s.charges, due, s.sub.interval, n, k, day);
        k' := Started(due, k, day);
      case DoPause(today) =>
        DropIsChained(s.charges, due, s.sub.interval, n, k, today);
        k' := Started(due, k, today);
      case DoExpire(today) =>
        DropIsChained(s.charges, due, s.sub.interval, n, k, today);
        k' := Started(due, k, today);
      case DoResume(today) => n', k' := ResumeIsChained(s, due, n, k, today);
    }
  }

  lemma {:induction false} RunIsChained(s: State, due: nat -> Date, n: nat, k: nat, steps: seq<Step>)
    returns (n': nat, k': nat)
    requires Inv(s) && CoversInterval(s)
    requires Chained(s.charges, due, n, k) && IsSchedule(due, s.sub.interval)
    requires forall i | 0 <= i < |steps| :: KeepsInterval(steps[i], s.sub.interval)
    ensures Inv(Run(s, steps)) && CoversInterval(Run(s, steps))
    ensures Chained(Run(s, steps).charges, due, n', k')
    ensures Run(s, steps).sub.interval == s.sub.interval
    decreases |steps|
  {
    n', k' := n, k;
    if steps != [] {
      AfterKeeps(s, steps[0]);
      AfterKeepsInterval(s, steps[0]);
      AfterCoversInterval(s, steps[0]);
      n', k' := AfterIsChained(s, due, n, k, steps[0]);
      n', k' := RunIsChained(After(s, steps[0]), due, n', k', steps[1..]);
    }
  }

  /** A run from creation in which no edit changes the recurring interval. */
  ghost predicate FixedIntervalRun(sub: Subscription, steps: seq<Step>) {
    && ValidNew(sub) && sub.interval != OneOff
    && forall i | 0 <= i < |steps| :: KeepsInterval(steps[i], sub.interval)
  }

  /**
   * In every run with a fixed interval the charges are a prefix of the due-date chain and the
   * live ones a prefix of that prefix.
   */
  lemma FixedIntervalIsChained(sub: Subscription, steps: seq<Step>) returns (n: nat, k: nat)
    requires FixedIntervalRun(sub, steps)
    ensures Inv(Run(Init(sub), steps)) && CoversInterval(Run(Init(sub), steps))
    ensures Run(Init(sub), steps).sub.interval == sub.interval
    ensures Chained(Run(Init(sub), steps).charges, Schedule(sub.nextBilling, sub.interval), n, k)
  {
    var due := Schedule(sub.nextBilling, sub.interval);
    InitKeeps(sub);
    ScheduleIsSchedule(sub.nextBilling, sub.interval);
    InitIsChained(sub, due);
    n, k := RunIsChained(Init(sub), due, 1, 1, steps);
  }

  // ----- tiling

  predicate Covers(c: Charge, day: Date) { Le(c.coverageStart, day) && Le(day, c.coverageEnd) }

  /** A full interval covers exactly the days from its due date up to the next one. */
  lemma IntervalCovers(interval: Interval, d: Date, day: Date)
    requires interval != OneOff
    ensures Le(day, PeriodEnd(interval, d)) <==> Lt(day, AddMonths(d, IntervalMonths(interval)))
  {
    var end := PeriodEnd(interval, d);
    if Lt(end, day) { NextIsLeast(end, day); }
  }

  lemma RowCovers(s: State, due: nat -> Date, n: nat, k: nat, i: nat, day: Date)
    requires RowsOk(s.charges) && CoversInterval(s)
    requires Chained(s.charges, due, n, k) && IsSchedule(due, s.sub.interval) && i < n
    ensures due(i) in s.charges
    ensures Covers(s.charges[due(i)], day) <==> Le(due(i), day) && Lt(day, due(i + 1))
  {
    assert ChainRow(s.charges, due, n, k, i);
    assert RowOk(due(i), s.charges[due(i)]);
    assert Follows(due, s.sub.interval, i);
    IntervalCovers(s.sub.interval, due(i), day);
  }

  /** Only the charge that started last can cover a day, and only within the chain. */
  lemma CoveringIsStartedLast(s: State, due: nat -> Date, n: nat, k: nat, day: Date, i: nat)
    requires RowsOk(s.charges) && CoversInterval(s)
    requires Chained(s.charges, due, n, k) && IsSchedule(due, s.sub.interval) && i < k
    requires due(i) in s.charges && Covers(s.charges[due(i)], day)
    ensures i + 1 == Started(due, k, day) && Le(due(0), day) && Lt(day, due(k))
  {
    RowCovers(s, due, n, k, i, day);
    StartedSplits(due, k, day, i);
    if i + 1 < k { StartedSplits(due, k, day, i + 1); }
    assert 0 < i ==> Lt(due(0), due(i));
    assert i + 1 < k ==> Lt(due(i + 1), due(k));
  }

  /** The day lies between the last started due date and the one after it. */
  lemma StartedBrackets(due: nat -> Date, k: nat, day: Date, i: nat)
    requires forall i: nat, j: nat | i < j :: Lt(due(i), due(j))
    requires i < k && i + 1 == Started(due, k, day) && Lt(day, due(k))
    ensures Le(due(i), day) && Lt(day, due(i + 1))
  {
    StartedSplits(due, k, day, i);
    if i + 1 < k { StartedSplits(due, k, day, i + 1); }
  }

  lemma StartedLastCovers(s: State, due: nat -> Date, n: nat, k: nat, day: Date, i: nat)
    requires RowsOk(s.charges) && CoversInterval(s)
    requires Chained(s.charges, due, n, k) && IsSchedule(due, s.sub.interval)
    requires i < k && i + 1 == Started(due, k, day) && Lt(day, due(k))
    ensures due(i) in s.charges && Live(s.charges[due(i)]) && Covers(s.charges[due(i)], day)
  {
    StartedBrackets(due, k, day, i);
    RowCovers(s, due, n, k, i, day);
    assert ChainRow(s.charges, due, n, k, i);
  }

  /** On a chain the live charges cover exactly the days before the next due date, each once. */
  lemma ChainTiles(s: State, due: nat -> Date, n: nat, k: nat, day: Date)
    requires RowsOk(s.charges) && CoversInterval(s)
    requires Chained(s.charges, due, n, k) && IsSchedule(due, s.sub.interval)
    ensures if k > 0 && Le(due(0), day) && Lt(day, due(k)) then
              CoveredOnce(s.charges, day)
            else
              forall e | e in s.charges && Live(s.charges[e]) :: !Covers(s.charges[e], day)
  {
    var j := Started(due, k, day);
    forall e | e in s.charges && Live(s.charges[e]) && Covers(s.charges[e], day)
      ensures j > 0 && e == due(j - 1) && Le(due(0), day) && Lt(day, due(k))
    {
      var i: nat :| i < n && e == due(i);
      assert ChainRow(s.charges, due, n, k, i);
      CoveringIsStartedLast(s, due, n, k, day, i);
    }
    if k > 0 && Le(due(0), day) && Lt(day, due(k)) {
      StartedSplits(due, k, day, 0);
      StartedLastCovers(s, due, n, k, day, j - 1);
      assert CoveredOnceBy(s.charges, day, due(j - 1));
    }
  }

  /** The live charge due on `d` covers the day, and it is the only one that does. */
  ghost predicate CoveredOnceBy(charges: Charges, day: Date, d: Date) {
    && d in charges && Live(charges[d]) && Covers(charges[d], day)
    && forall e | e in charges && Live(charges[e]) && Covers(charges[e], day) :: e == d
  }

  ghost predicate CoveredOnce(charges: Charges, day: Date) {
    exists d :: CoveredOnceBy(charges, day, d)
  }

  /**
   * In every run with a fixed interval the live charges tile time: for every day from the first
   * due date up to the end of the last live coverage exactly one live charge covers it, and no
   * live charge covers any other day.
   */
  lemma CoverageTiles(sub: Subscription, steps: seq<Step>, day: Date)
    requires FixedIntervalRun(sub, steps)
    ensures var charges := Run(Init(sub), steps).charges;
            var latest := LatestDue(charges);
            if latest.Some? && Le(sub.nextBilling, day) && Le(day, charges[latest.value].coverageEnd)
            then CoveredOnce(charges, day)
            else forall e | e in charges && Live(charges[e]) :: !Covers(charges[e], day)
  {
    var n, k := FixedIntervalIsChained(sub, steps);
    var s := Run(Init(sub), steps);
    var due := Schedule(sub.nextBilling, sub.interval);
    ScheduleIsSchedule(sub.nextBilling, sub.interval);
    LatestOnChain(s.charges, due, sub.interval, n, k);
    ChainTiles(s, due, n, k, day);
    if k > 0 {
      assert Follows(due, sub.interval, k - 1);
      IntervalCovers(sub.interval, due(k - 1), day);
    }
  }

  /** Two live charges with no live charge between them are neighbours on the chain. */
  lemma NeighboursOnChain(charges: Charges, due: nat -> Date, interval: Interval, n: nat, k: nat, i: nat, j: nat)
    requires Chained(charges, due, n, k) && IsSchedule(due, interval)
    requires i < n && j < k && Lt(due(i), due(j))
    requires forall d | d in charges && Live(charges[d]) :: Le(d, due(i)) || Le(due(j), d)
    ensures due(j) == AddMonths(due(i), IntervalMonths(interval))
  {
    forall m: nat | m < k ensures Le(due(m), due(i)) || Le(due(j), due(m)) {
      assert ChainRow(charges, due, n, k, m);
    }
    assert i > j ==> Lt(due(j), due(i));
    assert Lt(due(i), due(i + 1));
    assert Follows(due, interval, i);
  }

  /** Two live charges with no live charge between them. */
  predicate Neighbours(charges: Charges, a: Date, b: Date) {
    && a in charges && b in charges && Live(charges[a]) && Live(charges[b]) && Lt(a, b)
    && forall d | d in charges && Live(charges[d]) :: Le(d, a) || Le(b, d)
  }

  /** The coverage of one live charge ends the day before the next one starts. */
  lemma NeighboursMeet(sub: Subscription, steps: seq<Step>, a: Date, b: Date)
    requires FixedIntervalRun(sub, steps)
    ensures var charges := Run(Init(sub), steps).charges;
            Neighbours(charges, a, b) ==> NextDay(charges[a].coverageEnd) == charges[b].coverageStart
  {
    var n, k := FixedIntervalIsChained(sub, steps);
    var charges := Run(Init(sub), steps).charges;
    if Neighbours(charges, a, b) {
      ScheduleIsSchedule(sub.nextBilling, sub.interval);
      NeighbourDates(charges, Schedule(sub.nextBilling, sub.interval), sub.interval, n, k, a, b);
      assert RowOk(b, charges[b]);
    }
  }

  lemma NeighbourDates(charges: Charges, due: nat -> Date, interval: Interval, n: nat, k: nat, a: Date, b: Date)
    requires Chained(charges, due, n, k) && IsSchedule(due, interval)
    requires Neighbours(charges, a, b)
    ensures b == AddMonths(a, IntervalMonths(interval))
  {
    var i: nat :| i < n && a == due(i);
    var j: nat :| j < n && b == due(j);
    assert ChainRow(charges, due, n, k, j);
    NeighboursOnChain(charges, due, interval, n, k, i, j);
  }
}
