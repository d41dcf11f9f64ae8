/** When a subscription that should go on billing always has something to be paid. */
module BillingProgress {
  import opened Wrappers
  import opened Calendar
  import opened Billing
  import opened BillingInvariants
  import opened BillingTiling
  import opened BillingAgreement

  /** The due date that follows the last live charge, or the recorded one if there is none. */
  ghost function Upcoming(sub: Subscription, latest: Option<Date>): Date {
    match latest
    case Some(d) => NextDue(sub, d)
    case None => sub.nextBilling
  }

  /** An active recurring subscription renews automatically and has room before its end date. */
  ghost predicate GoesOn(sub: Subscription, latest: Option<Date>) {
    sub.interval != OneOff && sub.status.Active? && Agreed(sub, Upcoming(sub, latest))
  }

  /** A subscription that should go on billing has an open charge with a balance. */
  ghost predicate Fed(s: State) {
    GoesOn(s.sub, LatestDue(s.charges)) ==> !NothingOwed(s.charges)
  }

  // ----- the exact condition for each step

  /** A last charge with this balance is enough: it has to be paid, or no other may follow it. */
  predicate Suffices(sub: Subscription, due: Date, balance: int) {
    balance > 0 || !Agreed(sub, NextDue(sub, due))
  }

  /** Some balance is left by the edit: by a commercial one, a total above what was paid. */
  predicate LeavesBalance(s: State, e: Edit) {
    exists d | d in s.charges ::
      Editable(s.charges[d]) && (e.Commercial() ==> CheckedTotal(s.sub, e) > PaidAmount(s.charges[d]))
  }

  /** The balance of the charge that resuming reopens or creates on the given day. */
  function ReopenedBalance(s: State, next: Date): int {
    if next in s.charges then Outstanding(s.charges[next]) else GrossPrice(s.sub)
  }

  ghost predicate StepFeeds(s: State, step: Step) {
    match step
    case DoUpdate(e) =>
      Update(s, e).Success? && GoesOn(ApplyEdit(s.sub, e), LatestDue(s.charges)) ==> LeavesBalance(s, e)
    case DoPay(due, amount, paidDate) =>
      Settles(s, due, amount, paidDate) && Renews(s.sub, due) ==>
        var next := NextDue(s.sub, due);
        next !in s.charges && Suffices(s.sub, next, GrossPrice(s.sub))
    case DoResume(today) =>
      Resumable(s.sub, today) && s.sub.interval != OneOff ==>
        (match LatestDue(s.charges)
         case None => !Agreed(s.sub, s.sub.nextBilling)
         case Some(d) =>
           Outstanding(s.charges[d]) > 0
           || Suffices(s.sub, NextDue(s.sub, d), ReopenedBalance(s, NextDue(s.sub, d))))
    case _ => true
  }

  // ----- the latest charge after each step

  lemma LatestOfSame(charges: Charges, charges': Charges, d: Date)
    requires LiveDues(charges) == LiveDues(charges') && IsLatest(charges, d)
    ensures IsLatest(charges', d)
  {
    assert d in LiveDues(charges');
    forall e | e in charges' && Live(charges'[e]) ensures Le(e, d) {
      assert e in LiveDues(charges);
    }
  }

  lemma SameLatest(charges: Charges, charges': Charges)
    requires LiveDues(charges) == LiveDues(charges')
    ensures LatestDue(charges) == LatestDue(charges')
  {
    if d :| IsLatest(charges, d) {
      LatestOfSame(charges, charges', d);
      LatestIsUnique(charges, d);
      LatestIsUnique(charges', d);
    } else if d :| IsLatest(charges', d) {
      LatestOfSame(charges', charges, d);
    }
  }

  /** A live charge added after the last one is the last one. */
  lemma LatestOfLarger(charges: Charges, charges': Charges, d: Date, next: Date)
    requires IsLatest(charges, d) && Lt(d, next) && LiveDues(charges') == LiveDues(charges) + {next}
    ensures IsLatest(charges', next)
  {
    assert next in LiveDues(charges');
    forall e | e in charges' && Live(charges'[e]) ensures Le(e, next) {
      assert e in LiveDues(charges');
    }
  }

  lemma NoLatestNoneLive(charges: Charges)
    requires LatestDue(charges).None?
    ensures NothingOwed(charges)
  {
    if d :| d in charges && Editable(charges[d]) {
      assert d in LiveDues(charges);
      var last := Greatest(LiveDues(charges));
      assert forall e | e in charges && Live(charges[e]) :: e in LiveDues(charges);
      assert IsLatest(charges, last);
    }
  }

  /** Nothing but the last live charge can be owed. */
  lemma OwedIsLatest(s: State, last: Date)
    requires Inv(s) && IsLatest(s.charges, last)
    ensures NothingOwed(s.charges) <==> Outstanding(s.charges[last]) == 0
  {
    assert RowOk(last, s.charges[last]);
    forall d | d in s.charges && Editable(s.charges[d]) ensures d == last {
      OwingIsLatest(s.charges, d);
      KeyIsInjective(d, last);
    }
  }

  /** A state with a known last charge is fed exactly when that charge suffices. */
  lemma FedByLast(s: State, last: Date)
    requires Inv(s) && IsLatest(s.charges, last)
    requires s.sub.interval != OneOff && s.sub.status.Active?
    ensures Fed(s) <==> Suffices(s.sub, last, Outstanding(s.charges[last]))
  {
    LatestIsUnique(s.charges, last);
    OwedIsLatest(s, last);
  }

  /** A step that extends the coverage makes the successor the last charge. */
  lemma ExtendingMakesLast(s: State, step: Step, d: Date)
    requires Inv(s) && Extended(s, step) == Some(d)
    ensures IsLatest(After(s, step).charges, NextDue(s.sub, d))
  {
    ExtendingAddsLast(s, step, d);
    LatestOfLarger(s.charges, After(s, step).charges, d, NextDue(s.sub, d));
  }

  // ----- edits

  lemma UpdateFeeds(s: State, e: Edit)
    requires Update(s, e).Success?
    ensures Fed(Update(s, e).value) <==> StepFeeds(s, DoUpdate(e))
  {
    var s' := Update(s, e).value;
    SameLatest(s.charges, s'.charges);
    forall d | d in s.charges
      ensures Editable(s'.charges[d]) <==>
              Editable(s.charges[d]) && (e.Commercial() ==> CheckedTotal(s.sub, e) > PaidAmount(s.charges[d]))
    {
      if e.Commercial() { EditMovesBalances(s, e, d); }
    }
    assert s'.charges.Keys == s.charges.Keys;
  }

  // ----- payments

  lemma UnsettledFeeds(s: State, due: Date, amount: int, paidDate: Date)
    requires Inv(s) && Pay(s, due, amount, paidDate).Success? && amount < Outstanding(s.charges[due])
    ensures Fed(Pay(s, due, amount, paidDate).value)
  {
    PaymentEffect(s, due, amount, paidDate);
    assert Editable(Pay(s, due, amount, paidDate).value.charges[due]);
  }

  /** Without a renewal the settled charge stays the last one. */
  lemma LastPaymentFeeds(s: State, due: Date, amount: int, paidDate: Date)
    requires Inv(s) && Settles(s, due, amount, paidDate) && !Renews(s.sub, due)
    ensures Fed(Pay(s, due, amount, paidDate).value)
  {
    var s' := Pay(s, due, amount, paidDate).value;
    OwingIsLatest(s.charges, due);
    PaymentEffect(s, due, amount, paidDate);
    LatestIsUnique(s'.charges, due);
  }

  lemma BlockedPaymentStarves(s: State, due: Date, amount: int, paidDate: Date)
    requires Inv(s) && Settles(s, due, amount, paidDate) && Renews(s.sub, due)
    requires NextDue(s.sub, due) in s.charges
    ensures !Fed(Pay(s, due, amount, paidDate).value)
  {
    var s' := Pay(s, due, amount, paidDate).value;
    OwingIsLatest(s.charges, due);
    PaymentEffect(s, due, amount, paidDate);
    PaidOffOwesNothing(s, due, amount, paidDate);
    LatestIsUnique(s'.charges, due);
  }

  lemma RenewalOwes(s: State, due: Date, amount: int, paidDate: Date)
    requires Inv(s) && Settles(s, due, amount, paidDate) && Renews(s.sub, due)
    requires NextDue(s.sub, due) !in s.charges
    ensures var s' := Pay(s, due, amount, paidDate).value;
            var next := NextDue(s.sub, due);
            && next in s'.charges && (Outstanding(s'.charges[next]) > 0 <==> GrossPrice(s.sub) > 0)
            && s'.sub == s.sub.(nextBilling := next)
  {
    PaymentEffect(s, due, amount, paidDate);
  }

  lemma RenewingPaymentFeeds(s: State, due: Date, amount: int, paidDate: Date)
    requires Inv(s) && Settles(s, due, amount, paidDate) && Renews(s.sub, due)
    requires NextDue(s.sub, due) !in s.charges
    ensures Fed(Pay(s, due, amount, paidDate).value) <==>
            Suffices(s.sub, NextDue(s.sub, due), GrossPrice(s.sub))
  {
    ExtendingMakesLast(s, DoPay(due, amount, paidDate), due);
    PayKeeps(s, due, amount, paidDate);
    RenewalOwes(s, due, amount, paidDate);
    FedByLast(Pay(s, due, amount, paidDate).value, NextDue(s.sub, due));
  }

  lemma PayFeeds(s: State, due: Date, amount: int, paidDate: Date)
    requires Inv(s) && Pay(s, due, amount, paidDate).Success?
    ensures Fed(Pay(s, due, amount, paidDate).value) <==> StepFeeds(s, DoPay(due, amount, paidDate))
  {
    if !Settles(s, due, amount, paidDate) {
      UnsettledFeeds(s, due, amount, paidDate);
    } else if !Renews(s.sub, due) {
      LastPaymentFeeds(s, due, amount, paidDate);
    } else if NextDue(s.sub, due) in s.charges {
      BlockedPaymentStarves(s, due, amount, paidDate);
    } else {
      RenewingPaymentFeeds(s, due, amount, paidDate);
    }
  }

  // ----- resumptions

  lemma ResumptionOwes(s: State, today: Date, d: Date)
    requires Extended(s, DoResume(today)) == Some(d)
    ensures Resume(s, today).Success?
    ensures var s' := Resume(s, today).value;
            var next := NextDue(s.sub, d);
            && next in s'.charges && (Outstanding(s'.charges[next]) > 0 <==> ReopenedBalance(s, next) > 0)
            && s'.sub == Reactivate(s.sub).(nextBilling := next)
  {
  }

  lemma ExtendingResumptionFeeds(s: State, today: Date, d: Date)
    requires Inv(s) && Extended(s, DoResume(today)) == Some(d)
    ensures Resume(s, today).Success?
    ensures Fed(Resume(s, today).value) <==>
            Suffices(s.sub, NextDue(s.sub, d), ReopenedBalance(s, NextDue(s.sub, d)))
  {
    ResumptionOwes(s, today, d);
    ExtendingMakesLast(s, DoResume(today), d);
    ResumeKeeps(s, today);
    FedByLast(Resume(s, today).value, NextDue(s.sub, d));
  }

  lemma ResumeFeeds(s: State, today: Date)
    requires Inv(s) && Resume(s, today).Success?
    ensures Fed(Resume(s, today).value) <==> StepFeeds(s, DoResume(today))
  {
    match LatestDue(s.charges)
    case None => NoLatestNoneLive(s.charges);
    case Some(d) =>
      if s.sub.interval != OneOff && Outstanding(s.charges[d]) == 0 {
        ExtendingResumptionFeeds(s, today, d);
      } else if s.sub.interval != OneOff {
        assert RowOk(d, s.charges[d]);
        assert Editable(Resume(s, today).value.charges[d]);
      }
  }

  // ----- from steps to runs

  /** One step from a state that is fed leads to one exactly on the condition for that step. */
  lemma StepFeedsExactly(s: State, step: Step)
    requires Inv(s) && Fed(s)
    ensures Fed(After(s, step)) <==> StepFeeds(s, step)
  {
    if Apply(s, step).Success? {
      match step
      case DoUpdate(e) => UpdateFeeds(s, e);
      case DoPay(due, amount, paidDate) => PayFeeds(s, due, amount, paidDate);
      case DoResume(today) => ResumeFeeds(s, today);
      case _ =>
    }
  }

  ghost predicate AlwaysFed(s: State, steps: seq<Step>)
    decreases |steps|
  {
    Fed(s) && (steps != [] ==> AlwaysFed(After(s, steps[0]), steps[1..]))
  }

  ghost predicate AlwaysFeeds(s: State, steps: seq<Step>)
    decreases |steps|
  {
    steps != [] ==> StepFeeds(s, steps[0]) && AlwaysFeeds(After(s, steps[0]), steps[1..])
  }

  lemma {:induction false} RunFeeds(s: State, steps: seq<Step>)
    requires Inv(s) && Fed(s)
    ensures AlwaysFed(s, steps) <==> AlwaysFeeds(s, steps)
    decreases |steps|
  {
    if steps != [] {
      var s' := After(s, steps[0]);
      AfterKeeps(s, steps[0]);
      StepFeedsExactly(s, steps[0]);
      if Fed(s') { RunFeeds(s', steps[1..]); }
    }
  }

  /** A new subscription is fed unless it is recurring, renews, costs nothing and has room. */
  lemma StartFeeds(sub: Subscription)
    requires ValidNew(sub)
    ensures Fed(Init(sub)) <==> sub.interval == OneOff || Suffices(sub, sub.nextBilling, GrossPrice(sub))
  {
    var s := Init(sub);
    InitKeeps(sub);
    assert IsLatest(s.charges, sub.nextBilling);
    assert RowOk(sub.nextBilling, s.charges[sub.nextBilling]);
    if sub.interval != OneOff { FedByLast(s, sub.nextBilling); }
  }

  /**
   * For every run with any edits: in all its states an active, recurring, automatically renewing
   * subscription with room before its end date has something to be paid, if and only if its first
   * charge suffices and each step meets its condition.
   */
  lemma BillingGoesOnExactly(sub: Subscription, steps: seq<Step>)
    requires ValidNew(sub)
    ensures AlwaysFed(Init(sub), steps) <==>
            && (sub.interval == OneOff || Suffices(sub, sub.nextBilling, GrossPrice(sub)))
            && AlwaysFeeds(Init(sub), steps)
  {
    InitKeeps(sub);
    StartFeeds(sub);
    if Fed(Init(sub)) { RunFeeds(Init(sub), steps); }
  }
}
