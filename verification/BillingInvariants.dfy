/** What every run of the billing operations keeps, across price and interval edits. */
module BillingInvariants {
  import opened Wrappers
  import opened Calendar
  import opened Money
  import opened Billing

  // ----- the invariant

  predicate AllPositive(payments: seq<Payment>) {
    forall i | 0 <= i < |payments| :: payments[i].amount > 0
  }

  /** Amounts add up, payments never exceed the total, and coverage starts on the due date. */
  predicate RowOk(due: Date, c: Charge) {
    && c.coverageStart == due && Le(due, c.coverageEnd)
    && !c.state.Waived?
    && 0 <= c.net && 0 <= c.rate <= FULL_RATE
    && c.tax == Tax(c.net, c.rate) && c.gross == c.net + c.tax
    && AllPositive(c.payments)
    && 0 <= PaidAmount(c) <= c.gross
  }

  predicate RowsOk(charges: Charges) {
    forall d | d in charges :: RowOk(d, charges[d])
  }

  /** Of the live charges only the last one can carry a balance. */
  predicate OnlyLastOwes(charges: Charges) {
    forall a, b | a in charges && b in charges && Live(charges[a]) && Live(charges[b]) && Lt(a, b) ::
      Outstanding(charges[a]) == 0
  }

  predicate SubOk(sub: Subscription) {
    && SubscriptionConstraints(sub)
    && (sub.status.Active? ==> sub.cancelDate.None? && sub.cancelledAt.None?)
    && (sub.status.Cancelling? ==> sub.cancelDate.Some?)
  }

  predicate Inv(s: State) {
    SubOk(s.sub) && RowsOk(s.charges) && OnlyLastOwes(s.charges)
  }

  // ----- amounts

  lemma TaxIsNonnegative(net: int, rate: int)
    requires net >= 0 && rate >= 0
    ensures Tax(net, rate) >= 0
  {
    assert net * rate >= 0;
    Division(net * rate, FULL_RATE);
  }

  lemma {:induction false} PositivePaymentsAddUp(payments: seq<Payment>)
    requires AllPositive(payments)
    ensures Total(payments) >= 0
    ensures Total(payments) == 0 <==> payments == []
  {
    if payments == [] {
    } else {
      PositivePaymentsAddUp(payments[..|payments| - 1]);
    }
  }

  lemma TotalOfAppend(payments: seq<Payment>, p: Payment)
    ensures Total(payments + [p]) == Total(payments) + p.amount
  {
    assert (payments + [p])[..|payments|] == payments;
  }

  /** The total checked before an edit is the total stored by it. */
  lemma CheckedTotalIsStored(sub: Subscription, e: Edit, c: Charge)
    ensures CheckedTotal(sub, e) == GrossPrice(ApplyEdit(sub, e)) == Reprice(c, ApplyEdit(sub, e)).gross
  {
  }

  // ----- the latest charge

  lemma LatestIsUnique(charges: Charges, d: Date)
    requires IsLatest(charges, d)
    ensures LatestDue(charges) == Some(d)
  {
    KeyIsInjective(LatestDue(charges).value, d);
  }

  // ----- each operation keeps the invariant

  lemma NewChargeOk(sub: Subscription, due: Date)
    requires SubscriptionConstraints(sub)
    ensures RowOk(due, NewCharge(sub, due))
  {
    TaxIsNonnegative(sub.netPrice, sub.taxRate);
  }

  /** A charge may be added after the last live one when nothing is owed. */
  lemma EnsureKeeps(s: State, due: Date)
    requires Inv(s)
    requires forall d | d in s.charges && Live(s.charges[d]) :: Lt(d, due) && Outstanding(s.charges[d]) == 0
    ensures Inv(EnsureCharge(s, due))
  {
    NewChargeOk(s.sub, due);
  }

  lemma InitKeeps(sub: Subscription)
    requires ValidNew(sub)
    ensures Inv(Init(sub))
  {
    EnsureKeeps(State(sub, map[]), sub.nextBilling);
  }

  lemma UpdateKeeps(s: State, e: Edit)
    requires Inv(s) && Update(s, e).Success?
    ensures Inv(Update(s, e).value)
  {
    var sub := ApplyEdit(s.sub, e);
    if e.Commercial() {
      TaxIsNonnegative(sub.netPrice, sub.taxRate);
      var charges := RepriceAll(s.charges, sub);
      forall d | d in charges ensures RowOk(d, charges[d]) {
        assert RowOk(d, s.charges[d]);
      }
    }
  }

  function Receive(c: Charge, p: Payment): Charge { c.(payments := c.payments + [p]) }

  /** Taking a payment up to the balance lowers the balance by exactly that amount. */
  lemma ReceiveOk(due: Date, c: Charge, p: Payment)
    requires RowOk(due, c) && 0 < p.amount <= Outstanding(c)
    ensures RowOk(due, Receive(c, p))
    ensures Outstanding(Receive(c, p)) == Outstanding(c) - p.amount
  {
    TotalOfAppend(c.payments, p);
  }

  lemma ReceiveKeeps(s: State, due: Date, p: Payment)
    requires Inv(s) && due in s.charges && 0 < p.amount <= Outstanding(s.charges[due])
    ensures Inv(s.(charges := s.charges[due := Receive(s.charges[due], p)]))
  {
    ReceiveOk(due, s.charges[due], p);
  }

  /** Below a live charge that owes or just owed, everything is settled, and nothing is above it. */
  lemma AdvanceKeeps(s: State, due: Date)
    requires Inv(s) && due in s.charges && Live(s.charges[due])
    requires forall d | d in s.charges && Live(s.charges[d]) :: Le(d, due)
    ensures Inv(Advance(s, due))
  {
    if Advance(s, due) != s {
      var next := AddMonths(due, IntervalMonths(s.sub.interval));
      AddMonthsIncreases(due, IntervalMonths(s.sub.interval));
      forall d | d in s.charges && Live(s.charges[d])
        ensures Lt(d, next) && Outstanding(s.charges[d]) == 0
      {
        if !Lt(d, due) { KeyIsInjective(d, due); }
      }
      EnsureKeeps(s.(sub := s.sub.(nextBilling := next)), next);
    }
  }

  lemma OwingIsLatest(charges: Charges, due: Date)
    requires OnlyLastOwes(charges) && due in charges && Editable(charges[due])
    ensures forall d | d in charges && Live(charges[d]) :: Le(d, due)
  {
  }

  lemma PayKeeps(s: State, due: Date, amount: int, paidDate: Date)
    requires Inv(s) && Pay(s, due, amount, paidDate).Success?
    ensures Inv(Pay(s, due, amount, paidDate).value)
  {
    var p := Payment(amount, paidDate);
    OwingIsLatest(s.charges, due);
    ReceiveKeeps(s, due, p);
    AdvanceKeeps(s.(charges := s.charges[due := Receive(s.charges[due], p)]), due);
  }

  lemma DropKeeps(charges: Charges, day: Date)
    requires RowsOk(charges) && OnlyLastOwes(charges)
    ensures RowsOk(DropAfter(charges, day)) && OnlyLastOwes(DropAfter(charges, day))
  {
    var charges' := DropAfter(charges, day);
    forall d | d in charges' ensures RowOk(d, charges'[d]) {
      assert RowOk(d, charges[d]);
    }
  }

  lemma ReopenKeeps(s: State, next: Date)
    requires Inv(s)
    requires forall d | d in s.charges && Live(s.charges[d]) :: Lt(d, next) && Outstanding(s.charges[d]) == 0
    ensures Inv(Reopen(s, next))
  {
    if next in s.charges && s.charges[next].state.Cancelled? {
      assert RowOk(next, s.charges[next]);
    } else {
      EnsureKeeps(s, next);
    }
  }

  lemma ResumeKeeps(s: State, today: Date)
    requires Inv(s) && Resume(s, today).Success?
    ensures Inv(Resume(s, today).value)
  {
    var latest := LatestDue(s.charges);
    var months := IntervalMonths(s.sub.interval);
    if latest.Some? && Outstanding(s.charges[latest.value]) == 0 && months > 0 {
      var next := AddMonths(latest.value, months);
      AddMonthsIncreases(latest.value, months);
      forall d | d in s.charges && Live(s.charges[d])
        ensures Lt(d, next) && Outstanding(s.charges[d]) == 0
      {
        if !Lt(d, latest.value) { KeyIsInjective(d, latest.value); }
      }
      ReopenKeeps(State(Reactivate(s.sub).(nextBilling := next), s.charges), next);
    }
  }

  lemma AfterKeeps(s: State, step: Step)
    requires Inv(s)
    ensures Inv(After(s, step))
  {
    if Apply(s, step).Success? {
      match step
      case DoUpdate(e) => UpdateKeeps(s, e);
      case DoPay(due, amount, paidDate) => PayKeeps(s, due, amount, paidDate);
      case DoCancel(immediate, today, now) => DropKeeps(s.charges, CancelDay(s, immediate, today));
      case DoPause(today) => DropKeeps(s.charges, today);
      case DoExpire(today) => DropKeeps(s.charges, today);
      case DoResume(today) => ResumeKeeps(s, today);
    }
  }

  lemma {:induction false} RunKeeps(s: State, steps: seq<Step>)
    requires Inv(s)
    ensures Inv(Run(s, steps))
    decreases |steps|
  {
    if steps == [] {
    } else {
      AfterKeeps(s, steps[0]);
      RunKeeps(After(s, steps[0]), steps[1..]);
    }
  }

  /** The invariant holds in every state that any run of the service can reach. */
  lemma ReachableIsInvariant(s: State)
    requires Reachable(s)
    ensures Inv(s)
  {
    var sub, steps :| ValidNew(sub) && s == Run(Init(sub), steps);
    InitKeeps(sub);
    RunKeeps(Init(sub), steps);
  }

  /** At most one open charge of a subscription ever carries a balance, and it is the latest one. */
  lemma AtMostOneBalance(s: State, a: Date, b: Date)
    requires Reachable(s)
    requires a in s.charges && Editable(s.charges[a])
    requires b in s.charges && Live(s.charges[b])
    ensures Le(b, a)
    ensures Outstanding(s.charges[b]) > 0 ==> a == b
  {
    ReachableIsInvariant(s);
    if Outstanding(s.charges[b]) > 0 {
      assert !Lt(a, b) && !Lt(b, a);
      KeyIsInjective(a, b);
    }
  }

  // ----- history

  predicate SameTerms(c: Charge, c': Charge) {
    && c'.net == c.net && c'.rate == c.rate && c'.tax == c.tax && c'.gross == c.gross
    && c'.currency == c.currency
  }

  /** How one charge may develop: only its state once it is settled, never its currency once paid on. */
  predicate Develops(c: Charge, c': Charge) {
    && c'.coverageStart == c.coverageStart && c'.coverageEnd == c.coverageEnd
    && c.payments <= c'.payments
    && (Outstanding(c) == 0 ==> SameTerms(c, c') && c'.payments == c.payments)
    && (c.payments != [] ==> c'.currency == c.currency)
  }

  predicate AllDevelop(charges: Charges, charges': Charges) {
    forall d | d in charges :: d in charges' && Develops(charges[d], charges'[d])
  }

  lemma UpdateDevelops(s: State, e: Edit)
    requires Inv(s) && Update(s, e).Success?
    ensures AllDevelop(s.charges, Update(s, e).value.charges)
  {
    var s' := Update(s, e).value;
    forall d | d in s.charges ensures d in s'.charges && Develops(s.charges[d], s'.charges[d]) {
      assert RowOk(d, s.charges[d]);
      PositivePaymentsAddUp(s.charges[d].payments);
    }
  }

  lemma PayDevelops(s: State, due: Date, amount: int, paidDate: Date)
    requires Pay(s, due, amount, paidDate).Success?
    ensures AllDevelop(s.charges, Pay(s, due, amount, paidDate).value.charges)
  {
    var p := Payment(amount, paidDate);
    var s1 := s.(charges := s.charges[due := Receive(s.charges[due], p)]);
    assert AllDevelop(s.charges, s1.charges);
  }

  lemma DropDevelops(charges: Charges, day: Date)
    ensures AllDevelop(charges, DropAfter(charges, day))
  {
  }

  lemma ResumeDevelops(s: State, today: Date)
    requires Resume(s, today).Success?
    ensures AllDevelop(s.charges, Resume(s, today).value.charges)
  {
  }

  lemma AfterDevelops(s: State, step: Step)
    requires Inv(s)
    ensures AllDevelop(s.charges, After(s, step).charges)
  {
    if Apply(s, step).Success? {
      match step
      case DoUpdate(e) => UpdateDevelops(s, e);
      case DoPay(due, amount, paidDate) => PayDevelops(s, due, amount, paidDate);
      case DoCancel(immediate, today, now) => DropDevelops(s.charges, CancelDay(s, immediate, today));
      case DoPause(today) => DropDevelops(s.charges, today);
      case DoExpire(today) => DropDevelops(s.charges, today);
      case DoResume(today) => ResumeDevelops(s, today);
    }
  }

  lemma DevelopsIsTransitive(a: Charge, b: Charge, c: Charge)
    requires Develops(a, b) && Develops(b, c)
    ensures Develops(a, c)
  {
  }

  lemma {:induction false} RunDevelops(s: State, steps: seq<Step>)
    requires Inv(s)
    ensures AllDevelop(s.charges, Run(s, steps).charges)
    decreases |steps|
  {
    if steps == [] {
    } else {
      var s1, s2 := After(s, steps[0]), Run(s, steps);
      AfterDevelops(s, steps[0]);
      AfterKeeps(s, steps[0]);
      RunDevelops(s1, steps[1..]);
      forall d | d in s.charges ensures d in s2.charges && Develops(s.charges[d], s2.charges[d]) {
        DevelopsIsTransitive(s.charges[d], s1.charges[d], s2.charges[d]);
      }
    }
  }

  /**
   * History is frozen: from any reachable state on, no run removes a charge, touches the terms or
   * payments of a settled one, takes a payment back or changes the currency of a payment.
   */
  lemma HistoryIsFrozen(s: State, steps: seq<Step>, d: Date)
    requires Reachable(s) && d in s.charges
    ensures d in Run(s, steps).charges
    ensures Develops(s.charges[d], Run(s, steps).charges[d])
  {
    ReachableIsInvariant(s);
    RunDevelops(s, steps);
  }

  // ----- what edits, payments and stops do to the charges

  /**
   * An accepted commercial edit moves every open balance to the checked total minus what was
   * paid, so a balance ends at zero exactly when the new total is the amount already paid; it
   * touches no other charge and creates none, not even after a charge it settles.
   */
  lemma EditMovesBalances(s: State, e: Edit, d: Date)
    requires e.Commercial() && Update(s, e).Success? && d in s.charges
    ensures var charges := Update(s, e).value.charges;
            && charges.Keys == s.charges.Keys
            && charges[d].payments == s.charges[d].payments
            && charges[d].state == s.charges[d].state
            && (if Editable(s.charges[d])
                then Outstanding(charges[d]) == CheckedTotal(s.sub, e) - PaidAmount(s.charges[d])
                else charges[d] == s.charges[d])
  {
    if Editable(s.charges[d]) { CheckedTotalIsStored(s.sub, e, s.charges[d]); }
  }

  /** When a settled charge gets its successor. */
  predicate Renews(sub: Subscription, due: Date) {
    && sub.interval != OneOff && sub.status.Active? && sub.autoRenew
    && (sub.endDate.None? || Le(AddMonths(due, IntervalMonths(sub.interval)), sub.endDate.value))
  }

  /** The state after a payment is taken and before the next charge is considered. */
  function Received(s: State, due: Date, p: Payment): State
    requires due in s.charges
  {
    s.(charges := s.charges[due := Receive(s.charges[due], p)])
  }

  lemma AdvanceEffect(s: State, due: Date)
    requires due in s.charges
    ensures var s' := Advance(s, due);
            var next := AddMonths(due, IntervalMonths(s.sub.interval));
            if Outstanding(s.charges[due]) == 0 && Renews(s.sub, due) then
              && s'.sub == s.sub.(nextBilling := next)
              && s'.charges == (if next in s.charges then s.charges else s.charges[next := NewCharge(s.sub, next)])
            else s' == s
  {
  }

  /**
   * A payment lowers one balance by its amount.  A new charge appears exactly when it settles the
   * charge of a subscription that renews and the next due date is still free; that charge is due
   * one interval later at the current price, and it becomes what is billed next.
   */
  lemma PaymentEffect(s: State, due: Date, amount: int, paidDate: Date)
    requires Inv(s) && Pay(s, due, amount, paidDate).Success?
    ensures var s' := Pay(s, due, amount, paidDate).value;
            var next := AddMonths(due, IntervalMonths(s.sub.interval));
            var received := Received(s, due, Payment(amount, paidDate));
            && Outstanding(received.charges[due]) == Outstanding(s.charges[due]) - amount
            && PaidAmount(received.charges[due]) == PaidAmount(s.charges[due]) + amount
            && if amount == Outstanding(s.charges[due]) && Renews(s.sub, due) then
                 && s'.sub == s.sub.(nextBilling := next)
                 && s'.charges == (if next in s.charges then received.charges
                                   else received.charges[next := NewCharge(s.sub, next)])
               else s' == received
  {
    var p := Payment(amount, paidDate);
    ReceiveOk(due, s.charges[due], p);
    TotalOfAppend(s.charges[due].payments, p);
    AdvanceEffect(Received(s, due, p), due);
    if IntervalMonths(s.sub.interval) > 0 { AddMonthsIncreases(due, IntervalMonths(s.sub.interval)); }
  }

  /**
   * While a subscription is not active and nobody resumes it, no run creates or reopens a charge,
   * whatever is paid or edited.
   */
  lemma {:induction false} StoppedCreatesNothing(s: State, steps: seq<Step>)
    requires !s.sub.status.Active?
    requires forall i | 0 <= i < |steps| :: !steps[i].DoResume?
    ensures Run(s, steps).charges.Keys == s.charges.Keys
    ensures forall d | d in s.charges && Live(Run(s, steps).charges[d]) :: Live(s.charges[d])
    decreases |steps|
  {
    if steps == [] {
    } else {
      StoppedStep(s, steps[0]);
      StoppedCreatesNothing(After(s, steps[0]), steps[1..]);
    }
  }

  lemma StoppedStep(s: State, step: Step)
    requires !s.sub.status.Active? && !step.DoResume?
    ensures !After(s, step).sub.status.Active?
    ensures After(s, step).charges.Keys == s.charges.Keys
    ensures forall d | d in s.charges && Live(After(s, step).charges[d]) :: Live(s.charges[d])
  {
  }

  predicate NothingOwed(charges: Charges) {
    forall d | d in charges :: !Editable(charges[d])
  }

  predicate Stops(step: Step) { step.DoCancel? || step.DoPause? || step.DoExpire? }

  /**
   * An active subscription on which nothing is owed is stuck: until it is stopped, no run of
   * edits, payments and resumptions changes or adds a charge.
   */
  lemma {:induction false} SettledIsStuck(s: State, steps: seq<Step>)
    requires s.sub.status.Active? && NothingOwed(s.charges)
    requires forall i | 0 <= i < |steps| :: !Stops(steps[i])
    ensures Run(s, steps).charges == s.charges
    decreases |steps|
  {
    if steps == [] {
    } else {
      SettledStep(s, steps[0]);
      SettledIsStuck(After(s, steps[0]), steps[1..]);
    }
  }

  lemma SettledStep(s: State, step: Step)
    requires s.sub.status.Active? && NothingOwed(s.charges) && !Stops(step)
    ensures After(s, step).sub.status.Active? && After(s, step).charges == s.charges
  {
    if step.DoUpdate? {
      var sub := ApplyEdit(s.sub, step.edit);
      assert RepriceAll(s.charges, sub) == s.charges;
    }
  }
}
