/**
 * What each billing operation refuses and what it changes, field by field, in terms of the rows
 * before it, the submitted values and the day count.
 */
module BillingEffects {
  import opened Wrappers
  import opened Calendar
  import opened DayNumbers
  import opened Money
  import opened Billing
  import opened BillingInvariants

  // ----- amounts and dates

  /** The submitted value, or the one before if none was submitted. */
  predicate Becomes<T(==)>(submitted: Option<T>, before: T, after: T) {
    match submitted
    case Some(v) => after == v
    case None => after == before
  }

  /** The tax in cents for a rate in hundredths of a percent, halves away from zero. */
  predicate IsTax(net: int, rate: int, tax: int) {
    var excess := 20000 * tax - 2 * (net * rate);
    && -10000 <= excess <= 10000
    && (net * rate >= 0 ==> excess != -10000)
    && (net * rate <= 0 ==> excess != 10000)
  }

  lemma TaxIs(net: int, rate: int, tax: int)
    ensures IsTax(net, rate, tax) <==> tax == Tax(net, rate)
  {
    HalfUpIsNearest(net * rate, 10000);
    if IsTax(net, rate, tax) { HalfUpIsUnique(net * rate, 10000, tax); }
  }

  /** What was paid is the sum of the payments. */
  lemma PaidAmountAddsUp(c: Charge, p: Payment)
    ensures PaidAmount(c.(payments := [])) == 0
    ensures PaidAmount(c.(payments := c.payments + [p])) == PaidAmount(c) + p.amount
  {
    TotalOfAppend(c.payments, p);
  }

  /** One billing interval after a due date; one-off subscriptions have none. */
  predicate IsNextDue(interval: Interval, due: Date, next: Date) {
    match interval
    case OneOff => false
    case Monthly => IsMonthsLater(due, 1, next)
    case Quarterly => IsMonthsLater(due, 3, next)
    case Semiannual => IsMonthsLater(due, 6, next)
    case Annual => IsMonthsLater(due, 12, next)
  }

  lemma NextDueIs(sub: Subscription, due: Date, next: Date)
    ensures IsNextDue(sub.interval, due, next) <==> sub.interval != OneOff && next == NextDue(sub, due)
    ensures IsNextDue(sub.interval, due, next) ==> Lt(due, next)
  {
    match sub.interval
    case OneOff =>
    case Monthly => MonthsLaterIs(due, 1, next);
    case Quarterly => MonthsLaterIs(due, 3, next);
    case Semiannual => MonthsLaterIs(due, 6, next);
    case Annual => MonthsLaterIs(due, 12, next);
  }

  lemma MonthsLaterIs(due: Date, months: nat, next: Date)
    requires months >= 1
    ensures IsMonthsLater(due, months, next) <==> next == AddMonths(due, months)
    ensures IsMonthsLater(due, months, next) ==> Lt(due, next)
  {
    AddMonthsIsNumbered(due, months, next);
    AddMonthsIncreases(due, months);
  }

  /** Coverage ends the day before the next due date, or at once for a one-off subscription. */
  predicate IsCoverageEnd(interval: Interval, start: Date, end: Date) {
    if interval == OneOff then end == start
    else NumberOf(NextDay(end)) == NumberOf(end) + 1 && IsNextDue(interval, start, NextDay(end))
  }

  lemma PeriodEndIs(sub: Subscription, start: Date)
    ensures IsCoverageEnd(sub.interval, start, PeriodEnd(sub.interval, start))
  {
    if sub.interval != OneOff {
      NextDayIsNumbered(PeriodEnd(sub.interval, start));
      NextDueIs(sub, start, NextDue(sub, start));
    }
  }

  // ----- new charges

  /** A new charge on the terms of the subscription. */
  predicate IsNewCharge(sub: Subscription, due: Date, c: Charge) {
    && c.coverageStart == due && IsCoverageEnd(sub.interval, due, c.coverageEnd)
    && c.net == sub.netPrice && c.rate == sub.taxRate && c.currency == sub.currency
    && IsTax(c.net, c.rate, c.tax) && c.gross == c.net + c.tax
    && c.state == Open && c.payments == []
  }

  lemma NewChargeIs(sub: Subscription, due: Date)
    ensures IsNewCharge(sub, due, NewCharge(sub, due))
  {
    PeriodEndIs(sub, due);
    TaxIs(sub.netPrice, sub.taxRate, TaxAmount(sub));
  }

  /** What is accepted as a new subscription, and its first charge. */
  lemma CreationEffect(sub: Subscription)
    ensures ValidNew(sub) <==>
            && 0 <= sub.taxRate <= 10000 && sub.netPrice >= 0
            && (sub.endDate.Some? ==> Le(sub.startDate, sub.endDate.value) && Le(sub.nextBilling, sub.endDate.value))
            && sub.status == Active && sub.cancelDate == None && sub.cancelledAt == None
    ensures Init(sub).sub == sub && Init(sub).charges.Keys == {sub.nextBilling}
    ensures IsNewCharge(sub, sub.nextBilling, Init(sub).charges[sub.nextBilling])
  {
    NewChargeIs(sub, sub.nextBilling);
  }

  // ----- edits

  /** An open charge on which less was paid than its total. */
  predicate Owing(c: Charge) { c.state == Open && PaidAmount(c) < c.gross }

  predicate EditsTerms(e: Edit) { e.netPrice.Some? || e.taxRate.Some? || e.currency.Some? }

  /** The terms after an edit: the submitted values, or else those of the subscription before. */
  datatype Terms = Terms(net: int, rate: int, tax: int, currency: Currency, start: Date, end: Option<Date>)

  predicate AreTerms(sub: Subscription, e: Edit, t: Terms) {
    && Becomes(e.netPrice, sub.netPrice, t.net)
    && Becomes(e.taxRate, sub.taxRate, t.rate)
    && IsTax(t.net, t.rate, t.tax)
    && Becomes(e.currency, sub.currency, t.currency)
    && Becomes(e.startDate, sub.startDate, t.start)
    && Becomes(e.endDate, sub.endDate, t.end)
  }

  predicate BelowPaid(s: State, t: Terms) {
    exists d | d in s.charges :: Owing(s.charges[d]) && PaidAmount(s.charges[d]) > t.net + t.tax
  }

  predicate PaidInOther(s: State, t: Terms) {
    exists d | d in s.charges ::
      Owing(s.charges[d]) && PaidAmount(s.charges[d]) > 0 && s.charges[d].currency != t.currency
  }

  predicate TermsAllowed(t: Terms) {
    0 <= t.rate <= 10000 && 0 <= t.net && (t.end.Some? ==> Le(t.start, t.end.value))
  }

  lemma TermsOf(s: State, e: Edit, t: Terms)
    requires AreTerms(s.sub, e, t)
    ensures e.Commercial() <==> EditsTerms(e)
    ensures CheckedTotal(s.sub, e) == t.net + t.tax && ApplyEdit(s.sub, e).currency == t.currency
    ensures SubscriptionConstraints(ApplyEdit(s.sub, e)) <==> TermsAllowed(t)
    ensures forall d | d in s.charges :: Editable(s.charges[d]) <==> Owing(s.charges[d])
  {
    TaxIs(t.net, t.rate, t.tax);
  }

  /** Exactly when an edit is accepted, and why it is refused otherwise. */
  lemma UpdateOutcome(s: State, e: Edit, t: Terms)
    requires AreTerms(s.sub, e, t)
    ensures var r := Update(s, e);
            if EditsTerms(e) && BelowPaid(s, t) then r == Failure(TotalBelowPaid)
            else if EditsTerms(e) && PaidInOther(s, t) then r == Failure(CurrencyLocked)
            else if !TermsAllowed(t) then r == Failure(ConstraintViolated)
            else r.Success?
  {
    TermsOf(s, e, t);
  }

  /** An accepted edit sets each submitted field of the subscription and no other. */
  lemma UpdateSetsFields(s: State, e: Edit)
    requires Update(s, e).Success?
    ensures var sub, sub' := s.sub, Update(s, e).value.sub;
            && Becomes(e.netPrice, sub.netPrice, sub'.netPrice)
            && Becomes(e.taxRate, sub.taxRate, sub'.taxRate)
            && Becomes(e.currency, sub.currency, sub'.currency)
            && Becomes(e.interval, sub.interval, sub'.interval)
            && Becomes(e.startDate, sub.startDate, sub'.startDate)
            && Becomes(e.nextBilling, sub.nextBilling, sub'.nextBilling)
            && Becomes(e.endDate, sub.endDate, sub'.endDate)
            && Becomes(e.autoRenew, sub.autoRenew, sub'.autoRenew)
            && sub'.status == sub.status && sub'.cancelDate == sub.cancelDate && sub'.cancelledAt == sub.cancelledAt
  {
  }

  /** The charge before and after its terms were replaced. */
  predicate IsRepriced(c: Charge, c': Charge, t: Terms) {
    && c'.net == t.net && c'.rate == t.rate && c'.tax == t.tax && c'.gross == t.net + t.tax
    && c'.currency == t.currency
    && c'.coverageStart == c.coverageStart && c'.coverageEnd == c.coverageEnd
    && c'.state == c.state && c'.payments == c.payments
  }

  /**
   * An accepted edit of the price, the rate or the currency gives the charges with a balance the
   * new terms and leaves everything else about them; all other charges stay as they are.
   */
  lemma UpdateReprices(s: State, e: Edit, t: Terms, d: Date)
    requires AreTerms(s.sub, e, t) && Update(s, e).Success?
    ensures var charges := Update(s, e).value.charges;
            && charges.Keys == s.charges.Keys
            && (d in s.charges ==>
                  if EditsTerms(e) && Owing(s.charges[d]) then IsRepriced(s.charges[d], charges[d], t)
                  else charges[d] == s.charges[d])
  {
    TermsOf(s, e, t);
    TaxIs(t.net, t.rate, t.tax);
  }

  // ----- payments

  /** Exactly when a payment is accepted, and why it is refused otherwise. */
  lemma PaymentOutcome(s: State, due: Date, amount: int, paidDate: Date)
    ensures var r := Pay(s, due, amount, paidDate);
            if due !in s.charges then r == Failure(NoSuchCharge)
            else if s.charges[due].state != Open then r == Failure(ChargeNotOpen)
            else if amount <= 0 then r == Failure(AmountNotPositive)
            else if PaidAmount(s.charges[due]) + amount > s.charges[due].gross then r == Failure(AmountAboveBalance)
            else r.Success?
  {
  }

  /** The subscription goes on to the given due date once the charge before it is paid. */
  predicate GoesOnTo(sub: Subscription, next: Date) {
    && sub.interval != OneOff && sub.status == Active && sub.autoRenew
    && (sub.endDate.Some? ==> Le(next, sub.endDate.value))
  }

  predicate PaysOff(c: Charge, amount: int) { PaidAmount(c) + amount == c.gross }

  lemma SettlingIs(s: State, due: Date, amount: int, paidDate: Date)
    requires Pay(s, due, amount, paidDate).Success?
    ensures Outstanding(Received(s, due, Payment(amount, paidDate)).charges[due]) == 0
       <==> PaysOff(s.charges[due], amount)
  {
    TotalOfAppend(s.charges[due].payments, Payment(amount, paidDate));
  }

  /** A payment that does not lead on appends itself to its charge and changes nothing else. */
  lemma PaymentAlone(s: State, due: Date, amount: int, paidDate: Date, next: Date)
    requires Pay(s, due, amount, paidDate).Success?
    requires IsNextDue(s.sub.interval, due, next) || s.sub.interval == OneOff
    requires !(PaysOff(s.charges[due], amount) && GoesOnTo(s.sub, next))
    ensures var c := s.charges[due];
            Pay(s, due, amount, paidDate).value
            == State(s.sub, s.charges[due := c.(payments := c.payments + [Payment(amount, paidDate)])])
  {
    SettlingIs(s, due, amount, paidDate);
    NextDueIs(s.sub, due, next);
    AdvanceEffect(Received(s, due, Payment(amount, paidDate)), due);
  }

  /**
   * The payment of the whole balance of a subscription that goes on also moves the billing date to
   * the next due date, and creates a charge there if there is none.
   */
  lemma PaymentLeadsOn(s: State, due: Date, amount: int, paidDate: Date, next: Date)
    requires Pay(s, due, amount, paidDate).Success? && IsNextDue(s.sub.interval, due, next)
    requires PaysOff(s.charges[due], amount) && GoesOnTo(s.sub, next)
    ensures var s' := Pay(s, due, amount, paidDate).value;
            var c := s.charges[due];
            && s'.sub == s.sub.(nextBilling := next)
            && s'.charges.Keys == s.charges.Keys + {next}
            && s'.charges[due] == c.(payments := c.payments + [Payment(amount, paidDate)])
            && (forall d | d in s.charges && d != due :: s'.charges[d] == s.charges[d])
            && (next !in s.charges ==> IsNewCharge(s.sub, next, s'.charges[next]))
  {
    SettlingIs(s, due, amount, paidDate);
    NextDueIs(s.sub, due, next);
    AdvanceEffect(Received(s, due, Payment(amount, paidDate)), due);
    NewChargeIs(s.sub, next);
  }

  // ----- stops

  /** The open charges that start after the day are cancelled, and nothing else about them changes. */
  predicate AreCut(charges: Charges, charges': Charges, day: Date) {
    && charges'.Keys == charges.Keys
    && forall d | d in charges ::
         charges'[d] == if charges[d].state == Open && NumberOf(day) < NumberOf(charges[d].coverageStart)
                        then charges[d].(state := ChargeState.Cancelled) else charges[d]
  }

  lemma DroppingCuts(charges: Charges, day: Date)
    ensures AreCut(charges, DropAfter(charges, day), day)
  {
    forall d | d in charges {
      DatesAreOrdered(day, charges[d].coverageStart);
    }
  }

  lemma PauseEffect(s: State, today: Date)
    ensures Pause(s, today).sub == s.sub.(status := Paused)
    ensures AreCut(s.charges, Pause(s, today).charges, today)
  {
    DroppingCuts(s.charges, today);
  }

  lemma ExpiryEffect(s: State, today: Date)
    ensures Expire(s, today).sub == s.sub.(status := Status.Expired)
    ensures AreCut(s.charges, Expire(s, today).charges, today)
  {
    DroppingCuts(s.charges, today);
  }

  predicate IsLive(c: Charge) { c.state != ChargeState.Cancelled }

  /** Of the live charges that have started the last one, or of those to come the first one. */
  predicate IsRunning(charges: Charges, today: Date, d: Date) {
    && d in charges && IsLive(charges[d])
    && var start := NumberOf(charges[d].coverageStart);
       forall e | e in charges && IsLive(charges[e]) ::
         var other := NumberOf(charges[e].coverageStart);
         if start <= NumberOf(today) then other <= start || NumberOf(today) < other else start <= other
  }

  lemma CurrentIsRunning(charges: Charges, today: Date, d: Date)
    ensures IsCurrent(charges, today, d) <==> IsRunning(charges, today, d)
  {
    if d in charges {
      DatesAreOrdered(charges[d].coverageStart, today);
      forall e | e in charges
        ensures Le(charges[d].coverageStart, charges[e].coverageStart)
           <==> NumberOf(charges[d].coverageStart) <= NumberOf(charges[e].coverageStart)
        ensures Le(charges[e].coverageStart, charges[d].coverageStart)
           <==> NumberOf(charges[e].coverageStart) <= NumberOf(charges[d].coverageStart)
        ensures Le(charges[e].coverageStart, today) <==> NumberOf(charges[e].coverageStart) <= NumberOf(today)
      {
        DatesAreOrdered(charges[d].coverageStart, charges[e].coverageStart);
        DatesAreOrdered(charges[e].coverageStart, charges[d].coverageStart);
        DatesAreOrdered(charges[e].coverageStart, today);
      }
    }
  }

  /** The day a cancellation takes effect: today, or the end of the coverage that is running. */
  lemma CancellationDay(s: State, immediate: bool, today: Date, now: Instant)
    ensures var cancelled := Cancel(s, immediate, today, now).sub.cancelDate;
            if immediate || forall d :: !IsRunning(s.charges, today, d) then cancelled == Some(today)
            else exists d | IsRunning(s.charges, today, d) :: cancelled == Some(s.charges[d].coverageEnd)
  {
    forall d ensures IsCurrent(s.charges, today, d) <==> IsRunning(s.charges, today, d) {
      CurrentIsRunning(s.charges, today, d);
    }
  }

  lemma CancellationEffect(s: State, immediate: bool, today: Date, now: Instant)
    ensures var s' := Cancel(s, immediate, today, now);
            && s'.sub.cancelDate.Some?
            && s'.sub == s.sub.(status := if immediate then Status.Cancelled else Cancelling,
                                cancelDate := s'.sub.cancelDate, cancelledAt := Some(now))
            && AreCut(s.charges, s'.charges, s'.sub.cancelDate.value)
  {
    DroppingCuts(s.charges, CancelDay(s, immediate, today));
  }

  // ----- the status on a day

  predicate Passed(date: Option<Date>, today: Date) { date.Some? && NumberOf(date.value) < NumberOf(today) }

  /** A status other than cancelled ends with the end date, a pending cancellation with its own. */
  lemma StatusOnDay(sub: Subscription, today: Date)
    ensures var status, ended := EffectiveStatus(sub, today), Passed(sub.endDate, today);
            && (status == Active <==> sub.status == Active && !ended)
            && (status == Paused <==> sub.status == Paused && !ended)
            && (status == Cancelling <==> sub.status == Cancelling && !ended && !Passed(sub.cancelDate, today))
            && (status == Status.Cancelled <==>
                  || sub.status == Status.Cancelled
                  || (sub.status == Cancelling && !ended && Passed(sub.cancelDate, today)))
  {
    if sub.endDate.Some? { DatesAreOrdered(sub.endDate.value, today); }
    if sub.cancelDate.Some? { DatesAreOrdered(sub.cancelDate.value, today); }
  }

  // ----- resuming

  /** The live charge that is due last. */
  predicate IsLast(charges: Charges, d: Date) {
    && d in charges && IsLive(charges[d])
    && forall e | e in charges && IsLive(charges[e]) :: NumberOf(e) <= NumberOf(d)
  }

  lemma LatestIsLast(charges: Charges, d: Date)
    ensures IsLast(charges, d) <==> LatestDue(charges) == Some(d)
  {
    forall e ensures IsLast(charges, e) <==> IsLatest(charges, e) {
      forall f | f in charges {
        DatesAreOrdered(f, e);
      }
    }
    if IsLast(charges, d) { LatestIsUnique(charges, d); }
  }

  /** The last live charge is paid, and one interval later another one may be due. */
  predicate LeadsTo(s: State, next: Date) {
    exists d | d in s.charges ::
      IsLast(s.charges, d) && s.charges[d].gross <= PaidAmount(s.charges[d]) && IsNextDue(s.sub.interval, d, next)
  }

  lemma ResumptionOutcome(s: State, today: Date)
    ensures if !Passed(s.sub.endDate, today)
               && (s.sub.status == Paused || (s.sub.status == Cancelling && !Passed(s.sub.cancelDate, today)))
            then Resume(s, today).Success? else Resume(s, today) == Failure(NotResumable)
  {
    StatusOnDay(s.sub, today);
  }

  lemma ResumptionAlone(s: State, today: Date)
    requires Resume(s, today).Success? && forall next :: !LeadsTo(s, next)
    ensures Resume(s, today).value
         == s.(sub := s.sub.(status := Active, cancelDate := None, cancelledAt := None))
  {
    var latest := LatestDue(s.charges);
    if latest.Some? {
      LatestIsLast(s.charges, latest.value);
      NextDueIs(s.sub, latest.value, NextDue(s.sub, latest.value));
      assert !LeadsTo(s, NextDue(s.sub, latest.value));
    }
  }

  /** What is done at the next due date: a cancelled charge is reopened, a missing one created. */
  lemma ReopeningEffect(s: State, next: Date)
    ensures var s' := Reopen(s, next);
            && s'.sub == s.sub && s'.charges.Keys == s.charges.Keys + {next}
            && (forall d | d in s.charges && d != next :: s'.charges[d] == s.charges[d])
            && (if next in s.charges
                then s'.charges[next] == if IsLive(s.charges[next]) then s.charges[next]
                                         else s.charges[next].(state := Open)
                else IsNewCharge(s.sub, next, s'.charges[next]))
  {
    NewChargeIs(s.sub, next);
  }

  lemma SameTermsSameCharge(sub: Subscription, sub': Subscription, due: Date, c: Charge)
    requires IsNewCharge(sub, due, c) && sub'.interval == sub.interval && sub'.currency == sub.currency
    requires sub'.netPrice == sub.netPrice && sub'.taxRate == sub.taxRate
    ensures IsNewCharge(sub', due, c)
  {
  }

  /** Resuming after a paid charge reopens the next one if it was cancelled, or creates it. */
  lemma ResumptionLeadsOn(s: State, today: Date, next: Date)
    requires Resume(s, today).Success? && LeadsTo(s, next)
    ensures var s' := Resume(s, today).value;
            && s'.sub == s.sub.(status := Active, cancelDate := None, cancelledAt := None, nextBilling := next)
            && s'.charges.Keys == s.charges.Keys + {next}
            && (forall d | d in s.charges && d != next :: s'.charges[d] == s.charges[d])
            && (if next in s.charges
                then s'.charges[next] == if IsLive(s.charges[next]) then s.charges[next]
                                         else s.charges[next].(state := Open)
                else IsNewCharge(s.sub, next, s'.charges[next]))
  {
    var s1 := State(s.sub.(status := Active, cancelDate := None, cancelledAt := None, nextBilling := next), s.charges);
    ResumptionReopens(s, today, next, s1);
    ReopeningEffect(s1, next);
    if next !in s.charges { SameTermsSameCharge(s1.sub, s.sub, next, Reopen(s1, next).charges[next]); }
  }

  lemma ResumptionReopens(s: State, today: Date, next: Date, s1: State)
    requires Resume(s, today).Success? && LeadsTo(s, next)
    requires s1.sub == s.sub.(status := Active, cancelDate := None, cancelledAt := None, nextBilling := next)
    requires s1.charges == s.charges
    ensures Resume(s, today) == Success(Reopen(s1, next))
  {
    var d :| d in s.charges && IsLast(s.charges, d)
             && s.charges[d].gross <= PaidAmount(s.charges[d]) && IsNextDue(s.sub.interval, d, next);
    LatestIsLast(s.charges, d);
    NextDueIs(s.sub, d, next);
  }
}
