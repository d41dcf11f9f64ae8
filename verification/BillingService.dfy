/** The billing services as operations on stored rows, each one transaction. */
module BillingService {
  import opened Wrappers
  import opened Calendar
  import opened Billing
  import opened BillingInvariants

  lemma CurrentIsUnique(charges: Charges, today: Date, d: Date)
    requires RowsOk(charges) && IsCurrent(charges, today, d)
    ensures CurrentDue(charges, today) == Some(d)
  {
    var e := CurrentDue(charges, today).value;
    assert RowOk(d, charges[d]) && RowOk(e, charges[e]);
    KeyIsInjective(d, e);
  }

  lemma NoLiveNoCurrent(charges: Charges, today: Date)
    requires forall d | d in charges :: !Live(charges[d])
    ensures CurrentDue(charges, today).None? && LatestDue(charges).None?
  {
  }

  /** Among the live charges seen so far, this one's coverage starts first. */
  predicate StartsFirst(charges: Charges, seen: set<Date>, first: Option<Date>) {
    && (first.Some? ==> first.value in charges && Live(charges[first.value]))
    && forall d | d in seen && d in charges && Live(charges[d]) ::
         first.Some? && Le(charges[first.value].coverageStart, charges[d].coverageStart)
  }

  /** Among the live charges seen so far whose coverage has started, this one's started last. */
  predicate StartedLast(charges: Charges, seen: set<Date>, today: Date, started: Option<Date>) {
    && (started.Some? ==> started.value in charges && Live(charges[started.value])
                          && Le(charges[started.value].coverageStart, today))
    && forall d | d in seen && d in charges && Live(charges[d]) && Le(charges[d].coverageStart, today) ::
         started.Some? && Le(charges[d].coverageStart, charges[started.value].coverageStart)
  }

  /** Whether the coverage of the charge starts before that of the first one so far. */
  predicate IsEarlier(charges: Charges, d: Date, first: Option<Date>)
    requires d in charges && (first.Some? ==> first.value in charges)
  {
    Live(charges[d]) && (first.None? || Lt(charges[d].coverageStart, charges[first.value].coverageStart))
  }

  /** Whether the coverage of the charge has started, and after that of the last one so far. */
  predicate IsLater(charges: Charges, d: Date, today: Date, started: Option<Date>)
    requires d in charges && (started.Some? ==> started.value in charges)
  {
    && Live(charges[d]) && Le(charges[d].coverageStart, today)
    && (started.None? || Lt(charges[started.value].coverageStart, charges[d].coverageStart))
  }

  lemma OneMoreSeen(charges: Charges, seen: set<Date>, d: Date, today: Date,
                    started: Option<Date>, first: Option<Date>)
    requires d in charges
    requires StartsFirst(charges, seen, first) && StartedLast(charges, seen, today, started)
    ensures StartsFirst(charges, seen + {d}, if IsEarlier(charges, d, first) then Some(d) else first)
    ensures StartedLast(charges, seen + {d}, today, if IsLater(charges, d, today, started) then Some(d) else started)
  {
  }

  /** After all charges were seen, the last started one or else the first one is the current one. */
  lemma CurrentOfAll(charges: Charges, today: Date, started: Option<Date>, first: Option<Date>)
    requires RowsOk(charges)
    requires StartsFirst(charges, charges.Keys, first) && StartedLast(charges, charges.Keys, today, started)
    ensures CurrentDue(charges, today) == if started.Some? then started else first
  {
    var current := if started.Some? then started else first;
    if current.Some? {
      CurrentIsUnique(charges, today, current.value);
    } else {
      NoLiveNoCurrent(charges, today);
    }
  }

  /** With one editable charge the error does not depend on the order of the checks. */
  lemma EditableIsUnique(charges: Charges, a: Date, b: Date)
    requires OnlyLastOwes(charges)
    requires a in charges && b in charges && Editable(charges[a]) && Editable(charges[b])
    ensures a == b
  {
    if !Lt(a, b) && !Lt(b, a) { KeyIsInjective(a, b); }
  }

  class Ledger {
    var sub: Subscription
    var charges: Charges

    ghost function Contents(): State
      reads this
    {
      State(sub, charges)
    }

    ghost predicate Valid()
      reads this
    {
      Inv(Contents())
    }

    constructor (sub: Subscription)
      requires ValidNew(sub)
      ensures Valid() && Contents() == Init(sub)
    {
      this.sub := sub;
      this.charges := map[sub.nextBilling := NewCharge(sub, sub.nextBilling)];
      InitKeeps(sub);
    }

    method EnsureCharge(due: Date)
      modifies this`charges
      ensures Contents() == Billing.EnsureCharge(old(Contents()), due)
    {
      if due !in charges {
        charges := charges[due := NewCharge(sub, due)];
      }
    }

    /** The open charges that still carry a balance. */
    method EditableCharges() returns (editable: seq<Date>)
      ensures forall d :: d in editable <==> d in charges && Editable(charges[d])
    {
      editable := [];
      var todo := charges.Keys;
      while todo != {}
        invariant todo <= charges.Keys
        invariant forall d :: d in editable <==> d in charges && d !in todo && Editable(charges[d])
      {
        var d :| d in todo;
        todo := todo - {d};
        if Editable(charges[d]) {
          editable := editable + [d];
        }
      }
    }

    /** The checks an edit has to pass against every charge it would change. */
    method CheckCharges(editable: seq<Date>, total: int, currency: Currency) returns (r: Option<Error>)
      requires OnlyLastOwes(charges)
      requires forall d :: d in editable <==> d in charges && Editable(charges[d])
      ensures r == if exists d | d in charges :: Editable(charges[d]) && PaidAmount(charges[d]) > total
                   then Some(TotalBelowPaid)
                   else if exists d | d in charges :: Editable(charges[d]) && PaidAmount(charges[d]) > 0
                                                      && charges[d].currency != currency
                   then Some(CurrencyLocked)
                   else None
    {
      r := None;
      for i := 0 to |editable|
        invariant forall j | 0 <= j < i ::
                    var c := charges[editable[j]];
                    PaidAmount(c) <= total && !(PaidAmount(c) > 0 && c.currency != currency)
      {
        var c := charges[editable[i]];
        if PaidAmount(c) > total {
          return Some(TotalBelowPaid);
        }
        if PaidAmount(c) > 0 && c.currency != currency {
          forall d | d in charges && Editable(charges[d]) ensures d == editable[i] {
            EditableIsUnique(charges, d, editable[i]);
          }
          return Some(CurrencyLocked);
        }
      }
    }

    method UpdateSubscription(e: Edit) returns (r: Result<(), Error>)
      requires Valid()
      modifies this
      ensures Valid()
      ensures r == match Update(old(Contents()), e) case Success(_) => Success(()) case Failure(x) => Failure(x)
      ensures Contents() == After(old(Contents()), DoUpdate(e))
    {
      ghost var before := Contents();
      var edited := ApplyEdit(sub, e);
      if !e.Commercial() {
        if !SubscriptionConstraints(edited) {
          return Failure(ConstraintViolated);
        }
        sub := edited;
        UpdateKeeps(before, e);
        return Success(());
      }
      var editable := EditableCharges();
      var refused := CheckCharges(editable, CheckedTotal(sub, e), edited.currency);
      if refused.Some? {
        return Failure(refused.value);
      }
      if !SubscriptionConstraints(edited) {
        return Failure(ConstraintViolated);
      }
      sub := edited;
      RepriceCharges(editable);
      UpdateKeeps(before, e);
      r := Success(());
    }

    method RepriceCharges(editable: seq<Date>)
      requires forall d :: d in editable <==> d in charges && Editable(charges[d])
      modifies this`charges
      ensures charges == RepriceAll(old(charges), sub)
    {
      for i := 0 to |editable|
        invariant charges.Keys == old(charges.Keys)
        invariant forall d | d in charges ::
                    charges[d] == if d in editable[..i] then Reprice(old(charges)[d], sub) else old(charges)[d]
      {
        var d := editable[i];
        if d !in editable[..i] {
          charges := charges[d := Reprice(charges[d], sub)];
        }
      }
      assert editable[..|editable|] == editable;
    }

    method RecordPayment(due: Date, amount: int, paidDate: Date) returns (r: Result<Payment, Error>)
      requires Valid()
      modifies this
      ensures Valid()
      ensures r == match Pay(old(Contents()), due, amount, paidDate)
                   case Success(_) => Success(Payment(amount, paidDate))
                   case Failure(x) => Failure(x)
      ensures Contents() == After(old(Contents()), DoPay(due, amount, paidDate))
    {
      ghost var before := Contents();
      if due !in charges {
        return Failure(NoSuchCharge);
      }
      var c := charges[due];
      if !c.state.Open? {
        return Failure(ChargeNotOpen);
      }
      if amount <= 0 {
        return Failure(AmountNotPositive);
      }
      if amount > Outstanding(c) {
        return Failure(AmountAboveBalance);
      }
      PayKeeps(before, due, amount, paidDate);
      var payment := Payment(amount, paidDate);
      charges := charges[due := c.(payments := c.payments + [payment])];
      var months := IntervalMonths(sub.interval);
      if Outstanding(charges[due]) == 0 && months > 0 && sub.status.Active? && sub.autoRenew {
        var next := AddMonths(due, months);
        if sub.endDate.None? || Le(next, sub.endDate.value) {
          sub := sub.(nextBilling := next);
          EnsureCharge(next);
        }
      }
      r := Success(payment);
    }

    /** The live charge with the latest due date. */
    method LatestCharge() returns (latest: Option<Date>)
      ensures latest == LatestDue(charges)
    {
      latest := None;
      var todo := charges.Keys;
      while todo != {}
        invariant todo <= charges.Keys
        invariant latest.Some? ==> latest.value in charges && Live(charges[latest.value])
        invariant forall d | d in charges && d !in todo && Live(charges[d]) ::
                    latest.Some? && Le(d, latest.value)
      {
        var d :| d in todo;
        todo := todo - {d};
        if Live(charges[d]) && (latest.None? || Lt(latest.value, d)) {
          latest := Some(d);
        }
      }
      if latest.Some? {
        LatestIsUnique(charges, latest.value);
      } else {
        NoLiveNoCurrent(charges, RawDate(1, 1, 1));
      }
    }

    /** The live charge whose coverage started last by today, or else the first live one. */
    method CurrentCharge(today: Date) returns (current: Option<Date>)
      requires Valid()
      ensures current == CurrentDue(charges, today)
    {
      var started, first: Option<Date> := None, None;
      var todo := charges.Keys;
      while todo != {}
        invariant todo <= charges.Keys
        invariant StartsFirst(charges, charges.Keys - todo, first)
        invariant StartedLast(charges, charges.Keys - todo, today, started)
      {
        var d :| d in todo;
        todo := todo - {d};
        OneMoreSeen(charges, charges.Keys - todo - {d}, d, today, started, first);
        assert charges.Keys - todo - {d} + {d} == charges.Keys - todo;
        if IsEarlier(charges, d, first) {
          first := Some(d);
        }
        if IsLater(charges, d, today, started) {
          started := Some(d);
        }
      }
      assert charges.Keys - todo == charges.Keys;
      CurrentOfAll(charges, today, started, first);
      current := if started.Some? then started else first;
    }

    method CancelSubscription(immediate: bool, today: Date, now: Instant)
      requires Valid()
      modifies this
      ensures Valid() && Contents() == Cancel(old(Contents()), immediate, today, now)
    {
      ghost var before := Contents();
      var current := CurrentCharge(today);
      var day := if immediate || current.None? then today else charges[current.value].coverageEnd;
      sub := sub.(status := if immediate then Status.Cancelled else Cancelling,
                  cancelDate := Some(day), cancelledAt := Some(now));
      charges := DropAfter(charges, day);
      AfterKeeps(before, DoCancel(immediate, today, now));
    }

    method PauseSubscription(today: Date)
      requires Valid()
      modifies this
      ensures Valid() && Contents() == Pause(old(Contents()), today)
    {
      ghost var before := Contents();
      sub := sub.(status := Paused);
      charges := DropAfter(charges, today);
      AfterKeeps(before, DoPause(today));
    }

    method ExpireSubscription(today: Date)
      requires Valid()
      modifies this
      ensures Valid() && Contents() == Expire(old(Contents()), today)
    {
      ghost var before := Contents();
      sub := sub.(status := Status.Expired);
      charges := DropAfter(charges, today);
      AfterKeeps(before, DoExpire(today));
    }

    method ResumeSubscription(today: Date) returns (r: Result<(), Error>)
      requires Valid()
      modifies this
      ensures Valid()
      ensures r == if Resumable(old(sub), today) then Success(()) else Failure(NotResumable)
      ensures Contents() == After(old(Contents()), DoResume(today))
    {
      ghost var before := Contents();
      if !Resumable(sub, today) {
        return Failure(NotResumable);
      }
      ResumeKeeps(before, today);
      sub := sub.(status := Active, cancelDate := None, cancelledAt := None);
      var latest := LatestCharge();
      if latest.Some? && Outstanding(charges[latest.value]) == 0 {
        var months := IntervalMonths(sub.interval);
        if months > 0 {
          var next := AddMonths(latest.value, months);
          sub := sub.(nextBilling := next);
          if next in charges && charges[next].state.Cancelled? {
            charges := charges[next := charges[next].(state := Open)];
          } else {
            EnsureCharge(next);
          }
        }
      }
      r := Success(());
    }
  }
}
