/**
 * One customer subscription with its charges and payments: the rows, their computed properties
 * and the atomic service operations as functions from one state to the next.
 */
module Billing {
  import opened Wrappers
  import opened Calendar
  import opened Money

  // ----- rows

  datatype Interval = OneOff | Monthly | Quarterly | Semiannual | Annual

  datatype Status = Active | Paused | Cancelling | Cancelled | Expired

  datatype ChargeState = Open | Waived | Cancelled

  type Currency = string

  /** A moment in time; only its presence matters here. */
  type Instant = int

  datatype Subscription = Subscription(
    netPrice: int,
    taxRate: int,
    currency: Currency,
    interval: Interval,
    startDate: Date,
    nextBilling: Date,
    endDate: Option<Date>,
    cancelDate: Option<Date>,
    cancelledAt: Option<Instant>,
    autoRenew: bool,
    status: Status)

  datatype Payment = Payment(amount: int, paidDate: Date)

  datatype Charge = Charge(
    coverageStart: Date,
    coverageEnd: Date,
    net: int,
    rate: int,
    tax: int,
    gross: int,
    currency: Currency,
    state: ChargeState,
    payments: seq<Payment>)

  /** A charge is identified by its due date, which is unique within a subscription. */
  type Charges = map<Date, Charge>

  datatype State = State(sub: Subscription, charges: Charges)

  datatype Error =
    | ConstraintViolated
    | TotalBelowPaid
    | CurrencyLocked
    | NoSuchCharge
    | ChargeNotOpen
    | AmountNotPositive
    | AmountAboveBalance
    | NotResumable

  // ----- computed properties

  function IntervalMonths(i: Interval): (m: nat) {
    match i
    case OneOff => 0
    case Monthly => 1
    case Quarterly => 3
    case Semiannual => 6
    case Annual => 12
  }

  /** One interval after a due date. */
  function NextDue(sub: Subscription, due: Date): Date { AddMonths(due, IntervalMonths(sub.interval)) }

  function TaxAmount(sub: Subscription): int { Tax(sub.netPrice, sub.taxRate) }

  function GrossPrice(sub: Subscription): int { sub.netPrice + TaxAmount(sub) }

  function EffectiveStatus(sub: Subscription, today: Date): Status {
    if sub.endDate.Some? && Lt(sub.endDate.value, today)
       && (sub.status.Active? || sub.status.Paused? || sub.status.Cancelling?) then
      Status.Expired
    else if sub.status.Cancelling? && sub.cancelDate.Some? && Lt(sub.cancelDate.value, today) then
      Status.Cancelled
    else
      sub.status
  }

  function Total(payments: seq<Payment>): int {
    if payments == [] then 0
    else Total(payments[..|payments| - 1]) + payments[|payments| - 1].amount
  }

  function PaidAmount(c: Charge): int { Total(c.payments) }

  function Outstanding(c: Charge): nat {
    if c.gross > PaidAmount(c) then c.gross - PaidAmount(c) else 0
  }

  predicate Live(c: Charge) { !c.state.Cancelled? }

  function LiveDues(charges: map<Date, Charge>): set<Date> {
    set d | d in charges && Live(charges[d])
  }

  // ----- creating charges

  function PeriodEnd(interval: Interval, start: Date): (end: Date)
    ensures Le(start, end)
    ensures IntervalMonths(interval) > 0 ==> NextDay(end) == AddMonths(start, IntervalMonths(interval))
  {
    var months := IntervalMonths(interval);
    if months > 0 then
      AddMonthsIncreases(start, months);
      PrevThenNext(AddMonths(start, months));
      PrevDay(AddMonths(start, months))
    else
      start
  }

  function NewCharge(sub: Subscription, due: Date): Charge {
    Charge(due, PeriodEnd(sub.interval, due), sub.netPrice, sub.taxRate, TaxAmount(sub),
           GrossPrice(sub), sub.currency, Open, [])
  }

  /** Get or create: an existing charge is left alone, whatever its state. */
  function EnsureCharge(s: State, due: Date): State {
    if due in s.charges then s else s.(charges := s.charges[due := NewCharge(s.sub, due)])
  }

  predicate SubscriptionConstraints(sub: Subscription) {
    && 0 <= sub.taxRate <= FULL_RATE
    && 0 <= sub.netPrice
    && (sub.endDate.Some? ==> Le(sub.startDate, sub.endDate.value))
  }

  /** What the API accepts as a new subscription. */
  predicate ValidNew(sub: Subscription) {
    && SubscriptionConstraints(sub)
    && (sub.endDate.Some? ==> Le(sub.nextBilling, sub.endDate.value))
    && sub.status.Active? && sub.cancelDate.None? && sub.cancelledAt.None?
  }

  function Init(sub: Subscription): State {
    EnsureCharge(State(sub, map[]), sub.nextBilling)
  }

  // ----- editing

  /** The submitted fields of an edit; fields without effect on billing are left out. */
  datatype Edit = Edit(
    netPrice: Option<int>,
    taxRate: Option<int>,
    currency: Option<Currency>,
    interval: Option<Interval>,
    startDate: Option<Date>,
    nextBilling: Option<Date>,
    endDate: Option<Option<Date>>,
    autoRenew: Option<bool>)
  {
    predicate Commercial() { netPrice.Some? || taxRate.Some? || currency.Some? }
  }

  function ApplyEdit(sub: Subscription, e: Edit): Subscription {
    sub.(netPrice := e.netPrice.GetOr(sub.netPrice),
         taxRate := e.taxRate.GetOr(sub.taxRate),
         currency := e.currency.GetOr(sub.currency),
         interval := e.interval.GetOr(sub.interval),
         startDate := e.startDate.GetOr(sub.startDate),
         nextBilling := e.nextBilling.GetOr(sub.nextBilling),
         endDate := e.endDate.GetOr(sub.endDate),
         autoRenew := e.autoRenew.GetOr(sub.autoRenew))
  }

  predicate Editable(c: Charge) { c.state.Open? && Outstanding(c) > 0 }

  /** The total that the paid amounts are checked against, computed from the submitted fields. */
  function CheckedTotal(sub: Subscription, e: Edit): int {
    var net := e.netPrice.GetOr(sub.netPrice);
    net + Tax(net, e.taxRate.GetOr(sub.taxRate))
  }

  function Reprice(c: Charge, sub: Subscription): Charge {
    c.(net := sub.netPrice, rate := sub.taxRate, tax := TaxAmount(sub), gross := GrossPrice(sub),
       currency := sub.currency)
  }

  function RepriceAll(charges: Charges, sub: Subscription): Charges {
    map d | d in charges :: if Editable(charges[d]) then Reprice(charges[d], sub) else charges[d]
  }

  function Update(s: State, e: Edit): Result<State, Error> {
    var sub := ApplyEdit(s.sub, e);
    if !e.Commercial() then
      if SubscriptionConstraints(sub) then Success(s.(sub := sub)) else Failure(ConstraintViolated)
    else if exists d | d in s.charges ::
              Editable(s.charges[d]) && PaidAmount(s.charges[d]) > CheckedTotal(s.sub, e) then
      Failure(TotalBelowPaid)
    else if exists d | d in s.charges ::
              Editable(s.charges[d]) && PaidAmount(s.charges[d]) > 0 && s.charges[d].currency != sub.currency then
      Failure(CurrencyLocked)
    else if !SubscriptionConstraints(sub) then
      Failure(ConstraintViolated)
    else
      Success(State(sub, RepriceAll(s.charges, sub)))
  }

  // ----- paying

  function Pay(s: State, due: Date, amount: int, paidDate: Date): Result<State, Error> {
    if due !in s.charges then Failure(NoSuchCharge)
    else
      var c := s.charges[due];
      if !c.state.Open? then Failure(ChargeNotOpen)
      else if amount <= 0 then Failure(AmountNotPositive)
      else if amount > Outstanding(c) then Failure(AmountAboveBalance)
      else
        var paid := c.(payments := c.payments + [Payment(amount, paidDate)]);
        Success(Advance(s.(charges := s.charges[due := paid]), due))
  }

  /** Once a charge is settled, an active renewing subscription gets its next charge. */
  function Advance(s: State, due: Date): State
    requires due in s.charges
  {
    var months := IntervalMonths(s.sub.interval);
    if Outstanding(s.charges[due]) == 0 && months > 0 && s.sub.status.Active? && s.sub.autoRenew then
      var next := AddMonths(due, months);
      if s.sub.endDate.None? || Le(next, s.sub.endDate.value) then
        EnsureCharge(s.(sub := s.sub.(nextBilling := next)), next)
      else s
    else s
  }

  // ----- stopping

  /** Cancels the open charges whose coverage starts after the given day. */
  function DropAfter(charges: Charges, day: Date): Charges {
    map d | d in charges ::
      if charges[d].state.Open? && Lt(day, charges[d].coverageStart)
      then charges[d].(state := ChargeState.Cancelled) else charges[d]
  }

  /** The live charge whose coverage started last; before any coverage starts, the first one. */
  ghost predicate IsCurrent(charges: Charges, today: Date, d: Date) {
    && d in charges && Live(charges[d])
    && if Le(charges[d].coverageStart, today) then
         forall e | e in charges && Live(charges[e]) && Le(charges[e].coverageStart, today) ::
           Le(charges[e].coverageStart, charges[d].coverageStart)
       else
         forall e | e in charges && Live(charges[e]) ::
           Le(charges[d].coverageStart, charges[e].coverageStart)
  }

  ghost function CurrentDue(charges: Charges, today: Date): (r: Option<Date>)
    ensures r.Some? ==> IsCurrent(charges, today, r.value)
  {
    if exists d :: IsCurrent(charges, today, d)
    then var d :| IsCurrent(charges, today, d); Some(d)
    else None
  }

  ghost function CancelDay(s: State, immediate: bool, today: Date): Date {
    var current := CurrentDue(s.charges, today);
    if immediate || current.None? then today else s.charges[current.value].coverageEnd
  }

  ghost function Cancel(s: State, immediate: bool, today: Date, now: Instant): State {
    var day := CancelDay(s, immediate, today);
    State(s.sub.(status := if immediate then Status.Cancelled else Cancelling,
                 cancelDate := Some(day), cancelledAt := Some(now)),
          DropAfter(s.charges, day))
  }

  function Pause(s: State, today: Date): State {
    State(s.sub.(status := Paused), DropAfter(s.charges, today))
  }

  function Expire(s: State, today: Date): State {
    State(s.sub.(status := Status.Expired), DropAfter(s.charges, today))
  }

  // ----- resuming

  ghost predicate IsLatest(charges: Charges, d: Date) {
    && d in charges && Live(charges[d])
    && forall e | e in charges && Live(charges[e]) :: Le(e, d)
  }

  ghost function LatestDue(charges: Charges): (r: Option<Date>)
    ensures r.Some? ==> IsLatest(charges, r.value)
  {
    if exists d :: IsLatest(charges, d)
    then var d :| IsLatest(charges, d); Some(d)
    else None
  }

  predicate Resumable(sub: Subscription, today: Date) {
    var status := EffectiveStatus(sub, today);
    status.Cancelling? || status.Paused?
  }

  function Reactivate(sub: Subscription): Subscription {
    sub.(status := Active, cancelDate := None, cancelledAt := None)
  }

  /** Reopens the charge due on the given day if it was cancelled, and otherwise ensures it. */
  function Reopen(s: State, next: Date): State {
    if next in s.charges && s.charges[next].state.Cancelled?
    then s.(charges := s.charges[next := s.charges[next].(state := Open)])
    else EnsureCharge(s, next)
  }

  /** Resuming does not look at the automatic renewal or at the end date. */
  ghost function Resume(s: State, today: Date): Result<State, Error> {
    if !Resumable(s.sub, today) then Failure(NotResumable)
    else
      var s' := s.(sub := Reactivate(s.sub));
      var latest := LatestDue(s.charges);
      var months := IntervalMonths(s.sub.interval);
      if latest.Some? && Outstanding(s.charges[latest.value]) == 0 && months > 0 then
        var next := AddMonths(latest.value, months);
        Success(Reopen(s'.(sub := s'.sub.(nextBilling := next)), next))
      else
        Success(s')
  }

  // ----- runs

  datatype Step =
    | DoUpdate(edit: Edit)
    | DoPay(due: Date, amount: int, paidDate: Date)
    | DoCancel(immediate: bool, today: Date, now: Instant)
    | DoPause(today: Date)
    | DoExpire(today: Date)
    | DoResume(today: Date)

  ghost function Apply(s: State, step: Step): Result<State, Error> {
    match step
    case DoUpdate(e) => Update(s, e)
    case DoPay(due, amount, paidDate) => Pay(s, due, amount, paidDate)
    case DoCancel(immediate, today, now) => Success(Cancel(s, immediate, today, now))
    case DoPause(today) => Success(Pause(s, today))
    case DoExpire(today) => Success(Expire(s, today))
    case DoResume(today) => Resume(s, today)
  }

  /** A rejected operation rolls its transaction back. */
  ghost function After(s: State, step: Step): State {
    var r := Apply(s, step);
    if r.Success? then r.value else s
  }

  ghost function Run(s: State, steps: seq<Step>): State
    decreases |steps|
  {
    if steps == [] then s else Run(After(s, steps[0]), steps[1..])
  }

  /** Some run of the service leads from a new subscription to this state. */
  ghost predicate Reachable(s: State) {
    exists sub: Subscription, steps: seq<Step> :: ValidNew(sub) && s == Run(Init(sub), steps)
  }
}
