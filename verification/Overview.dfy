/** The grouped billing overview agrees with the per-row definitions. */
module Overview {
  import opened Ordering
  import opened Calendar
  import opened Billing
  import opened BillingInvariants

  datatype Row = Row(due: Date, charge: Charge)

  datatype Group = Group(total: int, overdue: int, overdueCount: nat)

  datatype Summary = Summary(
    activeSubscriptions: nat,
    scheduledCancellations: nat,
    overdueCharges: nat,
    openBalances: map<Currency, int>,
    overdueBalances: map<Currency, int>)

  // ----- per-row definitions

  /** An open charge with something left to pay. */
  predicate Owes(row: Row) { Editable(row.charge) }

  predicate Overdue(row: Row, today: Date) { Owes(row) && Lt(row.due, today) }

  /** Sum of the outstanding amounts of the open charges in one currency. */
  function OpenBalance(rows: seq<Row>, currency: Currency): nat {
    if rows == [] then 0
    else
      var row := rows[|rows| - 1];
      OpenBalance(rows[..|rows| - 1], currency)
      + if row.charge.state.Open? && row.charge.currency == currency then Outstanding(row.charge) else 0
  }

  function OverdueBalance(rows: seq<Row>, currency: Currency, today: Date): nat {
    if rows == [] then 0
    else
      var row := rows[|rows| - 1];
      OverdueBalance(rows[..|rows| - 1], currency, today)
      + if Overdue(row, today) && row.charge.currency == currency then Outstanding(row.charge) else 0
  }

  function OverdueCount(rows: seq<Row>, today: Date): nat {
    if rows == [] then 0
    else OverdueCount(rows[..|rows| - 1], today) + if Overdue(rows[|rows| - 1], today) then 1 else 0
  }

  function EffectiveCount(subs: seq<Subscription>, statuses: set<Status>, today: Date): nat {
    if subs == [] then 0
    else
      EffectiveCount(subs[..|subs| - 1], statuses, today)
      + if EffectiveStatus(subs[|subs| - 1], today) in statuses then 1 else 0
  }

  // ----- subscriptions

  /** The filter of the overview query. */
  predicate CountsAsActive(sub: Subscription, today: Date) {
    && (sub.status.Active?
        || (sub.status.Cancelling? && sub.cancelDate.Some? && Le(today, sub.cancelDate.value)))
    && (sub.endDate.None? || Le(today, sub.endDate.value))
  }

  /**
   * The filter and the computed status disagree exactly on a subscription that is cancelling
   * without an effective date and has not ended.
   */
  lemma FilterMatchesStatus(sub: Subscription, today: Date)
    ensures (CountsAsActive(sub, today) <==> EffectiveStatus(sub, today) in {Active, Cancelling})
       <==> !(sub.status.Cancelling? && sub.cancelDate.None?
              && (sub.endDate.None? || Le(today, sub.endDate.value)))
  {
  }

  /** No run reaches the disagreement. */
  lemma ActiveMeansEffectivelyActive(s: State, today: Date)
    requires Reachable(s)
    ensures CountsAsActive(s.sub, today) <==> EffectiveStatus(s.sub, today) in {Active, Cancelling}
    ensures CountsAsActive(s.sub, today) && s.sub.status.Cancelling?
       <==> EffectiveStatus(s.sub, today) == Cancelling
  {
    ReachableIsInvariant(s);
    FilterMatchesStatus(s.sub, today);
  }

  // ----- charges

  /** Some row owes in this currency, overdue ones only when `late` is set. */
  predicate Appears(rows: seq<Row>, currency: Currency, today: Date, late: bool) {
    exists i | 0 <= i < |rows| ::
      rows[i].charge.currency == currency && Owes(rows[i]) && (late ==> Overdue(rows[i], today))
  }

  lemma AppearsInLonger(rows: seq<Row>, n: nat, currency: Currency, today: Date, late: bool)
    requires n < |rows|
    ensures Appears(rows[..n + 1], currency, today, late)
       <==> Appears(rows[..n], currency, today, late)
            || (rows[n].charge.currency == currency && Owes(rows[n]) && (late ==> Overdue(rows[n], today)))
  {
    var shorter, longer := rows[..n], rows[..n + 1];
    if Appears(longer, currency, today, late) {
      var i :| 0 <= i < |longer| && longer[i].charge.currency == currency && Owes(longer[i])
               && (late ==> Overdue(longer[i], today));
      assert i < n ==> shorter[i] == longer[i];
    }
    if Appears(shorter, currency, today, late) {
      var i :| 0 <= i < |shorter| && shorter[i].charge.currency == currency && Owes(shorter[i])
               && (late ==> Overdue(shorter[i], today));
      assert longer[i] == shorter[i];
    }
    assert longer[n] == rows[n];
  }

  function SumOfCounts(order: seq<Currency>, groups: map<Currency, Group>): nat
    requires forall c | c in order :: c in groups
  {
    if order == [] then 0
    else SumOfCounts(order[..|order| - 1], groups) + groups[order[|order| - 1]].overdueCount
  }

  lemma {:induction false} SumAfterUpdate(order: seq<Currency>, groups: map<Currency, Group>, c: Currency, g: Group)
    requires Distinct(order) && forall x | x in order :: x in groups
    ensures SumOfCounts(order, groups[c := g])
         == SumOfCounts(order, groups) + if c in order then g.overdueCount - groups[c].overdueCount else 0
  {
    if order != [] {
      var shorter := order[..|order| - 1];
      assert forall x | x in shorter :: x in order;
      SumAfterUpdate(shorter, groups, c, g);
      assert c in order <==> c in shorter || c == order[|order| - 1];
      assert order[|order| - 1] !in shorter;
    }
  }

  /** What the grouping query has for one currency: a group if it is owed, and the sums. */
  ghost predicate GroupOk(rows: seq<Row>, today: Date, groups: map<Currency, Group>, c: Currency) {
    && (c in groups <==> Appears(rows, c, today, false))
    && (if c in groups then
          && groups[c].total == OpenBalance(rows, c)
          && groups[c].overdue == OverdueBalance(rows, c, today)
          && (groups[c].overdueCount > 0 <==> Appears(rows, c, today, true))
        else OpenBalance(rows, c) == 0 && OverdueBalance(rows, c, today) == 0)
  }

  ghost predicate Grouped(rows: seq<Row>, today: Date, order: seq<Currency>, groups: map<Currency, Group>) {
    && Distinct(order)
    && (forall c :: c in groups <==> c in order)
    && (forall c :: GroupOk(rows, today, groups, c))
    && SumOfCounts(order, groups) == OverdueCount(rows, today)
  }

  /** The sums over one more row. */
  lemma OneMoreRow(rows: seq<Row>, n: nat, c: Currency, today: Date)
    requires n < |rows|
    ensures var owed := if Owes(rows[n]) && rows[n].charge.currency == c then Outstanding(rows[n].charge) else 0;
            && OpenBalance(rows[..n + 1], c) == OpenBalance(rows[..n], c) + owed
            && OverdueBalance(rows[..n + 1], c, today)
               == OverdueBalance(rows[..n], c, today) + (if Lt(rows[n].due, today) then owed else 0)
    ensures OverdueCount(rows[..n + 1], today)
         == OverdueCount(rows[..n], today) + if Overdue(rows[n], today) then 1 else 0
  {
    assert rows[..n + 1][..n] == rows[..n];
  }

  /** The group of one more owing row. */
  function AddToGroup(groups: map<Currency, Group>, row: Row, today: Date): Group {
    var g := if row.charge.currency in groups then groups[row.charge.currency] else Group(0, 0, 0);
    var balance := Outstanding(row.charge);
    if Lt(row.due, today)
    then Group(g.total + balance, g.overdue + balance, g.overdueCount + 1)
    else g.(total := g.total + balance)
  }

  lemma GroupOneMore(rows: seq<Row>, n: nat, today: Date, groups: map<Currency, Group>, x: Currency)
    requires n < |rows| && Owes(rows[n])
    requires GroupOk(rows[..n], today, groups, x)
    ensures GroupOk(rows[..n + 1], today, groups[rows[n].charge.currency := AddToGroup(groups, rows[n], today)], x)
  {
    AppearsInLonger(rows, n, x, today, false);
    AppearsInLonger(rows, n, x, today, true);
    OneMoreRow(rows, n, x, today);
    if x !in groups { NotOwedNotLate(rows[..n], x, today); }
  }

  lemma NotOwedNotLate(rows: seq<Row>, c: Currency, today: Date)
    requires !Appears(rows, c, today, false)
    ensures !Appears(rows, c, today, true)
  {
  }

  lemma SkipOneMore(rows: seq<Row>, n: nat, today: Date, groups: map<Currency, Group>, x: Currency)
    requires n < |rows| && !Owes(rows[n])
    requires GroupOk(rows[..n], today, groups, x)
    ensures GroupOk(rows[..n + 1], today, groups, x)
  {
    AppearsInLonger(rows, n, x, today, false);
    AppearsInLonger(rows, n, x, today, true);
    OneMoreRow(rows, n, x, today);
  }

  lemma CountOneMore(rows: seq<Row>, n: nat, today: Date, order: seq<Currency>, groups: map<Currency, Group>)
    requires n < |rows| && Owes(rows[n])
    requires Distinct(order) && forall c :: c in groups <==> c in order
    requires SumOfCounts(order, groups) == OverdueCount(rows[..n], today)
    ensures var c := rows[n].charge.currency;
            SumOfCounts(if c in order then order else order + [c],
                        groups[c := AddToGroup(groups, rows[n], today)])
            == OverdueCount(rows[..n + 1], today)
  {
    var c := rows[n].charge.currency;
    var g := AddToGroup(groups, rows[n], today);
    OneMoreRow(rows, n, c, today);
    SumAfterUpdate(order, groups, c, g);
    if c !in order {
      assert (order + [c])[..|order|] == order;
    }
  }

  /** The query: charges with a positive balance, grouped by currency. */
  method GroupBalances(rows: seq<Row>, today: Date) returns (order: seq<Currency>, groups: map<Currency, Group>)
    ensures Grouped(rows, today, order, groups)
  {
    order, groups := [], map[];
    for n := 0 to |rows|
      invariant Grouped(rows[..n], today, order, groups)
    {
      var c := rows[n].charge.currency;
      ghost var seen := rows[..n + 1];
      if Owes(rows[n]) {
        var groups' := groups[c := AddToGroup(groups, rows[n], today)];
        forall x ensures GroupOk(seen, today, groups', x) {
          GroupOneMore(rows, n, today, groups, x);
        }
        CountOneMore(rows, n, today, order, groups);
        groups := groups';
        if c !in order {
          order := order + [c];
        }
      } else {
        forall x ensures GroupOk(seen, today, groups, x) {
          SkipOneMore(rows, n, today, groups, x);
        }
        OneMoreRow(rows, n, c, today);
      }
    }
    assert rows[..|rows|] == rows;
  }

  /** The summary over all charges and subscriptions of an organization. */
  ghost predicate Agrees(r: Summary, rows: seq<Row>, subs: seq<Subscription>, today: Date) {
    && (forall c :: c in r.openBalances <==> Appears(rows, c, today, false))
    && (forall c | c in r.openBalances :: r.openBalances[c] == OpenBalance(rows, c))
    && (forall c :: c in r.overdueBalances <==> Appears(rows, c, today, true))
    && (forall c | c in r.overdueBalances :: r.overdueBalances[c] == OverdueBalance(rows, c, today))
    && r.overdueCharges == OverdueCount(rows, today)
    && r.activeSubscriptions == EffectiveCount(subs, {Active, Cancelling}, today)
    && r.scheduledCancellations == EffectiveCount(subs, {Cancelling}, today)
  }

  /** The dictionaries filled from the groups. */
  method FillBalances(order: seq<Currency>, groups: map<Currency, Group>)
    returns (open: map<Currency, int>, late: map<Currency, int>, count: nat)
    requires forall c :: c in groups <==> c in order
    ensures forall c :: c in open <==> c in groups
    ensures forall c | c in open :: open[c] == groups[c].total
    ensures forall c :: c in late <==> c in groups && groups[c].overdueCount > 0
    ensures forall c | c in late :: late[c] == groups[c].overdue
    ensures count == SumOfCounts(order, groups)
  {
    open, late, count := map[], map[], 0;
    for i := 0 to |order|
      invariant forall c :: c in open <==> c in order[..i]
      invariant forall c | c in open :: open[c] == groups[c].total
      invariant forall c :: c in late <==> c in order[..i] && groups[c].overdueCount > 0
      invariant forall c | c in late :: late[c] == groups[c].overdue
      invariant count == SumOfCounts(order[..i], groups)
    {
      var c := order[i];
      assert order[..i + 1] == order[..i] + [c];
      open := open[c := groups[c].total];
      if groups[c].overdueCount > 0 {
        late := late[c := groups[c].overdue];
        count := count + groups[c].overdueCount;
      }
    }
    assert order[..|order|] == order;
  }

  method CountActive(subs: seq<Subscription>, today: Date) returns (active: nat, cancelling: nat)
    requires forall i | 0 <= i < |subs| :: SubOk(subs[i])
    ensures active == EffectiveCount(subs, {Active, Cancelling}, today)
    ensures cancelling == EffectiveCount(subs, {Cancelling}, today)
  {
    active, cancelling := 0, 0;
    for i := 0 to |subs|
      invariant active == EffectiveCount(subs[..i], {Active, Cancelling}, today)
      invariant cancelling == EffectiveCount(subs[..i], {Cancelling}, today)
    {
      assert subs[..i + 1][..i] == subs[..i];
      FilterMatchesStatus(subs[i], today);
      if CountsAsActive(subs[i], today) {
        active := active + 1;
        if subs[i].status.Cancelling? {
          cancelling := cancelling + 1;
        }
      }
    }
    assert subs[..|subs|] == subs;
  }

  method SubscriptionOverview(rows: seq<Row>, subs: seq<Subscription>, today: Date) returns (r: Summary)
    requires forall i | 0 <= i < |subs| :: SubOk(subs[i])
    ensures Agrees(r, rows, subs, today)
  {
    var order, groups := GroupBalances(rows, today);
    var open, late, count := FillBalances(order, groups);
    var active, cancelling := CountActive(subs, today);
    forall c
      ensures c in open <==> Appears(rows, c, today, false)
      ensures c in late <==> Appears(rows, c, today, true)
      ensures c in open ==> open[c] == OpenBalance(rows, c)
      ensures c in late ==> late[c] == OverdueBalance(rows, c, today)
    {
      assert GroupOk(rows, today, groups, c);
      if c !in groups { NotOwedNotLate(rows, c, today); }
    }
    r := Summary(active, cancelling, count, open, late);
  }
}
