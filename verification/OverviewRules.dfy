/** What the per-row definitions of the billing overview count and sum up. */
module OverviewRules {
  import opened Calendar
  import opened DayNumbers
  import opened Billing
  import opened Overview

  /** An open charge on which less was paid than its total. */
  predicate HasBalance(c: Charge) { c.state == Open && PaidAmount(c) < c.gross }

  predicate IsLate(row: Row, today: Date) { HasBalance(row.charge) && NumberOf(row.due) < NumberOf(today) }

  lemma LateIs(row: Row, today: Date)
    ensures Owes(row) <==> HasBalance(row.charge)
    ensures Overdue(row, today) <==> IsLate(row, today)
  {
    DatesAreOrdered(row.due, today);
  }

  /** One row counts with what is left to be paid, in its own currency. */
  lemma OneRow(row: Row, currency: Currency, today: Date)
    ensures var left := row.charge.gross - PaidAmount(row.charge);
            && OpenBalance([row], currency)
               == (if HasBalance(row.charge) && row.charge.currency == currency then left else 0)
            && OverdueBalance([row], currency, today)
               == (if IsLate(row, today) && row.charge.currency == currency then left else 0)
            && OverdueCount([row], today) == (if IsLate(row, today) then 1 else 0)
  {
    LateIs(row, today);
    assert [row][..0] == [];
    assert OpenBalance([], currency) == 0 && OverdueBalance([], currency, today) == 0 && OverdueCount([], today) == 0;
  }

  /** And rows add up, in whatever groups they are taken. */
  lemma {:induction false} RowsAddUp(a: seq<Row>, b: seq<Row>, currency: Currency, today: Date)
    ensures OpenBalance(a + b, currency) == OpenBalance(a, currency) + OpenBalance(b, currency)
    ensures OverdueBalance(a + b, currency, today)
         == OverdueBalance(a, currency, today) + OverdueBalance(b, currency, today)
    ensures OverdueCount(a + b, today) == OverdueCount(a, today) + OverdueCount(b, today)
  {
    if b == [] {
      assert a + b == a;
    } else {
      var n := |b| - 1;
      assert (a + b)[..|a + b| - 1] == a + b[..n];
      RowsAddUp(a, b[..n], currency, today);
    }
  }

  /** A currency is listed if some charge in it has a balance, and as overdue if some late one has. */
  lemma ListedCurrencies(rows: seq<Row>, currency: Currency, today: Date)
    ensures Appears(rows, currency, today, false) <==>
            exists i | 0 <= i < |rows| :: rows[i].charge.currency == currency && HasBalance(rows[i].charge)
    ensures Appears(rows, currency, today, true) <==>
            exists i | 0 <= i < |rows| :: rows[i].charge.currency == currency && IsLate(rows[i], today)
  {
    forall i | 0 <= i < |rows|
      ensures Owes(rows[i]) <==> HasBalance(rows[i].charge)
      ensures Overdue(rows[i], today) <==> IsLate(rows[i], today)
    {
      LateIs(rows[i], today);
    }
  }

  /** Subscriptions are counted once each, by their status on the day. */
  lemma {:induction false} SubscriptionsCounted(subs: seq<Subscription>, statuses: set<Status>, today: Date)
    ensures EffectiveCount(subs, statuses, today)
         == |set i | 0 <= i < |subs| && EffectiveStatus(subs[i], today) in statuses|
  {
    var counted := set i | 0 <= i < |subs| && EffectiveStatus(subs[i], today) in statuses;
    if subs == [] {
      assert counted == {};
    } else {
      var n := |subs| - 1;
      var before := set i | 0 <= i < n && EffectiveStatus(subs[..n][i], today) in statuses;
      SubscriptionsCounted(subs[..n], statuses, today);
      assert before == set i | 0 <= i < |subs[..n]| && EffectiveStatus(subs[..n][i], today) in statuses;
      assert counted == if EffectiveStatus(subs[n], today) in statuses then before + {n} else before;
    }
  }
}
