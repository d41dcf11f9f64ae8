/** Which steps bring charges to life against the automatic renewal or after the end date. */
module BillingAgreement {
  import opened Calendar
  import opened Billing
  import opened BillingInvariants
  import opened BillingTiling

  /** The subscription renews automatically, and the due date is not after its end. */
  predicate Agreed(sub: Subscription, due: Date) {
    sub.autoRenew && (sub.endDate.None? || Le(due, sub.endDate.value))
  }

  /** Every charge that the step brings to life is agreed. */
  ghost predicate GrowsAsAgreed(s: State, step: Step) {
    forall d | d in LiveDues(After(s, step).charges) && d !in LiveDues(s.charges) :: Agreed(s.sub, d)
  }

  /** A resumption that extends the coverage does so as agreed; nothing in the code asks for it. */
  ghost predicate ResumesAsAgreed(s: State, step: Step) {
    step.DoResume? && Extended(s, step).Some? ==> Agreed(s.sub, NextDue(s.sub, Extended(s, step).value))
  }

  /** Payments always keep to the agreement, and only resumptions can break it. */
  lemma StepGrowsAsAgreed(s: State, step: Step)
    requires Inv(s)
    ensures GrowsAsAgreed(s, step) <==> ResumesAsAgreed(s, step)
  {
    match Extended(s, step)
    case Some(d) =>
      ExtendingAddsLast(s, step, d);
      assert NextDue(s.sub, d) !in LiveDues(s.charges);
    case None =>
      OthersKeepABeginning(s, step);
  }

  ghost predicate AlwaysGrowsAsAgreed(s: State, steps: seq<Step>)
    decreases |steps|
  {
    steps != [] ==> GrowsAsAgreed(s, steps[0]) && AlwaysGrowsAsAgreed(After(s, steps[0]), steps[1..])
  }

  ghost predicate AlwaysResumesAsAgreed(s: State, steps: seq<Step>)
    decreases |steps|
  {
    steps != [] ==> ResumesAsAgreed(s, steps[0]) && AlwaysResumesAsAgreed(After(s, steps[0]), steps[1..])
  }

  lemma {:induction false} RunGrowsAsAgreed(s: State, steps: seq<Step>)
    requires Inv(s)
    ensures AlwaysGrowsAsAgreed(s, steps) <==> AlwaysResumesAsAgreed(s, steps)
    decreases |steps|
  {
    if steps != [] {
      StepGrowsAsAgreed(s, steps[0]);
      AfterKeeps(s, steps[0]);
      RunGrowsAsAgreed(After(s, steps[0]), steps[1..]);
    }
  }

  /**
   * In every run, with any edits: each charge that comes to life does so under automatic renewal
   * and by the end date, as they are then, if and only if every resumption that extends the
   * coverage finds both.
   */
  lemma BilledAsAgreed(sub: Subscription, steps: seq<Step>)
    requires ValidNew(sub)
    ensures AlwaysGrowsAsAgreed(Init(sub), steps) <==> AlwaysResumesAsAgreed(Init(sub), steps)
  {
    InitKeeps(sub);
    RunGrowsAsAgreed(Init(sub), steps);
  }
}
