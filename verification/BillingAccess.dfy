/**
 Paid time is not taken away: customer cancels, cancelled, expired, paused and rejected
 notices and scheduled transitions keep the plan until the stored period end, and the
 first transition at or after that end carries a customer's cancel out.
 */
module BillingAccess {
  import opened Wrappers
  import opened BillingModel
  import opened BillingActions

  datatype AccessStep =
    | CustomerCancel(atOnce: bool, answer: Option<Answer>)
    | Notice(answered: Answer, fallback: Option<CompanyId>)
    | Scheduled

  datatype TimedAccess = Tick(now: Time, step: AccessStep)

  function AccessNext(st: State, c: CompanyId, step: AccessStep, now: Time): State {
    match step
    case CustomerCancel(atOnce, answer) => Cancel(st, c, atOnce, answer, now).0
    case Notice(answered, fallback) => ApplyDetails(st, answered, fallback, now).state
    case Scheduled => ApplyScheduled(st, c, now)
  }

  function AccessRun(st: State, c: CompanyId, run: seq<TimedAccess>): State
    decreases |run|
  {
    if run == [] then st else AccessRun(AccessNext(st, c, run[0].step, run[0].now), c, run[1..])
  }

  /** The period end in the answer, if any, is later than `bound`. */
  predicate EndsAfter(d: Details, bound: Time) {
    d.periodEnd.Some? ==> d.periodEnd.value > bound
  }

  /** The steps the guarantee is about, at clock reading `now`. */
  predicate Gentle(step: AccessStep, now: Time) {
    match step
    case CustomerCancel(_, answer) =>
      answer.Some? ==> IsDowngrade(answer.value.details.status) && EndsAfter(answer.value.details, now)
    case Notice(a, _) =>
      (IsDowngrade(a.details.status) || a.details.status.Paused? || a.details.status.Rejected?) &&
      EndsAfter(a.details, now)
    case Scheduled => true
  }

  /** `c` holds a plan until an end that lies after `now`. */
  predicate PaidUntilAfter(st: State, c: CompanyId, now: Time) {
    c in st.licenses && FuturePeriod(st.licenses[c], now)
  }

  predicate CancelRequested(st: State, c: CompanyId) {
    c in st.licenses && st.licenses[c].cancelAtPeriodEnd
  }

  /** A gentle answer that arrives before the stored end leaves the plan and an end in the
      future, and never withdraws a cancel. */
  lemma GentleAnswerKeepsAccess(st: State, c: CompanyId, a: Answer, fallback: Option<CompanyId>, now: Time)
    requires PaidUntilAfter(st, c, now)
    requires IsDowngrade(a.details.status) || a.details.status.Paused? || a.details.status.Rejected?
    requires EndsAfter(a.details, now)
    ensures var after := ApplyDetails(st, a, fallback, now).state;
            PaidUntilAfter(after, c, now) && PlanOf(after, c) == PlanOf(st, c) &&
            (CancelRequested(st, c) ==> CancelRequested(after, c)) &&
            after.licenses[c].periodEnd in {st.licenses[c].periodEnd, a.details.periodEnd}
  {
    if Target(st, a, fallback) == Some(c) && ResolvedPlan(st, a, c).Some? {
      GentleDecisionKeepsAccess(st, c, a, ResolvedPlan(st, a, c).value, now);
    }
  }

  lemma GentleDecisionKeepsAccess(st: State, c: CompanyId, a: Answer, plan: Plan, now: Time)
    requires PaidUntilAfter(st, c, now)
    requires IsDowngrade(a.details.status) || a.details.status.Paused? || a.details.status.Rejected?
    requires EndsAfter(a.details, now)
    ensures var l, after := st.licenses[c], LicenseAfter(st, a, c, plan, Judge(st, a, c, plan, now), now);
            after.Some? && FuturePeriod(after.value, now) && after.value.plan == l.plan &&
            (l.cancelAtPeriodEnd ==> after.value.cancelAtPeriodEnd) &&
            after.value.periodEnd in {l.periodEnd, a.details.periodEnd}
  {
  }

  /** What happens to the plan and to a recorded cancel: nothing. */
  predicate KeepsAccess(before: State, after: State, c: CompanyId) {
    PlanOf(after, c) == PlanOf(before, c) && c in after.licenses &&
    (CancelRequested(before, c) ==> CancelRequested(after, c))
  }

  /** The step is a customer cancel that goes through. */
  predicate CancelSucceeds(st: State, c: CompanyId, t: TimedAccess) {
    t.step.CustomerCancel? && Cancel(st, c, t.step.atOnce, t.step.answer, t.now).1.Done?
  }

  lemma GentleStepKeepsAccess(st: State, c: CompanyId, t: TimedAccess)
    requires PaidUntilAfter(st, c, t.now) && Gentle(t.step, t.now)
    ensures KeepsAccess(st, AccessNext(st, c, t.step, t.now), c)
    ensures CancelSucceeds(st, c, t) ==> CancelRequested(AccessNext(st, c, t.step, t.now), c)
  {
    match t.step
    case CustomerCancel(atOnce, answer) =>
      if answer.Some? {
        GentleAnswerKeepsAccess(st, c, answer.value, Some(c), t.now);
      }
    case Notice(a, fallback) => GentleAnswerKeepsAccess(st, c, a, fallback, t.now);
    case Scheduled =>
  }

  // ----- whole runs -----

  /** Every step is gentle and happens before the end stored at that moment. */
  predicate BeforeStoredEnd(st: State, c: CompanyId, run: seq<TimedAccess>)
    decreases |run|
  {
    run != [] ==>
      Gentle(run[0].step, run[0].now) && PaidUntilAfter(st, c, run[0].now) &&
      BeforeStoredEnd(AccessNext(st, c, run[0].step, run[0].now), c, run[1..])
  }

  /** A customer cancel goes through somewhere in the run. */
  predicate CancelledIn(st: State, c: CompanyId, run: seq<TimedAccess>)
    decreases |run|
  {
    run != [] &&
    (CancelSucceeds(st, c, run[0]) || CancelledIn(AccessNext(st, c, run[0].step, run[0].now), c, run[1..]))
  }

  /** No such run changes the plan or forgets a recorded cancel. */
  lemma {:induction false} AccessKeptBeforeEnd(st: State, c: CompanyId, run: seq<TimedAccess>)
    requires c in st.licenses && BeforeStoredEnd(st, c, run)
    ensures KeepsAccess(st, AccessRun(st, c, run), c)
    decreases |run|
  {
    if run != [] {
      GentleStepKeepsAccess(st, c, run[0]);
      AccessKeptBeforeEnd(AccessNext(st, c, run[0].step, run[0].now), c, run[1..]);
    }
  }

  /** A customer cancel made in such a run is still recorded at its end. */
  lemma {:induction false} CancelStaysRecorded(st: State, c: CompanyId, run: seq<TimedAccess>)
    requires c in st.licenses && BeforeStoredEnd(st, c, run) && CancelledIn(st, c, run)
    ensures CancelRequested(AccessRun(st, c, run), c)
    decreases |run|
  {
    var next := AccessNext(st, c, run[0].step, run[0].now);
    GentleStepKeepsAccess(st, c, run[0]);
    AccessKeptBeforeEnd(next, c, run[1..]);
    if CancelledIn(next, c, run[1..]) {
      CancelStaysRecorded(next, c, run[1..]);
    }
  }

  /** After such a run containing a customer cancel, a scheduled transition drops the company
      to the free plan exactly when it runs at or after the stored end. */
  lemma CancelTakesEffectAtEnd(st: State, c: CompanyId, run: seq<TimedAccess>, later: Time)
    requires c in st.licenses && !PlanOf(st, c).Free?
    requires BeforeStoredEnd(st, c, run) && CancelledIn(st, c, run)
    ensures c in AccessRun(st, c, run).licenses
    ensures PlanOf(ApplyScheduled(AccessRun(st, c, run), c, later), c).Free?
            <==> PeriodEnded(AccessRun(st, c, run).licenses[c], later)
  {
    AccessKeptBeforeEnd(st, c, run);
    CancelStaysRecorded(st, c, run);
  }

  // ----- against the end stored at the start -----

  /** The plan is paid at least until `end`. */
  predicate PaidUntil(st: State, c: CompanyId, end: Time) {
    PaidUntilAfter(st, c, end - 1)
  }

  /** The answer closes an abandoned checkout attempt and nothing else. */
  predicate ClosesAttempt(st: State, a: Answer, c: CompanyId) {
    SessionOf(st, a).Some? && (OtherSubscription(st, a, c) || MatchesPendingPlan(st, a, c) || RefOf(st, c).None?)
  }

  /** The answer is about `c`, resolves to a plan, names an end before `end`, and is a paused
      notice or a cancelled or expired one that is not about an abandoned attempt. */
  predicate Cuts(st: State, c: CompanyId, a: Answer, fallback: Option<CompanyId>, end: Time) {
    Target(st, a, fallback) == Some(c) && ResolvedPlan(st, a, c).Some? && !EndsAfter(a.details, end - 1) &&
    (a.details.status.Paused? || (IsDowngrade(a.details.status) && !ClosesAttempt(st, a, c)))
  }

  predicate StepCuts(st: State, c: CompanyId, step: AccessStep, end: Time) {
    match step
    case CustomerCancel(_, answer) => RefOf(st, c).Some? && answer.Some? && Cuts(st, c, answer.value, Some(c), end)
    case Notice(a, fallback) => Cuts(st, c, a, fallback, end)
    case Scheduled => false
  }

  lemma AnswerKeepsEndExactly(st: State, c: CompanyId, a: Answer, fallback: Option<CompanyId>, now: Time, end: Time)
    requires PaidUntil(st, c, end) && now < end
    requires IsDowngrade(a.details.status) || a.details.status.Paused? || a.details.status.Rejected?
    requires EndsAfter(a.details, now)
    ensures PaidUntil(ApplyDetails(st, a, fallback, now).state, c, end) <==> !Cuts(st, c, a, fallback, end)
  {
  }

  /** One step before `end` moves the stored end before it exactly when it cuts. */
  lemma StepKeepsEndExactly(st: State, c: CompanyId, t: TimedAccess, end: Time)
    requires PaidUntil(st, c, end) && Gentle(t.step, t.now) && t.now < end
    ensures PaidUntil(AccessNext(st, c, t.step, t.now), c, end) <==> !StepCuts(st, c, t.step, end)
  {
    match t.step
    case CustomerCancel(atOnce, answer) =>
      if answer.Some? {
        AnswerKeepsEndExactly(st, c, answer.value, Some(c), t.now, end);
        GentleAnswerKeepsAccess(st, c, answer.value, Some(c), t.now);
      }
    case Notice(a, fallback) => AnswerKeepsEndExactly(st, c, a, fallback, t.now, end);
    case Scheduled =>
  }

  /** The plan is paid until `end` after every step of the run. */
  predicate EndKeptThroughout(st: State, c: CompanyId, run: seq<TimedAccess>, end: Time)
    decreases |run|
  {
    PaidUntil(st, c, end) &&
    (run == [] || EndKeptThroughout(AccessNext(st, c, run[0].step, run[0].now), c, run[1..], end))
  }

  predicate SomeStepCuts(st: State, c: CompanyId, run: seq<TimedAccess>, end: Time)
    decreases |run|
  {
    run != [] &&
    (StepCuts(st, c, run[0].step, end) || SomeStepCuts(AccessNext(st, c, run[0].step, run[0].now), c, run[1..], end))
  }

  /** A gentle run before `end` keeps the plan paid until `end` all along exactly when none of
      its steps cuts. */
  lemma {:induction false} EndKeptExactlyWithoutCuts(st: State, c: CompanyId, run: seq<TimedAccess>, end: Time)
    requires PaidUntil(st, c, end)
    requires forall t :: t in run ==> Gentle(t.step, t.now) && t.now < end
    ensures EndKeptThroughout(st, c, run, end) <==> !SomeStepCuts(st, c, run, end)
    decreases |run|
  {
    if run != [] {
      var next := AccessNext(st, c, run[0].step, run[0].now);
      StepKeepsEndExactly(st, c, run[0], end);
      if PaidUntil(next, c, end) {
        EndKeptExactlyWithoutCuts(next, c, run[1..], end);
      }
    }
  }

  /** Without a cut the plan itself is kept up to `end` as well. */
  lemma {:induction false} AccessKeptUntilFirstEnd(st: State, c: CompanyId, run: seq<TimedAccess>, end: Time)
    requires PaidUntil(st, c, end) && !SomeStepCuts(st, c, run, end)
    requires forall t :: t in run ==> Gentle(t.step, t.now) && t.now < end
    ensures PaidUntil(AccessRun(st, c, run), c, end) && KeepsAccess(st, AccessRun(st, c, run), c)
    decreases |run|
  {
    if run != [] {
      GentleStepKeepsAccess(st, c, run[0]);
      StepKeepsEndExactly(st, c, run[0], end);
      AccessKeptUntilFirstEnd(AccessNext(st, c, run[0].step, run[0].now), c, run[1..], end);
    }
  }

  // ----- when paid time is lost early -----

  predicate Lowers(before: State, after: State, c: CompanyId) {
    Rank(PlanOf(after, c)) < Rank(PlanOf(before, c))
  }

  /** A loss waits for the end of the period: a recorded cancel, or PRO with BASIC pending. */
  predicate LossScheduled(l: License) {
    !l.plan.Free? && (l.cancelAtPeriodEnd || (l.plan.Pro? && l.pendingPlan == Some(Basic)))
  }

  /** A scheduled transition lowers the plan exactly when a loss is scheduled and the stored
      period end has come. */
  lemma TransitionLowersExactly(st: State, c: CompanyId, at: Time)
    ensures Lowers(st, ApplyScheduled(st, c, at), c)
            <==> c in st.licenses && LossScheduled(st.licenses[c]) && PeriodEnded(st.licenses[c], at)
  {
  }

  /** Some scheduled transition before `end` would lower the plan of `c` in this state. */
  ghost predicate CanLoseBefore(st: State, c: CompanyId, end: Time) {
    exists at :: at < end && Lowers(st, ApplyScheduled(st, c, at), c)
  }

  lemma CanLoseBeforeExactly(st: State, c: CompanyId, end: Time)
    requires c in st.licenses
    ensures CanLoseBefore(st, c, end) <==> LossScheduled(st.licenses[c]) && !PaidUntil(st, c, end)
  {
    var l := st.licenses[c];
    if LossScheduled(l) && !PaidUntil(st, c, end) {
      var at := if l.periodEnd.Some? then l.periodEnd.value else end - 1;
      TransitionLowersExactly(st, c, at);
    }
    if CanLoseBefore(st, c, end) {
      var at :| at < end && Lowers(st, ApplyScheduled(st, c, at), c);
      TransitionLowersExactly(st, c, at);
    }
  }

  /** One gentle step before `end` opens the way to losing the plan before `end` exactly when
      it cuts and leaves a loss scheduled. */
  lemma StepOpensEarlyLossExactly(st: State, c: CompanyId, t: TimedAccess, end: Time)
    requires PaidUntil(st, c, end) && Gentle(t.step, t.now) && t.now < end
    ensures var next := AccessNext(st, c, t.step, t.now);
            c in next.licenses &&
            (CanLoseBefore(next, c, end) <==> StepCuts(st, c, t.step, end) && LossScheduled(next.licenses[c]))
  {
    var next := AccessNext(st, c, t.step, t.now);
    GentleStepKeepsAccess(st, c, t);
    StepKeepsEndExactly(st, c, t, end);
    CanLoseBeforeExactly(next, c, end);
  }

  /** After a gentle run in which every step came before the end stored at that moment, a
      transition before the first end lowers the plan exactly when a loss is scheduled and the
      stored end has come; and that takes a cut. */
  lemma EarlyLossExactly(st: State, c: CompanyId, run: seq<TimedAccess>, end: Time, at: Time)
    requires PaidUntil(st, c, end) && BeforeStoredEnd(st, c, run) && at < end
    requires forall t :: t in run ==> t.now < end
    ensures var after := AccessRun(st, c, run);
            c in after.licenses &&
            (Lowers(st, ApplyScheduled(after, c, at), c)
             <==> LossScheduled(after.licenses[c]) && PeriodEnded(after.licenses[c], at)) &&
            (Lowers(st, ApplyScheduled(after, c, at), c) ==> SomeStepCuts(st, c, run, end))
  {
    AccessKeptBeforeEnd(st, c, run);
    TransitionLowersExactly(AccessRun(st, c, run), c, at);
    if !SomeStepCuts(st, c, run, end) {
      BeforeStoredEndIsGentle(st, c, run);
      AccessKeptUntilFirstEnd(st, c, run, end);
    }
  }

  lemma {:induction false} BeforeStoredEndIsGentle(st: State, c: CompanyId, run: seq<TimedAccess>)
    requires BeforeStoredEnd(st, c, run)
    ensures forall t :: t in run ==> Gentle(t.step, t.now)
    decreases |run|
  {
    if run != [] {
      BeforeStoredEndIsGentle(AccessNext(st, c, run[0].step, run[0].now), c, run[1..]);
      assert run == [run[0]] + run[1..];
    }
  }

  /** Such a loss: a cancelled notice names an earlier, still future end, and a transition
      between the two ends drops the plan although the end stored at the start lies ahead. */
  lemma EarlierEndCutsAccess() returns (st: State, run: seq<TimedAccess>)
    ensures PaidUntil(st, "c", 100) && PlanOf(st, "c").Pro? && SomeStepCuts(st, "c", run, 100)
    ensures forall t :: t in run ==> Gentle(t.step, t.now) && t.now < 100
    ensures PlanOf(AccessRun(st, "c", run), "c").Free?
  {
    var l := BlankLicense(Pro).(providerLinked := true, providerRef := Some("r"), periodEnd := Some(100));
    st := State(map["c" := l], map[], 8500);
    var a := Answer(Details("r", Cancelled, None, None, Some(20), None, None), None, Some("c"));
    run := [Tick(10, Notice(a, None)), Tick(30, Scheduled)];
    var kept := ApplyDetails(st, a, None, 10).state;
    assert AccessNext(st, "c", run[0].step, 10) == kept;
    assert AccessRun(kept, "c", run[1..]) == ApplyScheduled(kept, "c", 30) by {
      assert AccessRun(ApplyScheduled(kept, "c", 30), "c", run[1..][1..]) == ApplyScheduled(kept, "c", 30);
    }
  }
}
