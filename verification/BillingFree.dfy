/** A free license carries nothing of a paid subscription. */
module BillingFree {
  import opened Wrappers
  import opened BillingModel
  import opened BillingActions

  predicate Clean(l: License) {
    l.plan.Free? ==>
      !l.providerLinked && l.providerRef.None? && l.periodStart.None? && l.periodEnd.None? &&
      l.nextPayment.None? && !l.cancelAtPeriodEnd
  }

  ghost predicate AllClean(st: State) {
    forall c :: c in st.licenses ==> Clean(st.licenses[c])
  }

  /** The answer is a paused notice that resolves to a checkout of a company on FREE. */
  predicate PausesFree(st: State, a: Answer) {
    a.details.status.Paused? && SessionOf(st, a).Some? && SessionOf(st, a).value.company in st.licenses &&
    st.licenses[SessionOf(st, a).value.company].plan.Free?
  }

  /** The row a decision leaves is clean unless it pauses a free license. */
  lemma DecisionKeepsCleanExactly(st: State, a: Answer, c: CompanyId, plan: Plan, now: Time)
    requires AllClean(st) && ResolvedPlan(st, a, c) == Some(plan)
    requires SessionOf(st, a).Some? ==> SessionOf(st, a).value.company == c
    ensures var row := LicenseAfter(st, a, c, plan, Judge(st, a, c, plan, now), now);
            (row.Some? ==> Clean(row.value)) <==> !(a.details.status.Paused? && c in st.licenses && st.licenses[c].plan.Free?)
  {
    assert PlanOf(st, c).Free? ==> SessionOf(st, a).Some? && RefOf(st, c).None?;
  }

  lemma AnswerKeepsCleanExactly(st: State, a: Answer, fallback: Option<CompanyId>, now: Time)
    requires AllClean(st)
    ensures AllClean(ApplyDetails(st, a, fallback, now).state) <==> !PausesFree(st, a)
  {
    var after := ApplyDetails(st, a, fallback, now).state;
    match Target(st, a, fallback)
    case None =>
    case Some(c) =>
      match ResolvedPlan(st, a, c)
      case None =>
      case Some(plan) =>
        DecisionKeepsCleanExactly(st, a, c, plan, now);
        var row := LicenseAfter(st, a, c, plan, Judge(st, a, c, plan, now), now);
        assert after.licenses == WithLicense(st, c, row).licenses;
        assert c in st.licenses && st.licenses[c].plan.Free? ==> SessionOf(st, a).Some?;
        assert AllClean(after) <==> (row.Some? ==> Clean(after.licenses[c]));
  }

  /** What a paused notice leaves on a free license: linked, and with no scheduled cancel. */
  lemma PausedFreeStaysFree(st: State, a: Answer, fallback: Option<CompanyId>, now: Time)
    requires AllClean(st) && PausesFree(st, a)
    ensures var after := ApplyDetails(st, a, fallback, now).state;
            var d := SessionOf(st, a).value.company;
            d in after.licenses && after.licenses[d].plan.Free? && after.licenses[d].providerRef.Some? &&
            !after.licenses[d].cancelAtPeriodEnd
  {
  }

  lemma CancelKeepsCleanExactly(st: State, c: CompanyId, atOnce: bool, reply: Option<Answer>, now: Time)
    requires AllClean(st)
    ensures AllClean(Cancel(st, c, atOnce, reply, now).0)
            <==> !(RefOf(st, c).Some? && reply.Some? && PausesFree(st, reply.value))
  {
    if RefOf(st, c).Some? && reply.Some? {
      AnswerKeepsCleanExactly(st, reply.value, Some(c), now);
      if PausesFree(st, reply.value) {
        PausedFreeStaysFree(st, reply.value, Some(c), now);
        var d := SessionOf(st, reply.value).value.company;
        assert d != c;
        assert !Clean(Cancel(st, c, atOnce, reply, now).0.licenses[d]);
      }
    }
  }

  lemma SubscribeKeepsClean(st: State, c: CompanyId, plan: Plan, reply: CheckoutReply, id: CheckoutId, now: Time)
    requires AllClean(st)
    ensures AllClean(Subscribe(st, c, plan, reply, id, now).0)
  {
  }

  lemma ChangePlanKeepsCleanExactly(st: State, c: CompanyId, plan: Plan, q: ChangeReplies, now: Time)
    requires AllClean(st)
    ensures AllClean(ChangePlan(st, c, plan, q, now).0)
            <==> !(plan.Free? && !PlanOf(st, c).Free? && RefOf(st, c).Some? && q.cancel.Some? && PausesFree(st, q.cancel.value))
  {
    CancelKeepsCleanExactly(st, c, false, q.cancel, now);
    SubscribeKeepsClean(st, c, plan, q.checkout, q.id, now);
    if c in st.licenses {
      SubscribeKeepsClean(SetPending(st, c, Pro, now), c, Pro, q.checkout, q.id, now);
    }
  }

  lemma RefreshKeepsCleanExactly(st: State, c: CompanyId, asked: Option<Ref>, reply: Option<Answer>, now: Time)
    requires AllClean(st)
    ensures AllClean(Refresh(st, c, asked, reply, now).0)
            <==> !(asked.Some? && reply.Some? && PausesFree(st, reply.value))
  {
    if asked.Some? && reply.Some? {
      AnswerKeepsCleanExactly(st, reply.value, Some(c), now);
      if PausesFree(st, reply.value) {
        PausedFreeStaysFree(st, reply.value, Some(c), now);
        var d := SessionOf(st, reply.value).value.company;
        assert !Clean(Refresh(st, c, asked, reply, now).0.licenses[d]);
      }
    }
  }

  /** One step keeps every free license clean exactly when it applies no paused answer to a
      company on FREE. */
  lemma StepKeepsCleanExactly(st: State, step: Step, now: Time)
    requires AllClean(st)
    ensures AllClean(Next(st, step, now))
            <==> !(AppliedAnswer(st, step).Some? && PausesFree(st, AppliedAnswer(st, step).value))
  {
    match step
    case DoSubscribe(c, plan, reply, id) => SubscribeKeepsClean(st, c, plan, reply, id, now);
    case DoCancel(c, atOnce, answer) => CancelKeepsCleanExactly(st, c, atOnce, answer, now);
    case DoChangePlan(c, plan, q) => ChangePlanKeepsCleanExactly(st, c, plan, q, now);
    case DoRefresh(c, asked, answer) => RefreshKeepsCleanExactly(st, c, asked, answer, now);
    case DoNotice(a, fallback) => AnswerKeepsCleanExactly(st, a, fallback, now);
    case DoSweep =>
      assert forall c :: c in st.licenses ==> Swept(st.licenses[c], now) == st.licenses[c].(status := Swept(st.licenses[c], now).status);
    case _ =>
  }

  lemma {:induction false} CleanStaysClean(st: State, run: seq<TimedStep>, n: nat)
    requires n <= |run| && AllClean(st)
    requires forall i :: 0 <= i < n ==> !PausesFreeAt(st, run, i)
    ensures AllClean(StateAt(st, run, n))
  {
    if n > 0 {
      CleanStaysClean(st, run, n - 1);
      assert !PausesFreeAt(st, run, n - 1);
      StepKeepsCleanExactly(StateAt(st, run, n - 1), run[n - 1].step, run[n - 1].now);
    }
  }

  /** Step `i` of the run applies a paused answer to a company on FREE. */
  predicate PausesFreeAt(st: State, run: seq<TimedStep>, i: nat)
    requires i < |run|
  {
    var applied := AppliedAnswer(StateAt(st, run, i), run[i].step);
    applied.Some? && PausesFree(StateAt(st, run, i), applied.value)
  }

  /** From the first account on, every free license is clean after each of the first steps of
      a run exactly when none of those steps applies a paused answer to a company on FREE. */
  lemma FreeStaysCleanExactly(proPriceCents: int, run: seq<TimedStep>, n: nat)
    requires n <= |run|
    ensures (forall k :: 0 <= k <= n ==> AllClean(StateAt(NoAccounts(proPriceCents), run, k)))
            <==> (forall i :: 0 <= i < n ==> !PausesFreeAt(NoAccounts(proPriceCents), run, i))
  {
    var st := NoAccounts(proPriceCents);
    if forall i :: 0 <= i < n ==> !PausesFreeAt(st, run, i) {
      forall k | 0 <= k <= n
        ensures AllClean(StateAt(st, run, k))
      {
        CleanStaysClean(st, run, k);
      }
    } else {
      var i :| 0 <= i < n && PausesFreeAt(st, run, i);
      PausedRunIsNotClean(st, run, i);
    }
  }

  lemma PausedRunIsNotClean(st: State, run: seq<TimedStep>, i: nat)
    requires i < |run| && PausesFreeAt(st, run, i)
    ensures !AllClean(StateAt(st, run, i)) || !AllClean(StateAt(st, run, i + 1))
  {
    if AllClean(StateAt(st, run, i)) {
      StepKeepsCleanExactly(StateAt(st, run, i), run[i].step, run[i].now);
    }
  }

  /** Such a run: a company opens an account and a BASIC checkout, and the provider reports
      that subscription paused before it was ever paid. */
  lemma PausedBeforePaid() returns (run: seq<TimedStep>)
    ensures |run| == 3 && run[0].step.DoCreate? && run[1].step.DoSubscribe? && run[2].step.DoNotice?
    ensures LookedUp(StateAt(NoAccounts(8500), run, 2), run[2].step.notice)
    ensures AllClean(StateAt(NoAccounts(8500), run, 2)) && !AllClean(StateAt(NoAccounts(8500), run, 3))
  {
    var paused := Answer(Details("r", Paused, Some("k"), None, None, None, None), Some("k"), None);
    run := [At(1, DoCreate("c")), At(2, DoSubscribe("c", Basic, Created("r"), "k")), At(3, DoNotice(paused, None))];
    var empty := NoAccounts(8500);
    var created := State(map["c" := BlankLicense(Free)], map[], 8500);
    var l := BlankLicense(Free).(pendingPlan := Some(Basic), pendingRequestedAt := Some(2));
    var asked := State(map["c" := l], map["k" := Checkout("c", Basic, PENDING, Some("r"), 2)], 8500);
    assert StateAt(empty, run, 0) == empty;
    assert StateAt(empty, run, 1) == created;
    assert StateAt(empty, run, 2) == asked;
    assert PausesFreeAt(empty, run, 2);
    PausedRunIsNotClean(empty, run, 2);
  }
}
