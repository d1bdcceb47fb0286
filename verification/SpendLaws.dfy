/**
 What a budget check decides, and what its decisions keep over whole runs
 (internal/budget/manager.go).
 */
module SpendLaws {
  import opened Agents
  import opened Dollars
  import opened Text
  import AgentLaws

  /** The request goes on to the provider, with or without an alert or a cheaper model. */
  predicate Forwards(d: Decision) {
    d.action != Kill && d.action != Reject
  }

  predicate IsRunaway(runaway: Runaway, times: seq<int>, now: int) {
    Watches(runaway) && |Register(AgentLaws.Width(runaway), times, now)| > runaway.maxRequests
  }

  predicate WithinLimit(policy: Policy, spentUSD: real, estimatedUSD: real) {
    policy.limitUSD > 0.0 ==> spentUSD + NonNegative(estimatedUSD) <= policy.limitUSD
  }

  /** A request is forwarded exactly when the agent is live once its period has been looked
      at, the cross-agent budget admits it, it is no runaway, and it fits the limit or the
      policy lets such requests through. */
  lemma {:induction false} ForwardedExactly(addMonth: Calendar, policy: Policy, runaway: Runaway, state: AgentState,
                                            refusal: Option<Decision>, estimatedUSD: real, now: int)
    requires refusal.Some? ==> !Forwards(refusal.value)
    ensures var rolled := RolledOver(addMonth, policy, state, now);
            Forwards(Check(addMonth, policy, runaway, state, refusal, estimatedUSD, now).decision)
            <==> !rolled.killed && refusal.None? && !IsRunaway(runaway, rolled.requestTimes, now)
                 && (WithinLimit(policy, rolled.spentUSD, estimatedUSD)
                     || policy.actionOnExceed in {OnExceedDowngrade, OnExceedAlert})
  {
    assert policy.actionOnExceed in {OnExceedDowngrade, OnExceedAlert} <==>
             policy.actionOnExceed == OnExceedDowngrade || policy.actionOnExceed == OnExceedAlert;
  }

  // ---------- spend under a strict policy ----------

  /** A positive limit of at most `cap` that stops what would pass it. */
  predicate Strict(policy: Policy, cap: real) {
    0.0 < policy.limitUSD <= cap && (policy.actionOnExceed == OnExceedReject || policy.actionOnExceed == OnExceedKill)
  }

  ghost predicate StaysStrict(events: seq<AgentLaws.Event>, cap: real) {
    forall e | e in events :: KeepsStrict(e, cap)
  }

  /** A policy the call brings in, changed at runtime or declared for a start, is strict. */
  predicate KeepsStrict(e: AgentLaws.Event, cap: real) {
    && (e.UpdateE? ==> Strict(e.policy, cap))
    && (e.RestartE? && e.configured.Some? ==> Strict(e.configured.value, cap))
  }

  /** What was charged since the last check that let a request through. */
  function LateCharges(addMonth: Calendar, runaway: Runaway, a: AgentLaws.Agent, events: seq<AgentLaws.Event>,
                       sofar: real): real
    decreases |events|
  {
    if events == [] then sofar
    else LateCharges(addMonth, runaway, AgentLaws.Step(addMonth, runaway, a, events[0]), events[1..],
                     Charged(addMonth, runaway, a, events[0], sofar))
  }

  function Charged(addMonth: Calendar, runaway: Runaway, a: AgentLaws.Agent, e: AgentLaws.Event, sofar: real): real {
    match e
    case CheckE(refusal, estimate, now) =>
      if Forwards(Check(addMonth, a.policy, runaway, a.state, refusal, estimate, now).decision) then 0.0 else sofar
    case RecordE(cost, _) => sofar + NonNegative(cost)
    case _ => sofar
  }

  lemma {:induction false} StepStaysStrict(addMonth: Calendar, runaway: Runaway, a: AgentLaws.Agent, e: AgentLaws.Event,
                                           cap: real)
    requires Strict(a.policy, cap) && KeepsStrict(e, cap)
    ensures Strict(AgentLaws.Step(addMonth, runaway, a, e).policy, cap)
  {
  }

  lemma {:induction false} RunStaysStrict(addMonth: Calendar, runaway: Runaway, a: AgentLaws.Agent,
                                          events: seq<AgentLaws.Event>, cap: real)
    requires Strict(a.policy, cap) && StaysStrict(events, cap)
    ensures Strict(AgentLaws.Run(addMonth, runaway, a, events).policy, cap)
    decreases |events|
  {
    if events == [] {
    } else {
      assert events[0] in events && forall e | e in events[1..] :: e in events;
      StepStaysStrict(addMonth, runaway, a, events[0], cap);
      RunStaysStrict(addMonth, runaway, AgentLaws.Step(addMonth, runaway, a, events[0]), events[1..], cap);
    }
  }

  lemma {:induction false} CheckKeepsSpend(addMonth: Calendar, policy: Policy, runaway: Runaway, state: AgentState,
                                           refusal: Option<Decision>, estimatedUSD: real, now: int)
    ensures Check(addMonth, policy, runaway, state, refusal, estimatedUSD, now).state.spentUSD
            == RolledOver(addMonth, policy, state, now).spentUSD
  {
  }

  /** After any run, rollovers, resets and restarts included, a request that is let through
      leaves the agent's spend and its own estimate together within the cap. */
  lemma {:induction false} ForwardedWithinCap(addMonth: Calendar, runaway: Runaway, a: AgentLaws.Agent,
                                              events: seq<AgentLaws.Event>, e: AgentLaws.Event, cap: real)
    requires Strict(a.policy, cap) && StaysStrict(events, cap) && e.CheckE?
    requires e.globalRefusal.Some? ==> !Forwards(e.globalRefusal.value)
    ensures var end := AgentLaws.Run(addMonth, runaway, a, events);
            Forwards(Check(addMonth, end.policy, runaway, end.state, e.globalRefusal, e.estimatedUSD, e.now).decision)
            ==> AgentLaws.Step(addMonth, runaway, end, e).state.spentUSD + NonNegative(e.estimatedUSD) <= cap
  {
    var end := AgentLaws.Run(addMonth, runaway, a, events);
    RunStaysStrict(addMonth, runaway, a, events, cap);
    ForwardedExactly(addMonth, end.policy, runaway, end.state, e.globalRefusal, e.estimatedUSD, e.now);
    CheckKeepsSpend(addMonth, end.policy, runaway, end.state, e.globalRefusal, e.estimatedUSD, e.now);
  }

  ghost predicate ProperRefusals(events: seq<AgentLaws.Event>) {
    forall e | e in events && e.CheckE? && e.globalRefusal.Some? :: !Forwards(e.globalRefusal.value)
  }

  lemma {:induction false} StepStaysNear(addMonth: Calendar, runaway: Runaway, a: AgentLaws.Agent, e: AgentLaws.Event,
                                         cap: real, bound: real, sofar: real)
    requires Strict(a.policy, cap) && cap <= bound && sofar >= 0.0 && a.state.spentUSD <= bound + sofar
    requires e.CheckE? && e.globalRefusal.Some? ==> !Forwards(e.globalRefusal.value)
    ensures Charged(addMonth, runaway, a, e, sofar) >= 0.0
    ensures AgentLaws.Step(addMonth, runaway, a, e).state.spentUSD <= bound + Charged(addMonth, runaway, a, e, sofar)
  {
    if e.CheckE? {
      ForwardedExactly(addMonth, a.policy, runaway, a.state, e.globalRefusal, e.estimatedUSD, e.now);
      CheckKeepsSpend(addMonth, a.policy, runaway, a.state, e.globalRefusal, e.estimatedUSD, e.now);
    }
  }

  /** Over any run the agent's spend passes the larger of its start and the cap by no more
      than what was charged after the last request was let through. */
  lemma {:induction false} SpendStaysNearCap(addMonth: Calendar, runaway: Runaway, a: AgentLaws.Agent,
                                             events: seq<AgentLaws.Event>, cap: real, bound: real, sofar: real)
    requires Strict(a.policy, cap) && StaysStrict(events, cap) && ProperRefusals(events)
    requires cap <= bound && sofar >= 0.0 && a.state.spentUSD <= bound + sofar
    ensures AgentLaws.Run(addMonth, runaway, a, events).state.spentUSD
            <= bound + LateCharges(addMonth, runaway, a, events, sofar)
    decreases |events|
  {
    if events == [] {
    } else {
      var e := events[0];
      assert e in events && forall x | x in events[1..] :: x in events;
      StepStaysStrict(addMonth, runaway, a, e, cap);
      StepStaysNear(addMonth, runaway, a, e, cap, bound, sofar);
      SpendStaysNearCap(addMonth, runaway, AgentLaws.Step(addMonth, runaway, a, e), events[1..], cap, bound,
                        Charged(addMonth, runaway, a, e, sofar));
    }
  }

  // ---------- budget kills ----------

  /** While its period lasts a killed agent's every check answers kill, whatever is called
      in between short of enabling or resetting it. */
  lemma {:induction false} KillAnswersThePeriod(addMonth: Calendar, runaway: Runaway, a: AgentLaws.Agent,
                                                events: seq<AgentLaws.Event>,
                                                refusal: Option<Decision>, estimatedUSD: real, now: int)
    requires a.state.killed && a.state.reason != NoReason && a.state.periodResetsAt != ZERO_TIME
    requires forall e | e in events :: AgentLaws.Quiet(e, a.state.periodResetsAt)
    requires now < a.state.periodResetsAt
    ensures var end := AgentLaws.Run(addMonth, runaway, a, events);
            Check(addMonth, end.policy, runaway, end.state, refusal, estimatedUSD, now).decision.action == Kill
  {
    AgentLaws.BudgetKillLastsThePeriod(addMonth, runaway, a, events);
  }

  /** Under a kill policy the first request that does not fit the limit is refused, and so
      is every later one until the period ends. */
  lemma {:induction false} OverLimitKillsThePeriod(addMonth: Calendar, runaway: Runaway, a: AgentLaws.Agent,
                                                   over: AgentLaws.Event, events: seq<AgentLaws.Event>,
                                                   refusal: Option<Decision>, estimatedUSD: real, now: int)
    requires over.CheckE? && over.globalRefusal.None? && over.now < a.state.periodResetsAt
             && a.state.periodResetsAt != ZERO_TIME
    requires !a.state.killed && a.policy.limitUSD > 0.0 && a.policy.actionOnExceed == OnExceedKill
    requires !WithinLimit(a.policy, a.state.spentUSD, over.estimatedUSD)
    requires forall e | e in events :: AgentLaws.Quiet(e, a.state.periodResetsAt)
    requires now < a.state.periodResetsAt
    ensures !Forwards(Check(addMonth, a.policy, runaway, a.state, None, over.estimatedUSD, over.now).decision)
    ensures var end := AgentLaws.Run(addMonth, runaway, AgentLaws.Step(addMonth, runaway, a, over), events);
            !Forwards(Check(addMonth, end.policy, runaway, end.state, refusal, estimatedUSD, now).decision)
  {
    var b := AgentLaws.Step(addMonth, runaway, a, over);
    assert b.state.killed && b.state.reason != NoReason && b.state.periodResetsAt == a.state.periodResetsAt;
    KillAnswersThePeriod(addMonth, runaway, b, events, refusal, estimatedUSD, now);
  }

  /** A policy tightened at runtime does not outlive the next start of an agent declared with
      a laxer one: a request is forwarded far past the runtime limit. */
  lemma {:induction false} StartLoosensPolicy(addMonth: Calendar, runaway: Runaway, start: int)
    requires start > 0 && !Watches(runaway)
    ensures var declared := Policy(100.0, 80.0, Hourly, OnExceedAlert, [50.0]);
            var running := declared.(limitUSD := 5.0, actionOnExceed := OnExceedReject);
            var a := AgentLaws.Agent(running, NewState(addMonth, running, start));
            var b := AgentLaws.Step(addMonth, runaway, a, AgentLaws.RestartE(Some(declared), start));
            && Strict(running, 5.0)
            && !Forwards(Check(addMonth, a.policy, runaway, a.state, None, 50.0, start).decision)
            && Forwards(Check(addMonth, b.policy, runaway, b.state, None, 50.0, start).decision)
  {
    var declared := Policy(100.0, 80.0, Hourly, OnExceedAlert, [50.0]);
    var running := declared.(limitUSD := 5.0, actionOnExceed := OnExceedReject);
    var state := NewState(addMonth, running, start);
    FreshIsForwardedExactly(addMonth, running, runaway, state, 50.0, start);
    AgentLaws.RestartBasics(addMonth, Some(declared), running, state, start);
    AgentLaws.RestartKeepsKill(addMonth, Some(declared), running, state, start);
    var b := AgentLaws.Restarted(addMonth, Some(declared), running, state, start);
    assert b.policy.limitUSD == 100.0;
    FreshIsForwardedExactly(addMonth, b.policy, runaway, b.state, 50.0, start);
  }

  lemma {:induction false} FreshIsForwardedExactly(
      addMonth: Calendar, policy: Policy, runaway: Runaway, state: AgentState, estimatedUSD: real, now: int)
    requires !Watches(runaway) && !state.killed && now < state.periodResetsAt && state.spentUSD == 0.0
    requires policy.limitUSD > 0.0 && estimatedUSD >= 0.0
    ensures Forwards(Check(addMonth, policy, runaway, state, None, estimatedUSD, now).decision)
            <==> estimatedUSD <= policy.limitUSD || policy.actionOnExceed in {OnExceedDowngrade, OnExceedAlert}
  {
    ForwardedExactly(addMonth, policy, runaway, state, None, estimatedUSD, now);
  }
}
