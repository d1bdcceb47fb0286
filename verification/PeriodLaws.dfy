/**
 Alert thresholds over any number of periods: each period starts with none fired, and in
 each every threshold its spend passes is alerted once (internal/budget/manager.go).
 */
module PeriodLaws {
  import opened AgentLaws
  import opened Agents
  import opened Dollars
  import opened Governor
  import opened Text
  import DecisionLaws
  import GovernorLaws

  // ---------- how long a period is ----------

  /** An hour is 3600 seconds, a day 24 hours, a week seven days, and any word but hourly,
      weekly and monthly means a day. */
  lemma PeriodsLast(addMonth: Calendar, start: int, period: Period)
    ensures NextPeriodReset(addMonth, start, period) - start
            == match period
               case Hourly => 3_600_000_000_000
               case Weekly => 604_800_000_000_000
               case Monthly => addMonth(start) - start
               case _ => 86_400_000_000_000
  {
  }

  // ---------- a charge that starts a period ----------

  /** A charge at or after the period's end fires exactly the thresholds its own cost passes,
      each once, whatever had fired before. */
  lemma {:induction false} NewPeriodFiresAfresh(addMonth: Calendar, policy: Policy, state: AgentState, costUSD: real,
                                                now: int)
    requires now >= state.periodResetsAt
    ensures var s := Recorded(addMonth, policy, state, costUSD, now);
            && s.state.spentUSD == Max(costUSD, 0.0)
            && NoRepeats(s.alerts)
            && forall t :: t in s.alerts <==>
                 t in policy.alertThresholdsPct && 0.0 < t <= PercentageUsed(policy.limitUSD, Max(costUSD, 0.0))
  {
    DecisionLaws.RolledMeans(addMonth, policy, state.(lastSeenAt := now), now);
    FireExactly(policy.alertThresholdsPct, 0.0, PercentageUsed(policy.limitUSD, NonNegative(costUSD)), {});
  }

  /** So does the first charge after a reset, whenever it comes. */
  lemma {:induction false} ResetFiresAfresh(addMonth: Calendar, policy: Policy, state: AgentState, resetAt: int,
                                            costUSD: real, now: int)
    ensures var s := Recorded(addMonth, policy, BudgetReset(addMonth, policy, state, resetAt), costUSD, now);
            && s.state.spentUSD == Max(costUSD, 0.0)
            && NoRepeats(s.alerts)
            && forall t :: t in s.alerts <==>
                 t in policy.alertThresholdsPct && 0.0 < t <= PercentageUsed(policy.limitUSD, Max(costUSD, 0.0))
  {
    var reset := BudgetReset(addMonth, policy, state, resetAt);
    DecisionLaws.RolledMeans(addMonth, policy, reset.(lastSeenAt := now), now);
    FireExactly(policy.alertThresholdsPct, 0.0, PercentageUsed(policy.limitUSD, NonNegative(costUSD)), {});
  }

  /** A reset starts the agent's period now with nothing spent, fired or registered, and lifts a
      budget kill only. */
  lemma {:induction false} ResetMeans(addMonth: Calendar, policy: Policy, state: AgentState, now: int)
    ensures var r := BudgetReset(addMonth, policy, state, now);
            && r.spentUSD == 0.0 && r.requestTimes == [] && r.triggeredAlerts == {} && r.lastAlertedPct == 0.0
            && r.periodStartedAt == now && r.periodResetsAt == NextPeriodReset(addMonth, now, policy.period)
            && r.lastSeenAt == now && r.dirty
            && r.killed == (state.killed && state.reason != BudgetExceeded)
            && r.reason == if state.reason == BudgetExceeded then NoReason else state.reason
  {
  }

  // ---------- whole runs ----------

  /** The event begins a new period: a reset, or a call that looks at the period once it is over. */
  predicate Begins(a: Agent, e: Event) {
    e.ResetE? || (!e.KillE? && !e.EnableE? && e.now >= a.state.periodResetsAt)
  }

  /** The policy stays what it is: a change sets it again, and a start finds it declared or stored
      as it is. */
  predicate KeepsPolicy(e: Event, policy: Policy) {
    && (e.UpdateE? ==> e.policy == policy)
    && (e.RestartE? ==>
          if e.configured.Some? then StoredPolicy(e.configured.value) == policy else PolicySurvives(policy))
  }

  /** What has been charged and alerted since the period began. */
  datatype Tally = Tally(chargedUSD: real, alerts: seq<real>)

  const NOTHING := Tally(0.0, [])

  function Tallied(addMonth: Calendar, a: Agent, e: Event, tally: Tally): Tally {
    var base := if Begins(a, e) then NOTHING else tally;
    if !e.RecordE? then base
    else
      Tally(base.chargedUSD + Max(e.costUSD, 0.0),
            base.alerts + Recorded(addMonth, a.policy, a.state, e.costUSD, e.now).alerts)
  }

  /** The tally of the period a run ends in. */
  function PeriodTally(addMonth: Calendar, runaway: Runaway, a: Agent, events: seq<Event>, tally: Tally): Tally
    decreases |events|
  {
    if events == [] then tally
    else
      PeriodTally(addMonth, runaway, Step(addMonth, runaway, a, events[0]), events[1..],
                  Tallied(addMonth, a, events[0], tally))
  }

  /** The spend is what was charged, and the alerts are exactly the thresholds it passed, each once. */
  ghost predicate Told(policy: Policy, spentUSD: real, tally: Tally) {
    && spentUSD == tally.chargedUSD
    && NoRepeats(tally.alerts)
    && forall t :: t in tally.alerts <==>
         t in policy.alertThresholdsPct && 0.0 < t <= PercentageUsed(policy.limitUSD, spentUSD)
  }

  /** What is marked as fired is what the spend has passed, for the thresholds that can fire. */
  ghost predicate Marked(policy: Policy, state: AgentState) {
    forall t | t in policy.alertThresholdsPct && t > 0.0 :: t in state.triggeredAlerts <==> t <= Used(policy, state)
  }

  lemma {:induction false} StepTells(addMonth: Calendar, runaway: Runaway, a: Agent, e: Event, tally: Tally)
    requires KeepsPolicy(e, a.policy) && Told(a.policy, a.state.spentUSD, tally) && Marked(a.policy, a.state)
    requires a.state.spentUSD >= 0.0
    ensures var b := Step(addMonth, runaway, a, e);
            && b.policy == a.policy && b.state.spentUSD >= 0.0 && Marked(b.policy, b.state)
            && Told(b.policy, b.state.spentUSD, Tallied(addMonth, a, e, tally))
  {
    DecisionLaws.RolledMeans(addMonth, a.policy, a.state, e.now);
    match e
    case CheckE(refusal, estimate, now) =>
      DecisionLaws.CheckLeaves(addMonth, a.policy, runaway, a.state, refusal, estimate, now);
    case RecordE(cost, now) => RecordTells(addMonth, a.policy, a.state, cost, now, tally);
    case KillE(_) =>
    case EnableE(_) =>
    case ResetE(now) => ResetMeans(addMonth, a.policy, a.state, now);
    case UpdateE(_, _) =>
    case ViewE(_) =>
    case RestartE(configured, now) => RestartTells(addMonth, configured, a.policy, a.state, now);
  }

  lemma {:induction false} RecordTells(addMonth: Calendar, policy: Policy, state: AgentState, costUSD: real, now: int,
                                       tally: Tally)
    requires Told(policy, state.spentUSD, tally) && Marked(policy, state) && state.spentUSD >= 0.0
    ensures var s := Recorded(addMonth, policy, state, costUSD, now);
            var base := if now >= state.periodResetsAt then NOTHING else tally;
            && s.state.spentUSD >= 0.0 && Marked(policy, s.state)
            && Told(policy, s.state.spentUSD, Tally(base.chargedUSD + Max(costUSD, 0.0), base.alerts + s.alerts))
  {
    var s := Recorded(addMonth, policy, state, costUSD, now);
    if now >= state.periodResetsAt {
      NewPeriodFiresAfresh(addMonth, policy, state, costUSD, now);
      DecisionLaws.RolledMeans(addMonth, policy, state.(lastSeenAt := now), now);
      assert NOTHING.alerts + s.alerts == s.alerts;
      assert s.state.triggeredAlerts == {} + Elements(s.alerts);
    } else {
      RecordWithinPeriod(addMonth, policy, state, Charge(costUSD, now));
      PercentageNonNegative(policy.limitUSD, state.spentUSD);
      Joined(tally.alerts, s.alerts);
    }
  }

  lemma {:induction false} Joined(x: seq<real>, y: seq<real>)
    requires NoRepeats(x) && NoRepeats(y) && forall t | t in x :: t !in y
    ensures NoRepeats(x + y)
  {
    forall i, j | 0 <= i < j < |x + y| ensures (x + y)[i] != (x + y)[j] {
      if i < |x| <= j {
        assert x[i] in x && y[j - |x|] in y;
      }
    }
  }

  lemma {:induction false} RestartTells(
      addMonth: Calendar, configured: Option<Policy>, policy: Policy, state: AgentState, now: int)
    requires Marked(policy, state) && state.spentUSD >= 0.0
    requires if configured.Some? then StoredPolicy(configured.value) == policy else PolicySurvives(policy)
    ensures var b := Restarted(addMonth, configured, policy, RolledOver(addMonth, policy, state, now), now);
            && b.policy == policy && Marked(policy, b.state)
            && b.state.spentUSD == DecisionLaws.SpentAt(state, now)
  {
    var rolled := RolledOver(addMonth, policy, state, now);
    DecisionLaws.RolledMeans(addMonth, policy, state, now);
    RestartKeepsPolicy(addMonth, configured, policy, rolled, now);
    var b := Restarted(addMonth, configured, policy, rolled, now);
    assert b.state.triggeredAlerts == TriggeredAlerts(policy.alertThresholdsPct, policy.limitUSD, rolled.spentUSD);
  }

  /** Over any run under one policy, through rollovers, resets and starts, and at every moment of
      it, the spend is what was charged since the period began, and the alerts sent since then are
      exactly the thresholds it passed, each once. */
  lemma {:induction false} EveryPeriodAlertsExactly(addMonth: Calendar, runaway: Runaway, a: Agent, events: seq<Event>,
                                                    tally: Tally)
    requires forall e | e in events :: KeepsPolicy(e, a.policy)
    requires Told(a.policy, a.state.spentUSD, tally) && Marked(a.policy, a.state) && a.state.spentUSD >= 0.0
    ensures var end := Run(addMonth, runaway, a, events);
            && end.policy == a.policy && Marked(end.policy, end.state) && end.state.spentUSD >= 0.0
            && Told(end.policy, end.state.spentUSD, PeriodTally(addMonth, runaway, a, events, tally))
    decreases |events|
  {
    if events == [] {
    } else {
      assert events[0] in events && forall e | e in events[1..] :: e in events;
      StepTells(addMonth, runaway, a, events[0], tally);
      EveryPeriodAlertsExactly(addMonth, runaway, Step(addMonth, runaway, a, events[0]), events[1..],
                               Tallied(addMonth, a, events[0], tally));
    }
  }

  /** A new agent starts that way. */
  lemma {:induction false} NewAgentAlertsExactly(addMonth: Calendar, runaway: Runaway, policy: Policy,
                                                 events: seq<Event>, now: int)
    requires forall e | e in events :: KeepsPolicy(e, policy)
    ensures var a := Agent(policy, NewState(addMonth, policy, now));
            var end := Run(addMonth, runaway, a, events);
            Told(policy, end.state.spentUSD, PeriodTally(addMonth, runaway, a, events, NOTHING))
  {
    var a := Agent(policy, NewState(addMonth, policy, now));
    PercentageNonNegative(policy.limitUSD, 0.0);
    EveryPeriodAlertsExactly(addMonth, runaway, a, events, NOTHING);
  }

  // ---------- the whole manager ----------

  /** What setting a policy for this agent sets it to. */
  predicate CallKeepsPolicy(c: GovernorLaws.Call, agent: string, policy: Policy) {
    c.UpdateC? && c.Agent() == agent ==> c.policy == policy
  }

  lemma {:induction false} HistoryKeepsPolicy(s: Settings, m: Memory, calls: seq<GovernorLaws.Call>, agent: string,
                                              policy: Policy)
    requires forall c | c in calls :: CallKeepsPolicy(c, agent, policy)
    ensures forall e | e in GovernorLaws.History(s, m, calls, agent) :: KeepsPolicy(e, policy)
    decreases |calls|
  {
    if calls == [] {
    } else {
      assert calls[0] in calls && forall c | c in calls[1..] :: c in calls;
      SeenKeepsPolicy(s, m, calls[0], agent, policy);
      HistoryKeepsPolicy(s, GovernorLaws.Done(s, m, calls[0]), calls[1..], agent, policy);
    }
  }

  lemma {:induction false} SeenKeepsPolicy(s: Settings, m: Memory, c: GovernorLaws.Call, agent: string, policy: Policy)
    requires CallKeepsPolicy(c, agent, policy)
    ensures forall e | e in GovernorLaws.Seen(s, m, c, agent) :: KeepsPolicy(e, policy)
  {
  }

  /** Through any interleaving of calls for any agents, one agent's spend is what was charged to
      it since its period began, and the alerts sent for it since then are exactly the thresholds
      it passed, each once. */
  lemma {:induction false} ManagerAlertsExactly(s: Settings, m: Memory, calls: seq<GovernorLaws.Call>, agent: string,
                                                tally: Tally)
    requires agent in m.states && GovernorLaws.Spared(calls, agent)
    requires var a := GovernorLaws.View(s, m, agent);
             && Told(a.policy, a.state.spentUSD, tally) && Marked(a.policy, a.state) && a.state.spentUSD >= 0.0
             && forall c | c in calls :: CallKeepsPolicy(c, agent, a.policy)
    ensures agent in GovernorLaws.Run(s, m, calls).states
    ensures var a, end := GovernorLaws.View(s, m, agent), GovernorLaws.Run(s, m, calls);
            Told(a.policy, end.states[agent].spentUSD,
                 PeriodTally(s.addMonth, s.runaway, a, GovernorLaws.History(s, m, calls, agent), tally))
  {
    var a := GovernorLaws.View(s, m, agent);
    HistoryKeepsPolicy(s, m, calls, agent, a.policy);
    EveryPeriodAlertsExactly(s.addMonth, s.runaway, a, GovernorLaws.History(s, m, calls, agent), tally);
    GovernorLaws.EachAgentRunsAlone(s, m, calls, agent);
  }
}
