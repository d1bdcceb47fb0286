/**
 What a budget check answers and leaves behind, told from the policy's own fields, the
 spend, the requests and the kill an agent has (internal/budget/manager.go).
 */
module DecisionLaws {
  import opened Agents
  import opened Dollars
  import opened Text
  import opened Governor
  import AgentLaws
  import GovernorLaws
  import SpendLaws
  import Tasks

  // ---------- an agent once its period has been looked at ----------

  ghost function SpentAt(state: AgentState, now: int): real {
    if now < state.periodResetsAt then state.spentUSD else 0.0
  }

  ghost function TimesAt(state: AgentState, now: int): seq<int> {
    if now < state.periodResetsAt then state.requestTimes else []
  }

  ghost function FiredAt(state: AgentState, now: int): set<real> {
    if now < state.periodResetsAt then state.triggeredAlerts else {}
  }

  /** A budget kill ends with its period, any other kill does not. */
  ghost predicate LiveAt(state: AgentState, now: int) {
    !state.killed || (now >= state.periodResetsAt && state.reason == BudgetExceeded)
  }

  lemma {:induction false} RolledMeans(addMonth: Calendar, policy: Policy, state: AgentState, now: int)
    ensures var rolled := RolledOver(addMonth, policy, state, now);
            && rolled.spentUSD == SpentAt(state, now) && rolled.requestTimes == TimesAt(state, now)
            && rolled.triggeredAlerts == FiredAt(state, now)
            && (rolled.killed <==> !LiveAt(state, now))
            && rolled.lastSeenAt == state.lastSeenAt
            && (now < state.periodResetsAt ==> rolled == state)
            && (now >= state.periodResetsAt ==>
                  && rolled.dirty && rolled.lastAlertedPct == 0.0 && rolled.periodStartedAt == now
                  && rolled.periodResetsAt == NextPeriodReset(addMonth, now, policy.period)
                  && rolled.reason == if state.reason == BudgetExceeded then NoReason else state.reason)
  {
  }

  /** A percentage of a limit is a hundredth of it in dollars; without a limit or spend it is zero. */
  lemma {:induction false} PercentageMeans(limit: real, spent: real)
    ensures limit > 0.0 && spent > 0.0 ==> PercentageUsed(limit, spent) * limit == spent * 100.0
    ensures limit <= 0.0 || spent <= 0.0 ==> PercentageUsed(limit, spent) == 0.0
  {
    if limit > 0.0 && spent > 0.0 {
      var q := spent / limit;
      assert q * limit == spent;
    }
  }

  // ---------- runaways ----------

  /** How many of the requests came at `start` or later. */
  ghost function CountSince(times: seq<int>, start: int): nat {
    if times == [] then 0 else (if times[0] >= start then 1 else 0) + CountSince(times[1..], start)
  }

  lemma {:induction false} SinceCounts(times: seq<int>, start: int)
    ensures |Since(times, start)| == CountSince(times, start)
  {
    if times == [] {
    } else {
      SinceCounts(times[1..], start);
    }
  }

  /** A request is a runaway exactly when detection is on, with a positive number and window, and
      with it more than that number came within the window of so many seconds that ends now. */
  lemma {:induction false} RunawayMeans(runaway: Runaway, times: seq<int>, now: int)
    ensures SpendLaws.IsRunaway(runaway, times, now)
            <==> && runaway.enabled && runaway.maxRequests > 0 && runaway.windowSeconds > 0
                 && CountSince(times, now - runaway.windowSeconds * 1_000_000_000) + 1 > runaway.maxRequests
  {
    SinceCounts(times, now - AgentLaws.Width(runaway));
  }

  // ---------- the decision ----------

  /** Past a positive limit the policy's own word decides. */
  ghost predicate AnswersOver(policy: Policy, d: Decision) {
    && (d.action == Downgrade <==> policy.actionOnExceed == OnExceedDowngrade)
    && (d.action == Alert <==> policy.actionOnExceed == OnExceedAlert)
    && (d.action == Kill <==> policy.actionOnExceed == OnExceedKill)
    && (d.action == Reject <==>
          policy.actionOnExceed !in {OnExceedDowngrade, OnExceedAlert, OnExceedKill})
    && d.code == if policy.actionOnExceed == OnExceedKill then AgentKilled else OverBudget
  }

  /** Within the limit a reached downgrade percentage downgrades, and short of that a threshold
      the request would pass alerts. */
  ghost predicate AnswersWithin(policy: Policy, spentUSD: real, projectedUSD: real, d: Decision) {
    var before, after := PercentageUsed(policy.limitUSD, spentUSD), PercentageUsed(policy.limitUSD, projectedUSD);
    var downgrades := policy.limitUSD > 0.0 && policy.downgradeThresholdPct > 0.0
                      && after >= policy.downgradeThresholdPct;
    var alerts := policy.limitUSD > 0.0 && exists t | t in policy.alertThresholdsPct :: before < t <= after;
    && (d.action == Downgrade <==> downgrades)
    && (d.action == Alert <==> !downgrades && alerts)
    && (d.action == Allow <==> !downgrades && !alerts)
    && d.code == NoCode
  }

  /** Every check of a live agent that the cross-agent budget admits and that is no runaway. */
  lemma {:induction false} CheckAnswers(addMonth: Calendar, policy: Policy, runaway: Runaway, state: AgentState,
                                        estimatedUSD: real, now: int)
    requires LiveAt(state, now) && !SpendLaws.IsRunaway(runaway, TimesAt(state, now), now)
    ensures var d := Check(addMonth, policy, runaway, state, None, estimatedUSD, now).decision;
            var spent, projected := SpentAt(state, now), SpentAt(state, now) + Max(estimatedUSD, 0.0);
            && d.limitUSD == policy.limitUSD && d.spentUSD == spent
            && (d.over <==> policy.limitUSD > 0.0 && projected > policy.limitUSD)
            && if d.over then AnswersOver(policy, d) else AnswersWithin(policy, spent, projected, d)
  {
    RolledMeans(addMonth, policy, state.(lastSeenAt := now), now);
    var before := PercentageUsed(policy.limitUSD, SpentAt(state, now));
    var after := PercentageUsed(policy.limitUSD, SpentAt(state, now) + NonNegative(estimatedUSD));
    assert forall t :: Crossed(t, before, after) <==> before < t <= after;
  }

  /** A killed agent and a runaway are answered kill, and the cross-agent budget's refusal is
      passed on. */
  lemma {:induction false} CheckRefuses(addMonth: Calendar, policy: Policy, runaway: Runaway, state: AgentState,
                                        refusal: Option<Decision>, estimatedUSD: real, now: int)
    ensures var d := Check(addMonth, policy, runaway, state, refusal, estimatedUSD, now).decision;
            var runs := SpendLaws.IsRunaway(runaway, TimesAt(state, now), now);
            && (!LiveAt(state, now) || (refusal.None? && runs) ==>
                  d == Decision(Kill, AgentKilled, false, policy.limitUSD, SpentAt(state, now)))
            && (LiveAt(state, now) && refusal.Some? ==> d == refusal.value)
  {
    RolledMeans(addMonth, policy, state.(lastSeenAt := now), now);
  }

  /** What a check leaves: the agent seen now, the request registered if it was watched, and a
      kill exactly for a runaway or for passing the limit of a kill policy. */
  lemma {:induction false} CheckLeaves(addMonth: Calendar, policy: Policy, runaway: Runaway, state: AgentState,
                                       refusal: Option<Decision>, estimatedUSD: real, now: int)
    ensures var checked := Check(addMonth, policy, runaway, state, refusal, estimatedUSD, now);
            var asked := LiveAt(state, now) && refusal.None?;
            var runs := asked && SpendLaws.IsRunaway(runaway, TimesAt(state, now), now);
            var kills := asked && !runs && checked.decision.over && policy.actionOnExceed == OnExceedKill;
            && checked.state.spentUSD == SpentAt(state, now) && checked.state.lastSeenAt == now
            && checked.state.requestTimes
               == (if asked && Watches(runaway)
                   then Register(AgentLaws.Width(runaway), TimesAt(state, now), now) else TimesAt(state, now))
            && checked.state.triggeredAlerts == FiredAt(state, now)
            && (checked.state.killed <==> !LiveAt(state, now) || runs || kills)
            && (runs ==> checked.state.reason == RunawayDetected)
            && (kills ==> checked.state.reason == BudgetExceeded)
            && (!runs && !kills && now < state.periodResetsAt ==> checked.state.reason == state.reason)
            && (checked.state.dirty <==> state.dirty || runs || kills || now >= state.periodResetsAt)
  {
    RolledMeans(addMonth, policy, state.(lastSeenAt := now), now);
  }

  /** What a check sends: word of a passed limit with what was decided, of a runaway with its
      requests, and of a kill with its reason. */
  lemma {:induction false} CheckSends(addMonth: Calendar, policy: Policy, runaway: Runaway, state: AgentState,
                                      refusal: Option<Decision>, estimatedUSD: real, now: int)
    ensures var checked := Check(addMonth, policy, runaway, state, refusal, estimatedUSD, now);
            var asked := LiveAt(state, now) && refusal.None?;
            var runs := asked && SpendLaws.IsRunaway(runaway, TimesAt(state, now), now);
            var projected := SpentAt(state, now) + Max(estimatedUSD, 0.0);
            checked.alerts
            == if runs then
                 [RunawayAlert(|Register(AgentLaws.Width(runaway), TimesAt(state, now), now)|),
                  KilledAlert(RunawayDetected)]
               else if asked && policy.limitUSD > 0.0 && projected > policy.limitUSD then
                 if policy.actionOnExceed == OnExceedKill
                 then [ExceededAlert(projected, Kill), KilledAlert(BudgetExceeded)]
                 else [ExceededAlert(projected, checked.decision.action)]
               else []
  {
    RolledMeans(addMonth, policy, state.(lastSeenAt := now), now);
  }

  // ---------- the manager ----------

  /** The cross-agent spend once its period has been looked at, which only a limit asks for. */
  ghost function GlobalAt(s: Settings, m: Memory, now: int): GlobalState {
    if s.globalLimitUSD > 0.0 && now >= m.global.periodResetsAt
    then GlobalState(0.0, now, NextPeriodReset(s.addMonth, now, s.globalPeriod)) else m.global
  }

  ghost function GlobalSpentAt(s: Settings, m: Memory, now: int): real {
    GlobalAt(s, m, now).spentUSD
  }

  ghost predicate GlobalStops(s: Settings, m: Memory, estimatedUSD: real, now: int) {
    s.globalLimitUSD > 0.0 && GlobalSpentAt(s, m, now) + estimatedUSD > s.globalLimitUSD
  }

  /** An agent the manager has not met has spent nothing, asked for nothing and is live. */
  ghost predicate AgentLive(m: Memory, agent: string, now: int) {
    agent in m.states ==> LiveAt(m.states[agent], now)
  }

  ghost function AgentSpent(m: Memory, agent: string, now: int): real {
    if agent in m.states then SpentAt(m.states[agent], now) else 0.0
  }

  ghost predicate AgentRuns(s: Settings, m: Memory, agent: string, now: int) {
    SpendLaws.IsRunaway(s.runaway, if agent in m.states then TimesAt(m.states[agent], now) else [], now)
  }

  /** A period that lasts goes on; otherwise one of the policy's length starts now. */
  ghost predicate PeriodIs(s: Settings, m: Memory, agent: string, policy: Policy, now: int, state: AgentState) {
    if agent in m.states && now < m.states[agent].periodResetsAt then
      state.periodStartedAt == m.states[agent].periodStartedAt
      && state.periodResetsAt == m.states[agent].periodResetsAt
    else state.periodStartedAt == now && state.periodResetsAt == NextPeriodReset(s.addMonth, now, policy.period)
  }

  /** The policy set for the agent, or else the default. */
  ghost predicate PolicyIs(s: Settings, m: Memory, agent: string, policy: Policy) {
    if agent in m.policies then policy == m.policies[agent] else policy == s.defaultPolicy
  }

  /** What the manager answers, whoever asks: kill for an agent that is not live, the cross-agent
      refusal, kill for a runaway, and otherwise what the agent's policy makes of its spend. */
  lemma {:induction false} ManagerAnswers(s: Settings, m: Memory, agent: string, policy: Policy, estimatedUSD: real,
                                          now: int)
    requires PolicyIs(s, m, agent, policy)
    ensures var d, spent := CheckedMemory(s, m, agent, estimatedUSD, now).decision, AgentSpent(m, agent, now);
            if !AgentLive(m, agent, now) then d == Decision(Kill, AgentKilled, false, policy.limitUSD, spent)
            else if GlobalStops(s, m, estimatedUSD, now) then
              d == Decision(Reject, OverGlobalBudget, true, s.globalLimitUSD, GlobalSpentAt(s, m, now))
            else if AgentRuns(s, m, agent, now) then
              d == Decision(Kill, AgentKilled, false, policy.limitUSD, spent)
            else
              && d.limitUSD == policy.limitUSD && d.spentUSD == spent
              && (d.over <==> policy.limitUSD > 0.0 && spent + Max(estimatedUSD, 0.0) > policy.limitUSD)
              && if d.over then AnswersOver(policy, d)
                 else AnswersWithin(policy, spent, spent + Max(estimatedUSD, 0.0), d)
  {
    var state := StateFor(s, m, agent, now);
    var refusal := GovernorLaws.RefusalAt(s, m, agent, estimatedUSD, now);
    CheckRefuses(s.addMonth, policy, s.runaway, state, refusal, estimatedUSD, now);
    RolledMeans(s.addMonth, policy, state.(lastSeenAt := now), now);
    if AgentLive(m, agent, now) && !GlobalStops(s, m, estimatedUSD, now) && !AgentRuns(s, m, agent, now) {
      CheckAnswers(s.addMonth, policy, s.runaway, state, estimatedUSD, now);
    }
  }

  /** A check moves no money and no policy, and only its own agent. */
  lemma {:induction false} ManagerLeaves(s: Settings, m: Memory, agent: string, policy: Policy, estimatedUSD: real,
                                         now: int)
    requires PolicyIs(s, m, agent, policy)
    ensures var after := CheckedMemory(s, m, agent, estimatedUSD, now).memory;
            && after.policies == m.policies
            && agent in after.states && after.states[agent].spentUSD == AgentSpent(m, agent, now)
            && PeriodIs(s, m, agent, policy, now, after.states[agent])
            && (forall a | a != agent :: (a in after.states <==> a in m.states)
                                         && (a in m.states ==> after.states[a] == m.states[a]))
            && after.global == (if AgentLive(m, agent, now) then GlobalAt(s, m, now) else m.global)
            && after.known == m.known + (if agent in m.states then {} else {agent})
  {
    var state := StateFor(s, m, agent, now);
    RolledMeans(s.addMonth, policy, state.(lastSeenAt := now), now);
  }

  /** Under a strict policy a check that forwards leaves spend and estimate within the cap. */
  lemma {:induction false} StrictChecks(s: Settings, m: Memory, agent: string, policy: Policy, cap: real,
                                        estimatedUSD: real, now: int)
    requires PolicyIs(s, m, agent, policy) && SpendLaws.Strict(policy, cap)
    ensures var c := CheckedMemory(s, m, agent, estimatedUSD, now);
            SpendLaws.Forwards(c.decision) ==>
              agent in c.memory.states && c.memory.states[agent].spentUSD + Max(estimatedUSD, 0.0) <= cap
  {
    ManagerAnswers(s, m, agent, policy, estimatedUSD, now);
    ManagerLeaves(s, m, agent, policy, estimatedUSD, now);
  }

  /** Under a downgrade policy a check that forwards past the limit says downgrade and over. */
  lemma {:induction false} DowngradeChecks(s: Settings, m: Memory, agent: string, policy: Policy, estimatedUSD: real,
                                           now: int)
    requires PolicyIs(s, m, agent, policy) && policy.actionOnExceed == OnExceedDowngrade
    requires policy.limitUSD > 0.0 && AgentSpent(m, agent, now) + Max(estimatedUSD, 0.0) > policy.limitUSD
    ensures var d := CheckedMemory(s, m, agent, estimatedUSD, now).decision;
            SpendLaws.Forwards(d) ==> d.action == Downgrade && d.over
  {
    ManagerAnswers(s, m, agent, policy, estimatedUSD, now);
  }

  /** Recording a cost, never a negative one, adds it to its agent's spend and to the
      cross-agent spend, and to no other. */
  lemma {:induction false} ManagerRecords(s: Settings, m: Memory, agent: string, policy: Policy, costUSD: real,
                                          now: int)
    requires PolicyIs(s, m, agent, policy)
    ensures var after := RecordedMemory(s, m, agent, costUSD, now);
            && after.policies == m.policies
            && agent in after.states
            && after.states[agent].spentUSD == AgentSpent(m, agent, now) + Max(costUSD, 0.0)
            && PeriodIs(s, m, agent, policy, now, after.states[agent]) && after.states[agent].dirty
            && (forall a | a != agent :: (a in after.states <==> a in m.states)
                                         && (a in m.states ==> after.states[a] == m.states[a]))
            && after.global == GlobalAt(s, m, now).(spentUSD := GlobalSpentAt(s, m, now) + Max(costUSD, 0.0))
            && after.known == m.known + (if agent in m.states then {} else {agent})
  {
    var state := StateFor(s, m, agent, now);
    RolledMeans(s.addMonth, policy, state.(lastSeenAt := now), now);
  }

  // ---------- what the operator does ----------

  ghost predicate OnlyTouches(before: Memory, after: Memory, agent: string) {
    && after.global == before.global
    && agent in after.states
    && (forall a | a != agent :: (a in after.states <==> a in before.states)
                                 && (a in before.states ==> after.states[a] == before.states[a]))
    && after.known == before.known + (if agent in before.states then {} else {agent})
  }

  /** The account is what it was; a new agent's is empty, over a period that starts now. */
  ghost predicate KeepsAccount(s: Settings, m: Memory, agent: string, policy: Policy, now: int, state: AgentState) {
    if agent in m.states then
      var before := m.states[agent];
      && state.spentUSD == before.spentUSD && state.requestTimes == before.requestTimes
      && state.triggeredAlerts == before.triggeredAlerts && state.lastAlertedPct == before.lastAlertedPct
      && state.periodStartedAt == before.periodStartedAt && state.periodResetsAt == before.periodResetsAt
    else
      && state.spentUSD == 0.0 && state.requestTimes == [] && state.triggeredAlerts == {}
      && state.periodStartedAt == now && state.periodResetsAt == NextPeriodReset(s.addMonth, now, policy.period)
  }

  /** Killing and enabling touch one agent's kill and nothing of its account, and mark it. */
  lemma {:induction false} KillAndEnable(s: Settings, m: Memory, rawAgent: string, agent: string, policy: Policy,
                                         now: int)
    requires agent == Tasks.NormalizeAgent(rawAgent) && PolicyIs(s, m, agent, policy)
    ensures var killed := GovernorLaws.Done(s, m, GovernorLaws.KillC(rawAgent, now));
            && killed.policies == m.policies && OnlyTouches(m, killed, agent)
            && var state := killed.states[agent];
               && state.killed && state.reason == ManualKill && state.dirty && state.lastSeenAt == now
               && KeepsAccount(s, m, agent, policy, now, state)
    ensures var enabled := GovernorLaws.Done(s, m, GovernorLaws.EnableC(rawAgent, now));
            && enabled.policies == m.policies && OnlyTouches(m, enabled, agent)
            && var state := enabled.states[agent];
               && !state.killed && state.reason == NoReason && state.dirty && state.lastSeenAt == now
               && KeepsAccount(s, m, agent, policy, now, state)
  {
  }

  /** A reset empties one agent's account and starts a period of its policy's length now; it lifts
      a budget kill only. */
  lemma {:induction false} ResetEmpties(s: Settings, m: Memory, rawAgent: string, agent: string, policy: Policy,
                                        now: int)
    requires agent == Tasks.NormalizeAgent(rawAgent) && PolicyIs(s, m, agent, policy)
    ensures var after := GovernorLaws.Done(s, m, GovernorLaws.ResetC(rawAgent, now));
            && after.policies == m.policies && OnlyTouches(m, after, agent)
            && var state := after.states[agent];
               && state.spentUSD == 0.0 && state.requestTimes == [] && state.triggeredAlerts == {}
               && state.lastAlertedPct == 0.0 && state.dirty && state.lastSeenAt == now
               && state.periodStartedAt == now
               && state.periodResetsAt == NextPeriodReset(s.addMonth, now, policy.period)
               && (state.killed <==>
                     agent in m.states && m.states[agent].killed && m.states[agent].reason != BudgetExceeded)
  {
  }

  /** A policy change is refused for a negative limit or a percentage outside 0 to 100; otherwise it
      sets the policy, and the account is as any look at the period leaves it. */
  lemma {:induction false} UpdateSets(s: Settings, m: Memory, rawAgent: string, agent: string, policy: Policy, now: int)
    requires agent == Tasks.NormalizeAgent(rawAgent)
    ensures var after := GovernorLaws.Done(s, m, GovernorLaws.UpdateC(rawAgent, policy, now));
            if policy.limitUSD < 0.0 || policy.downgradeThresholdPct < 0.0 || policy.downgradeThresholdPct > 100.0 then
              after == m
            else
              && after.policies == m.policies[agent := policy] && OnlyTouches(m, after, agent)
              && var state := after.states[agent];
                 && state.spentUSD == AgentSpent(m, agent, now) && state.dirty && state.lastSeenAt == now
                 && (state.killed <==> !AgentLive(m, agent, now))
                 && state.triggeredAlerts == (if agent in m.states then FiredAt(m.states[agent], now) else {})
                 && state.requestTimes == (if agent in m.states then TimesAt(m.states[agent], now) else [])
                 && PeriodIs(s, m, agent, policy, now, state)
  {
    var updated := m.(policies := m.policies[agent := policy]);
    RolledMeans(s.addMonth, policy, StateFor(s, updated, agent, now), now);
  }
}
