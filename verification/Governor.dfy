/**
 The budget manager: every agent's budget under one lock, the cross-agent budget
 and the calls the proxy and the operator make (internal/budget/manager.go).
 */
module Governor {
  import opened Dollars
  import opened Text
  import opened Agents
  import Tasks

  datatype Settings = Settings(
    defaultPolicy: Policy,
    runaway: Runaway,
    globalLimitUSD: real,
    globalPeriod: Period,
    addMonth: Calendar)

  datatype GlobalState = GlobalState(spentUSD: real, periodStartsAt: int, periodResetsAt: int)

  /** The manager's memory about agents. */
  datatype Memory = Memory(
    policies: map<string, Policy>,
    states: map<string, AgentState>,
    known: set<string>,
    global: GlobalState)

  function PolicyFor(set_: Settings, m: Memory, agent: string): Policy {
    if agent in m.policies then m.policies[agent] else set_.defaultPolicy
  }

  function StateFor(set_: Settings, m: Memory, agent: string, now: int): AgentState {
    if agent in m.states then m.states[agent] else NewState(set_.addMonth, PolicyFor(set_, m, agent), now)
  }

  /** The memory with one agent's state replaced; an agent seen first becomes known. */
  function WithState(m: Memory, agent: string, state: AgentState): Memory {
    m.(states := m.states[agent := state], known := if agent in m.states then m.known else m.known + {agent})
  }

  function GlobalRolled(set_: Settings, g: GlobalState, now: int): GlobalState {
    if set_.globalLimitUSD <= 0.0 || now < g.periodResetsAt then g
    else GlobalState(0.0, now, NextPeriodReset(set_.addMonth, now, set_.globalPeriod))
  }

  function GlobalRefusal(set_: Settings, g: GlobalState, estimatedUSD: real): Option<Decision> {
    if set_.globalLimitUSD > 0.0 && g.spentUSD + estimatedUSD > set_.globalLimitUSD
    then Some(Decision(Reject, OverGlobalBudget, true, set_.globalLimitUSD, g.spentUSD))
    else None
  }

  /** A policy an operator may set. */
  predicate Accepts(policy: Policy) {
    policy.limitUSD >= 0.0 && 0.0 <= policy.downgradeThresholdPct <= 100.0
  }

  datatype CheckResult = CheckResult(memory: Memory, decision: Decision, alerts: seq<AgentAlert>)

  /** A check as a whole: a killed agent is answered before the global period is looked at. */
  function CheckedMemory(set_: Settings, m: Memory, agent: string, estimatedUSD: real, now: int): CheckResult {
    var policy, state := PolicyFor(set_, m, agent), StateFor(set_, m, agent, now);
    var killed := RolledOver(set_.addMonth, policy, state.(lastSeenAt := now), now).killed;
    var global := if killed then m.global else GlobalRolled(set_, m.global, now);
    var checked := Check(set_.addMonth, policy, set_.runaway, state, GlobalRefusal(set_, global, estimatedUSD),
                         estimatedUSD, now);
    CheckResult(WithState(m, agent, checked.state).(global := global), checked.decision, checked.alerts)
  }

  function RecordedMemory(set_: Settings, m: Memory, agent: string, costUSD: real, now: int): Memory {
    var spend := Recorded(set_.addMonth, PolicyFor(set_, m, agent), StateFor(set_, m, agent, now), costUSD, now);
    var global := GlobalRolled(set_, m.global, now);
    WithState(m, agent, spend.state).(global := global.(spentUSD := global.spentUSD + NonNegative(costUSD)))
  }

  /** Storing a state over one stored in the same call leaves only the later one. */
  lemma {:induction false} StoredTwice(m: Memory, agent: string, first: AgentState, second: AgentState)
    ensures WithState(m, agent, first).states[agent := second] == WithState(m, agent, second).states
  {
  }

  lemma {:induction false} FireStep(thresholds: seq<real>, i: nat, before: real, after: real, fired: set<real>)
    requires i < |thresholds|
    ensures var t := thresholds[i];
            Fire(thresholds[i..], before, after, fired)
            == if Crossed(t, before, after) && t !in fired
               then [t] + Fire(thresholds[i + 1..], before, after, fired + {t})
               else Fire(thresholds[i + 1..], before, after, fired)
  {
    assert thresholds[i..][1..] == thresholds[i + 1..];
  }

  /** What is sent and what the rest of the list fires, one threshold further on. */
  lemma {:induction false} FireNext(thresholds: seq<real>, i: nat, before: real, after: real, fired: set<real>,
                                    sent: seq<real>)
    requires i < |thresholds|
    ensures var t := thresholds[i];
            sent + Fire(thresholds[i..], before, after, fired)
            == if Crossed(t, before, after) && t !in fired
               then (sent + [t]) + Fire(thresholds[i + 1..], before, after, fired + {t})
               else sent + Fire(thresholds[i + 1..], before, after, fired)
  {
    FireStep(thresholds, i, before, after, fired);
    var rest := Fire(thresholds[i + 1..], before, after, fired + {thresholds[i]});
    assert sent + ([thresholds[i]] + rest) == (sent + [thresholds[i]]) + rest;
  }

  lemma {:induction false} AlertedOnce(start: AgentState, alerts: seq<real>, threshold: real)
    ensures Alerted(start, alerts + [threshold])
            == Alerted(start, alerts).(
               triggeredAlerts := Alerted(start, alerts).triggeredAlerts + {threshold},
               lastAlertedPct := threshold)
  {
    assert Elements(alerts + [threshold]) == Elements(alerts) + {threshold};
  }

  class BudgetManager {
    const settings: Settings
    var agentPolicy: map<string, Policy>
    var state: map<string, AgentState>
    var knownAgents: set<string>
    var globalState: GlobalState

    ghost function Model(): Memory
      reads this
    {
      Memory(agentPolicy, state, knownAgents, globalState)
    }

    constructor (settings: Settings, memory: Memory)
      ensures this.settings == settings && Model() == memory
    {
      this.settings := settings;
      agentPolicy, state, knownAgents, globalState := memory.policies, memory.states, memory.known, memory.global;
    }

    method PolicyForAgentLocked(agent: string) returns (policy: Policy)
      ensures policy == PolicyFor(settings, Model(), agent)
    {
      if agent in agentPolicy {
        return agentPolicy[agent];
      }
      return settings.defaultPolicy;
    }

    method StateForAgentLocked(agent: string, policy: Policy, now: int) returns (current: AgentState, created: bool)
      requires policy == PolicyFor(settings, Model(), agent)
      modifies this`state, this`knownAgents
      ensures current == StateFor(settings, old(Model()), agent, now)
      ensures created == (agent !in old(state))
      ensures Model() == WithState(old(Model()), agent, current)
    {
      if agent in state {
        assert state == state[agent := state[agent]];
        return state[agent], false;
      }
      current := NewState(settings.addMonth, policy, now);
      state := state[agent := current];
      knownAgents := knownAgents + {agent};
      return current, true;
    }

    method MaybeResetGlobalPeriodLocked(now: int)
      modifies this`globalState
      ensures globalState == GlobalRolled(settings, old(globalState), now)
    {
      if settings.globalLimitUSD <= 0.0 {
        return;
      }
      if now < globalState.periodResetsAt {
        return;
      }
      globalState := GlobalState(0.0, now, NextPeriodReset(settings.addMonth, now, settings.globalPeriod));
    }

    /** The part of a check that concerns the agent's own budget. */
    method OwnBudgetDecision(policy: Policy, start: AgentState, rawEstimateUSD: real)
      returns (current: AgentState, decision: Decision, alerts: seq<AgentAlert>)
      ensures Checked(current, decision, alerts) == CheckBudget(policy, start, rawEstimateUSD)
    {
      current, alerts := start, [];
      var estimatedUSD := NonNegative(rawEstimateUSD);
      var projectedSpend := current.spentUSD + estimatedUSD;
      if policy.limitUSD > 0.0 && projectedSpend > policy.limitUSD {
        var action := OverLimitAction(policy);
        decision := Decision(action, OverBudget, true, policy.limitUSD, current.spentUSD);
        alerts := [ExceededAlert(projectedSpend, action)];
        if action == Kill {
          current := current.(killed := true, reason := BudgetExceeded, dirty := true);
          decision := decision.(code := AgentKilled);
          alerts := alerts + [KilledAlert(BudgetExceeded)];
        }
        return;
      }
      if ShouldDowngrade(policy, projectedSpend) {
        decision := Decision(Downgrade, NoCode, false, policy.limitUSD, current.spentUSD);
        return;
      }
      var alerting := ShouldAlertThreshold(policy, current.spentUSD, projectedSpend);
      decision := Decision(if alerting then Alert else Allow, NoCode, false, policy.limitUSD, current.spentUSD);
    }

    method ShouldAlertThreshold(policy: Policy, currentSpend: real, projectedSpend: real) returns (alerting: bool)
      ensures alerting == ShouldAlert(policy, currentSpend, projectedSpend)
    {
      if policy.limitUSD <= 0.0 || |policy.alertThresholdsPct| == 0 {
        return false;
      }
      var before := PercentageUsed(policy.limitUSD, currentSpend);
      var after := PercentageUsed(policy.limitUSD, projectedSpend);
      for i := 0 to |policy.alertThresholdsPct|
        invariant forall k | 0 <= k < i :: !Crossed(policy.alertThresholdsPct[k], before, after)
      {
        var threshold := policy.alertThresholdsPct[i];
        if threshold > before && threshold <= after {
          assert Crossed(threshold, before, after);
          return true;
        }
      }
      return false;
    }

    /** Registers the request and decides it against the window and the agent's own budget. */
    method LiveDecision(policy: Policy, start: AgentState, estimatedUSD: real, now: int)
      returns (current: AgentState, decision: Decision, alerts: seq<AgentAlert>)
      ensures Checked(current, decision, alerts) == CheckLive(policy, settings.runaway, start, estimatedUSD, now)
    {
      current := start;
      if Watches(settings.runaway) {
        var times := Register(settings.runaway.windowSeconds * SECOND, current.requestTimes, now);
        current := current.(requestTimes := times);
        if |times| > settings.runaway.maxRequests {
          current := current.(killed := true, reason := RunawayDetected, dirty := true);
          alerts := [RunawayAlert(|times|), KilledAlert(RunawayDetected)];
          decision := Decision(Kill, AgentKilled, false, policy.limitUSD, current.spentUSD);
          return;
        }
      }
      current, decision, alerts := OwnBudgetDecision(policy, current, estimatedUSD);
    }

    /** The agent's policy and its state with the request's time noted and its period rolled. */
    method AgentLocked(agent: string, now: int) returns (policy: Policy, current: AgentState, created: bool)
      modifies this`state, this`knownAgents
      ensures policy == PolicyFor(settings, old(Model()), agent)
      ensures current
              == RolledOver(settings.addMonth, policy, StateFor(settings, old(Model()), agent, now).(lastSeenAt := now),
                            now)
      ensures Model() == WithState(old(Model()), agent, current)
      ensures created == (agent !in old(state))
    {
      policy := PolicyForAgentLocked(agent);
      current, created := StateForAgentLocked(agent, policy, now);
      StoredTwice(old(Model()), agent, current,
                  RolledOver(settings.addMonth, policy, current.(lastSeenAt := now), now));
      current := RolledOver(settings.addMonth, policy, current.(lastSeenAt := now), now);
      state := state[agent := current];
    }

    method CheckLocked(agent: string, estimatedUSD: real, now: int)
      returns (decision: Decision, alerts: seq<AgentAlert>, created: bool)
      modifies this
      ensures CheckResult(Model(), decision, alerts) == CheckedMemory(settings, old(Model()), agent, estimatedUSD, now)
      ensures created == (agent !in old(state))
    {
      alerts := [];
      var policy, current;
      policy, current, created := AgentLocked(agent, now);
      if current.killed {
        decision := Decision(Kill, AgentKilled, false, policy.limitUSD, current.spentUSD);
        return;
      }
      MaybeResetGlobalPeriodLocked(now);
      if settings.globalLimitUSD > 0.0 && globalState.spentUSD + estimatedUSD > settings.globalLimitUSD {
        decision := Decision(Reject, OverGlobalBudget, true, settings.globalLimitUSD, globalState.spentUSD);
        return;
      }
      ghost var rolled := current;
      current, decision, alerts := LiveDecision(policy, current, estimatedUSD, now);
      StoredTwice(old(Model()), agent, rolled, current);
      state := state[agent := current];
    }

    /** Decides one request; `created` asks the caller to flush the new agent. */
    method CheckBudgetDetailed(rawAgent: string, estimatedUSD: real, now: int)
      returns (decision: Decision, alerts: seq<AgentAlert>, created: bool)
      modifies this
      ensures CheckResult(Model(), decision, alerts)
           == CheckedMemory(settings, old(Model()), Tasks.NormalizeAgent(rawAgent), estimatedUSD, now)
      ensures created == (Tasks.NormalizeAgent(rawAgent) !in old(state))
    {
      decision, alerts, created := CheckLocked(Tasks.NormalizeAgent(rawAgent), estimatedUSD, now);
    }

    /** Walks the thresholds in list order and marks each one the spend passed. */
    method FireThresholds(policy: Policy, start: AgentState, before: real, after: real)
      returns (current: AgentState, alerts: seq<real>)
      ensures alerts == Fire(policy.alertThresholdsPct, before, after, start.triggeredAlerts)
      ensures current == Alerted(start, alerts)
    {
      current, alerts := start, [];
      for i := 0 to |policy.alertThresholdsPct|
        invariant current == Alerted(start, alerts)
        invariant alerts + Fire(policy.alertThresholdsPct[i..], before, after, current.triggeredAlerts)
               == Fire(policy.alertThresholdsPct, before, after, start.triggeredAlerts)
      {
        var threshold := policy.alertThresholdsPct[i];
        FireNext(policy.alertThresholdsPct, i, before, after, current.triggeredAlerts, alerts);
        AlertedOnce(start, alerts, threshold);
        if threshold <= before || threshold > after {
          continue;
        }
        if threshold in current.triggeredAlerts {
          continue;
        }
        current := current.(triggeredAlerts := current.triggeredAlerts + {threshold}, lastAlertedPct := threshold);
        alerts := alerts + [threshold];
      }
    }

    method RecordLocked(agent: string, costUSD: real, now: int) returns (alerts: seq<real>)
      requires costUSD >= 0.0
      modifies this
      ensures Model() == RecordedMemory(settings, old(Model()), agent, costUSD, now)
      ensures alerts == Recorded(settings.addMonth, PolicyFor(settings, old(Model()), agent),
                                 StateFor(settings, old(Model()), agent, now), costUSD, now).alerts
    {
      var policy, current, _ := AgentLocked(agent, now);
      ghost var rolled := current;
      MaybeResetGlobalPeriodLocked(now);
      globalState := globalState.(spentUSD := globalState.spentUSD + costUSD);

      var before := PercentageUsed(policy.limitUSD, current.spentUSD);
      current := current.(spentUSD := current.spentUSD + costUSD, dirty := true);
      var after := PercentageUsed(policy.limitUSD, current.spentUSD);
      current, alerts := FireThresholds(policy, current, before, after);
      StoredTwice(old(Model()), agent, rolled, current);
      state := state[agent := current];
    }

    /** Adds one cost to the agent and to the cross-agent total, and reports the thresholds it passed. */
    method RecordSpend(rawAgent: string, rawCostUSD: real, now: int) returns (alerts: seq<real>)
      modifies this
      ensures Model() == RecordedMemory(settings, old(Model()), Tasks.NormalizeAgent(rawAgent), rawCostUSD, now)
      ensures alerts == Recorded(settings.addMonth, PolicyFor(settings, old(Model()), Tasks.NormalizeAgent(rawAgent)),
                                 StateFor(settings, old(Model()), Tasks.NormalizeAgent(rawAgent),
                                          now), rawCostUSD, now).alerts
    {
      alerts := RecordLocked(Tasks.NormalizeAgent(rawAgent), NonNegative(rawCostUSD), now);
    }

    method KillAgent(rawAgent: string, now: int)
      modifies this
      ensures var agent := Tasks.NormalizeAgent(rawAgent);
              Model() == WithState(old(Model()), agent, Killed(StateFor(settings, old(Model()), agent, now), now))
    {
      var agent := Tasks.NormalizeAgent(rawAgent);
      var policy := PolicyForAgentLocked(agent);
      var current, _ := StateForAgentLocked(agent, policy, now);
      state := state[agent := current.(killed := true, reason := ManualKill, lastSeenAt := now, dirty := true)];
    }

    method EnableAgent(rawAgent: string, now: int)
      modifies this
      ensures var agent := Tasks.NormalizeAgent(rawAgent);
              Model() == WithState(old(Model()), agent, Enabled(StateFor(settings, old(Model()), agent, now), now))
    {
      var agent := Tasks.NormalizeAgent(rawAgent);
      var policy := PolicyForAgentLocked(agent);
      var current, _ := StateForAgentLocked(agent, policy, now);
      state := state[agent := current.(killed := false, reason := NoReason, lastSeenAt := now, dirty := true)];
    }

    method ResetBudget(rawAgent: string, now: int)
      modifies this
      ensures var agent := Tasks.NormalizeAgent(rawAgent);
              Model() == WithState(old(Model()), agent,
                                   BudgetReset(settings.addMonth, PolicyFor(settings, old(Model()), agent),
                                               StateFor(settings, old(Model()), agent, now), now))
    {
      var agent := Tasks.NormalizeAgent(rawAgent);
      var policy := PolicyForAgentLocked(agent);
      var current, _ := StateForAgentLocked(agent, policy, now);
      current := current.(
        spentUSD := 0.0,
        lastAlertedPct := 0.0,
        periodStartedAt := now,
        periodResetsAt := NextPeriodReset(settings.addMonth, now, policy.period),
        triggeredAlerts := {},
        requestTimes := []);
      if current.reason == BudgetExceeded || LegacyBudgetKill(policy, current) {
        current := current.(killed := false, reason := NoReason);
      }
      state := state[agent := current.(lastSeenAt := now, dirty := true)];
    }

    /** Replaces the policy; a negative limit or a percentage outside 0 to 100 is refused. */
    method UpdateBudget(rawAgent: string, policy: Policy, now: int) returns (ok: bool)
      modifies this
      ensures ok == Accepts(policy)
      ensures !ok ==> Model() == old(Model())
      ensures ok ==>
                var agent := Tasks.NormalizeAgent(rawAgent);
                var updated := old(Model()).(policies := old(agentPolicy)[agent := policy]);
                Model() == WithState(updated, agent,
                                     PolicyUpdated(settings.addMonth, policy, StateFor(settings, updated, agent, now),
                                                   now))
    {
      if policy.limitUSD < 0.0 {
        return false;
      }
      if policy.downgradeThresholdPct < 0.0 || policy.downgradeThresholdPct > 100.0 {
        return false;
      }
      var agent := Tasks.NormalizeAgent(rawAgent);
      agentPolicy := agentPolicy[agent := policy];
      var current, _ := StateForAgentLocked(agent, policy, now);
      current := RolledOver(settings.addMonth, policy, current, now);
      state := state[agent := current.(lastSeenAt := now, dirty := true)];
      return true;
    }
  }
}
