/**
 What one agent's budget keeps over whole runs: which alerts fire, which kills
 last, and what the runaway window counts.
 */
module AgentLaws {
  import opened Dollars
  import opened Text
  import opened Agents

  // ---------- thresholds fire once each, however spend is split ----------

  ghost predicate NoRepeats(s: seq<real>) {
    forall i, j | 0 <= i < j < |s| :: s[i] != s[j]
  }

  lemma {:induction false} FireExactly(thresholds: seq<real>, before: real, after: real, fired: set<real>)
    ensures var alerts := Fire(thresholds, before, after, fired);
            && NoRepeats(alerts)
            && forall t :: t in alerts <==> t in thresholds && Crossed(t, before, after) && t !in fired
  {
    if thresholds == [] {
    } else {
      var t := thresholds[0];
      FireExactly(thresholds[1..], before, after, fired + {t});
      FireExactly(thresholds[1..], before, after, fired);
      assert thresholds == [t] + thresholds[1..];
    }
  }

  lemma {:induction false} PercentageMonotone(limit: real, a: real, b: real)
    requires a <= b
    ensures PercentageUsed(limit, a) <= PercentageUsed(limit, b)
  {
    if limit > 0.0 && b > 0.0 {
      QuotientMonotone(limit, if a > 0.0 then a else 0.0, b);
    }
  }

  lemma {:induction false} QuotientMonotone(limit: real, a: real, b: real)
    requires limit > 0.0 && 0.0 <= a <= b
    ensures 0.0 <= a / limit <= b / limit
  {
    assert (b - a) / limit >= 0.0;
    assert b / limit - a / limit == (b - a) / limit;
  }

  /** Spend recorded within one period, one entry a call. */
  datatype Charge = Charge(costUSD: real, now: int)

  function RecordAll(addMonth: Calendar, policy: Policy, state: AgentState, charges: seq<Charge>): Spend
    decreases |charges|
  {
    if charges == [] then Spend(state, [])
    else
      var first := Recorded(addMonth, policy, state, charges[0].costUSD, charges[0].now);
      var rest := RecordAll(addMonth, policy, first.state, charges[1..]);
      Spend(rest.state, first.alerts + rest.alerts)
  }

  function Total(charges: seq<Charge>): (total: real)
    ensures total >= 0.0
  {
    if charges == [] then 0.0 else NonNegative(charges[0].costUSD) + Total(charges[1..])
  }

  ghost predicate WithinPeriod(state: AgentState, charges: seq<Charge>) {
    forall c | c in charges :: c.now < state.periodResetsAt
  }

  function Used(policy: Policy, state: AgentState): real {
    PercentageUsed(policy.limitUSD, state.spentUSD)
  }

  /** No threshold above the current percentage counts as fired. */
  ghost predicate FiredBelow(policy: Policy, state: AgentState) {
    forall t | t in policy.alertThresholdsPct && t in state.triggeredAlerts :: t <= Used(policy, state)
  }

  lemma {:induction false} RecordWithinPeriod(addMonth: Calendar, policy: Policy, state: AgentState, c: Charge)
    requires c.now < state.periodResetsAt
    ensures var s := Recorded(addMonth, policy, state, c.costUSD, c.now);
            && s.state.spentUSD == state.spentUSD + NonNegative(c.costUSD)
            && s.state.periodResetsAt == state.periodResetsAt
            && s.state.triggeredAlerts == state.triggeredAlerts + Elements(s.alerts)
            && NoRepeats(s.alerts)
            && Used(policy, state) <= Used(policy, s.state)
            && forall t :: t in s.alerts <==>
                 t in policy.alertThresholdsPct && Crossed(t, Used(policy, state), Used(policy, s.state))
                 && t !in state.triggeredAlerts
  {
    var spent := state.spentUSD + NonNegative(c.costUSD);
    FireExactly(policy.alertThresholdsPct, Used(policy, state), PercentageUsed(policy.limitUSD, spent),
                state.triggeredAlerts);
    PercentageMonotone(policy.limitUSD, state.spentUSD, spent);
  }

  /** In one period and under one policy, the alerts fired are exactly the
      unfired thresholds the spend passed, each once. */
  lemma {:induction false} AlertsOfPeriod(addMonth: Calendar, policy: Policy, state: AgentState, charges: seq<Charge>)
    requires WithinPeriod(state, charges)
    ensures var end := RecordAll(addMonth, policy, state, charges);
            && end.state.spentUSD == state.spentUSD + Total(charges)
            && end.state.triggeredAlerts == state.triggeredAlerts + Elements(end.alerts)
            && NoRepeats(end.alerts)
            && Used(policy, state) <= Used(policy, end.state)
            && forall t :: t in end.alerts <==>
                 t in policy.alertThresholdsPct && Crossed(t, Used(policy, state), Used(policy, end.state))
                 && t !in state.triggeredAlerts
    decreases |charges|
  {
    if charges == [] {
    } else {
      var c := charges[0];
      assert c in charges;
      RecordWithinPeriod(addMonth, policy, state, c);
      var first := Recorded(addMonth, policy, state, c.costUSD, c.now);
      assert forall x | x in charges[1..] :: x in charges;
      AlertsOfPeriod(addMonth, policy, first.state, charges[1..]);
      var rest := RecordAll(addMonth, policy, first.state, charges[1..]);
      forall i, j | 0 <= i < |first.alerts| && 0 <= j < |rest.alerts|
        ensures first.alerts[i] != rest.alerts[j]
      {
        assert first.alerts[i] in first.alerts && rest.alerts[j] in rest.alerts;
      }
      assert Elements(first.alerts + rest.alerts) == Elements(first.alerts) + Elements(rest.alerts);
    }
  }

  /** With no threshold fired ahead of the spend, which holds from a period's
      start and after loading, every threshold passed fires. */
  lemma {:induction false} EveryThresholdPassedFires(addMonth: Calendar, policy: Policy, state: AgentState,
                                                     charges: seq<Charge>)
    requires WithinPeriod(state, charges) && FiredBelow(policy, state)
    ensures var end := RecordAll(addMonth, policy, state, charges);
            && NoRepeats(end.alerts)
            && FiredBelow(policy, end.state)
            && forall t :: t in end.alerts <==>
                 t in policy.alertThresholdsPct && Used(policy, state) < t <= Used(policy, end.state)
  {
    AlertsOfPeriod(addMonth, policy, state, charges);
  }

  /** Two ways of splitting the same total fire the same alerts and leave the same totals. */
  lemma {:induction false} SplittingIrrelevant(addMonth: Calendar, policy: Policy, state: AgentState, a: seq<Charge>,
                                               b: seq<Charge>)
    requires WithinPeriod(state, a) && WithinPeriod(state, b) && Total(a) == Total(b)
    ensures var x, y := RecordAll(addMonth, policy, state, a), RecordAll(addMonth, policy, state, b);
            && Elements(x.alerts) == Elements(y.alerts)
            && |x.alerts| == |y.alerts|
            && x.state.spentUSD == y.state.spentUSD
            && x.state.triggeredAlerts == y.state.triggeredAlerts
  {
    AlertsOfPeriod(addMonth, policy, state, a);
    AlertsOfPeriod(addMonth, policy, state, b);
    var x, y := RecordAll(addMonth, policy, state, a), RecordAll(addMonth, policy, state, b);
    assert Used(policy, x.state) == Used(policy, y.state);
    assert forall t :: t in x.alerts <==> t in y.alerts;
    DistinctLength(x.alerts);
    DistinctLength(y.alerts);
  }

  lemma {:induction false} DistinctLength(s: seq<real>)
    requires NoRepeats(s)
    ensures |Elements(s)| == |s|
  {
    if s == [] {
    } else {
      DistinctLength(s[1..]);
      assert Elements(s) == {s[0]} + Elements(s[1..]);
    }
  }

  // ---------- restart ----------

  /** The store gives back the policy it was given: it has no field a default replaces. */
  predicate PolicySurvives(policy: Policy) {
    policy.period != UnsetPeriod && policy.actionOnExceed != UnsetAction && policy.downgradeThresholdPct != 0.0
    && policy.alertThresholdsPct != []
  }

  lemma {:induction false} PolicyRoundTrip(policy: Policy, state: AgentState)
    ensures LoadedPolicy(Stored(RowOf(policy, state))) == policy <==> PolicySurvives(policy)
  {
    assert [50.0, 80.0, 100.0] != [];
  }

  /** A row reads back with its policy as it was, but for empty fields: a day, an alert past the
      limit, a downgrade at 80 percent, alerts at 50, 80 and 100. */
  lemma {:induction false} StoreFillsIn(policy: Policy, state: AgentState)
    ensures var stored := LoadedPolicy(Stored(RowOf(policy, state)));
            && stored == StoredPolicy(policy) && stored.limitUSD == policy.limitUSD
            && stored.period == (if policy.period == UnsetPeriod then Daily else policy.period)
            && stored.actionOnExceed
               == (if policy.actionOnExceed == UnsetAction then OnExceedAlert else policy.actionOnExceed)
            && stored.downgradeThresholdPct
               == (if policy.downgradeThresholdPct == 0.0 then 80.0 else policy.downgradeThresholdPct)
            && stored.alertThresholdsPct
               == (if policy.alertThresholdsPct == [] then [50.0, 80.0, 100.0] else policy.alertThresholdsPct)
  {
  }

  datatype Agent = Agent(policy: Policy, state: AgentState)

  /** An agent after a flush and a start, with the policy the configuration declares for it. */
  function Restarted(addMonth: Calendar, configured: Option<Policy>, policy: Policy, state: AgentState,
                     now: int): Agent
  {
    var row := Seeded(addMonth, Stored(RowOf(policy, state)), configured, now);
    Agent(LoadedPolicy(row), LoadedState(addMonth, row, now))
  }

  function StartPolicy(configured: Option<Policy>, policy: Policy): Policy {
    StoredPolicy(if configured.Some? then configured.value else policy)
  }

  lemma {:induction false} RestartBasics(
      addMonth: Calendar, configured: Option<Policy>, policy: Policy, state: AgentState, now: int)
    requires state.periodResetsAt != ZERO_TIME
    ensures var started := Restarted(addMonth, configured, policy, state, now);
            && started.policy == StartPolicy(configured, policy)
            && started.state.spentUSD == state.spentUSD
            && started.state.periodResetsAt == state.periodResetsAt
            && (state.periodStartedAt != ZERO_TIME ==> started.state.periodStartedAt == state.periodStartedAt)
            && (state.lastSeenAt != ZERO_TIME ==> started.state.lastSeenAt == state.lastSeenAt)
            && started.state.requestTimes == [] && !started.state.dirty
            && started.state.triggeredAlerts
               == TriggeredAlerts(started.policy.alertThresholdsPct, started.policy.limitUSD, state.spentUSD)
  {
  }

  /** A start keeps an agent's policy exactly when it is undeclared and has no field a default
      replaces, or is the policy declared for it. */
  lemma {:induction false} RestartKeepsPolicy(
      addMonth: Calendar, configured: Option<Policy>, policy: Policy, state: AgentState, now: int)
    ensures Restarted(addMonth, configured, policy, state, now).policy == policy
            <==> if configured.Some? then StoredPolicy(configured.value) == policy else PolicySurvives(policy)
  {
    assert [50.0, 80.0, 100.0] != [];
  }

  /** The two agents fire the same alerts for these charges. */
  ghost predicate SameAlerts(addMonth: Calendar, x: Agent, y: Agent, charges: seq<Charge>) {
    forall t :: t in RecordAll(addMonth, x.policy, x.state, charges).alerts
                <==> t in RecordAll(addMonth, y.policy, y.state, charges).alerts
  }

  /** The thresholds that further spend in the period will fire. */
  ghost function Pending(a: Agent): set<real> {
    if a.policy.limitUSD <= 0.0 then {}
    else set t | t in a.policy.alertThresholdsPct && t !in a.state.triggeredAlerts && t > Used(a.policy, a.state)
  }

  /** Charges fire exactly the pending thresholds their total reaches. */
  lemma {:induction false} AlertsByTotal(addMonth: Calendar, a: Agent, charges: seq<Charge>, t: real)
    requires WithinPeriod(a.state, charges)
    ensures t in RecordAll(addMonth, a.policy, a.state, charges).alerts
            <==> t in Pending(a) && t <= PercentageUsed(a.policy.limitUSD, a.state.spentUSD + Total(charges))
  {
    AlertsOfPeriod(addMonth, a.policy, a.state, charges);
  }

  /** One charge that takes the spend to the dollar amount of a pending threshold. */
  lemma {:induction false} ChargeUpTo(a: Agent, t: real) returns (charges: seq<Charge>)
    requires a.state.spentUSD >= 0.0 && t in Pending(a)
    ensures WithinPeriod(a.state, charges)
    ensures a.state.spentUSD + Total(charges) == t * a.policy.limitUSD / 100.0
    ensures PercentageUsed(a.policy.limitUSD, a.state.spentUSD + Total(charges)) == t
  {
    PercentageNonNegative(a.policy.limitUSD, a.state.spentUSD);
    ReachThreshold(a.policy, a.state, t);
    charges := [Charge(t * a.policy.limitUSD / 100.0 - a.state.spentUSD, a.state.periodResetsAt - 1)];
    assert charges[1..] == [];
  }

  /** A threshold pending for one agent only is fired by that one only. */
  lemma {:induction false} OnePendingDiffers(addMonth: Calendar, x: Agent, y: Agent, t: real)
    returns (charges: seq<Charge>)
    requires x.state.spentUSD >= 0.0 && t in Pending(x) && t !in Pending(y)
    requires x.state.periodResetsAt == y.state.periodResetsAt
    ensures WithinPeriod(x.state, charges) && !SameAlerts(addMonth, x, y, charges)
            && !SameAlerts(addMonth, y, x, charges)
  {
    charges := ChargeUpTo(x, t);
    DifferAt(addMonth, x, y, charges, t);
  }

  lemma {:induction false} PendingIsPositive(a: Agent, t: real)
    requires t in Pending(a)
    ensures t > 0.0 && a.policy.limitUSD > 0.0
  {
    PercentageNonNegative(a.policy.limitUSD, a.state.spentUSD);
  }

  /** The two agents treat one threshold differently for these charges. */
  lemma {:induction false} DifferAt(addMonth: Calendar, x: Agent, y: Agent, charges: seq<Charge>, t: real)
    requires WithinPeriod(x.state, charges) && WithinPeriod(y.state, charges)
    requires t in Pending(x) && t <= PercentageUsed(x.policy.limitUSD, x.state.spentUSD + Total(charges))
    requires t !in Pending(y) || t > PercentageUsed(y.policy.limitUSD, y.state.spentUSD + Total(charges))
    ensures !SameAlerts(addMonth, x, y, charges) && !SameAlerts(addMonth, y, x, charges)
  {
    AlertsByTotal(addMonth, x, charges, t);
    AlertsByTotal(addMonth, y, charges, t);
  }

  /** A threshold pending for both is fired first by the one with the lower limit. */
  lemma {:induction false} LowerLimitFiresFirst(addMonth: Calendar, x: Agent, y: Agent, t: real)
    returns (charges: seq<Charge>)
    requires x.state.spentUSD == y.state.spentUSD >= 0.0 && t in Pending(x) && t in Pending(y)
    requires x.state.periodResetsAt == y.state.periodResetsAt && x.policy.limitUSD < y.policy.limitUSD
    ensures WithinPeriod(x.state, charges) && !SameAlerts(addMonth, x, y, charges)
            && !SameAlerts(addMonth, y, x, charges)
  {
    charges := ChargeUpTo(x, t);
    PendingIsPositive(x, t);
    HigherLimitLags(x.policy.limitUSD, y.policy.limitUSD, t, y.state.spentUSD + Total(charges));
    DifferAt(addMonth, x, y, charges, t);
  }

  lemma {:induction false} HigherLimitLags(low: real, high: real, t: real, spent: real)
    requires 0.0 < low < high && t > 0.0 && spent == t * low / 100.0
    ensures PercentageUsed(high, spent) < t
  {
    assert t * low > 0.0;
    var q := spent / high;
    assert q * high == spent;
    if q * 100.0 >= t {
      assert q * 100.0 * high >= t * high;
      assert t * high > t * low;
    }
  }

  /** What decides whether two agents with one spend and one period will alert alike. */
  ghost predicate SamePending(x: Agent, y: Agent) {
    Pending(x) == Pending(y) && (Pending(x) == {} || x.policy.limitUSD == y.policy.limitUSD)
  }

  lemma {:induction false} AlikeExactly(addMonth: Calendar, x: Agent, y: Agent)
    requires x.state.spentUSD == y.state.spentUSD >= 0.0 && x.state.periodResetsAt == y.state.periodResetsAt
    ensures (forall charges | WithinPeriod(x.state, charges) :: SameAlerts(addMonth, x, y, charges))
            <==> SamePending(x, y)
  {
    if SamePending(x, y) {
      forall charges | WithinPeriod(x.state, charges) ensures SameAlerts(addMonth, x, y, charges) {
        forall t ensures t in RecordAll(addMonth, x.policy, x.state, charges).alerts
                         <==> t in RecordAll(addMonth, y.policy, y.state, charges).alerts {
          AlertsByTotal(addMonth, x, charges, t);
          AlertsByTotal(addMonth, y, charges, t);
        }
      }
    } else {
      var charges := FindDifference(addMonth, x, y);
      assert !SameAlerts(addMonth, x, y, charges);
    }
  }

  lemma {:induction false} FindDifference(addMonth: Calendar, x: Agent, y: Agent) returns (charges: seq<Charge>)
    requires x.state.spentUSD == y.state.spentUSD >= 0.0 && x.state.periodResetsAt == y.state.periodResetsAt
    requires !SamePending(x, y)
    ensures WithinPeriod(x.state, charges) && !SameAlerts(addMonth, x, y, charges)
  {
    if t :| t in Pending(x) && t !in Pending(y) {
      charges := OnePendingDiffers(addMonth, x, y, t);
    } else if t :| t in Pending(y) && t !in Pending(x) {
      charges := OnePendingDiffers(addMonth, y, x, t);
    } else {
      assert Pending(x) == Pending(y);
      var t :| t in Pending(x);
      if x.policy.limitUSD < y.policy.limitUSD {
        charges := LowerLimitFiresFirst(addMonth, x, y, t);
      } else {
        charges := LowerLimitFiresFirst(addMonth, y, x, t);
      }
    }
  }

  /** Flushed and started again, an agent fires the same alerts for the rest of its period,
      whatever is charged, exactly when the same thresholds are pending and, if there are
      any, against the same limit. */
  lemma {:induction false} RestartKeepsAlerts(
      addMonth: Calendar, configured: Option<Policy>, policy: Policy, state: AgentState, now: int)
    requires state.periodResetsAt != ZERO_TIME && state.spentUSD >= 0.0
    ensures var x, y := Agent(policy, state), Restarted(addMonth, configured, policy, state, now);
            (forall charges | WithinPeriod(state, charges) :: SameAlerts(addMonth, x, y, charges))
            <==> SamePending(x, y)
  {
    RestartBasics(addMonth, configured, policy, state, now);
    AlikeExactly(addMonth, Agent(policy, state), Restarted(addMonth, configured, policy, state, now));
  }

  /** For an agent whose policy the start keeps, that is so exactly when no threshold was
      fired ahead of its spend. */
  lemma {:induction false} KeptPolicyKeepsAlerts(
      addMonth: Calendar, configured: Option<Policy>, policy: Policy, state: AgentState, now: int)
    requires state.periodResetsAt != ZERO_TIME && state.spentUSD >= 0.0 && policy.limitUSD > 0.0
    requires Restarted(addMonth, configured, policy, state, now).policy == policy
    ensures var x, y := Agent(policy, state), Restarted(addMonth, configured, policy, state, now);
            (forall charges | WithinPeriod(state, charges) :: SameAlerts(addMonth, x, y, charges))
            <==> FiredBelow(policy, state)
  {
    var x, y := Agent(policy, state), Restarted(addMonth, configured, policy, state, now);
    RestartBasics(addMonth, configured, policy, state, now);
    RestartKeepsAlerts(addMonth, configured, policy, state, now);
    forall t ensures t in Pending(y) <==> t in policy.alertThresholdsPct && t > Used(policy, state) {
    }
    if t :| t in policy.alertThresholdsPct && t in state.triggeredAlerts && t > Used(policy, state) {
      assert t in Pending(y) && t !in Pending(x);
    } else {
      assert FiredBelow(policy, state) && Pending(x) == Pending(y);
    }
  }

  /** An agent declared with a limit of 10 runs under 100; a charge of 6 passes its 50%
      threshold only after the next start. */
  lemma {:induction false} DeclaredLimitAlerts(addMonth: Calendar, start: int)
    requires start > 0
    ensures var declared := Policy(10.0, 80.0, Hourly, OnExceedAlert, [50.0]);
            var running := declared.(limitUSD := 100.0);
            var state := NewState(addMonth, running, start);
            var charges := [Charge(6.0, start)];
            && FiredBelow(running, state) && WithinPeriod(state, charges)
            && 50.0 !in RecordAll(addMonth, running, state, charges).alerts
            && var again := Restarted(addMonth, Some(declared), running, state, start);
               50.0 in RecordAll(addMonth, again.policy, again.state, charges).alerts
  {
    var declared := Policy(10.0, 80.0, Hourly, OnExceedAlert, [50.0]);
    var running := declared.(limitUSD := 100.0);
    var state := NewState(addMonth, running, start);
    var charges := [Charge(6.0, start)];
    assert charges[1..] == [] && Total(charges) == 6.0;
    var x, y := Agent(running, state), Restarted(addMonth, Some(declared), running, state, start);
    RestartBasics(addMonth, Some(declared), running, state, start);
    AlertsByTotal(addMonth, x, charges, 50.0);
    AlertsByTotal(addMonth, y, charges, 50.0);
    assert 50.0 in y.policy.alertThresholdsPct;
    assert PercentageUsed(100.0, 6.0) == 6.0 && PercentageUsed(10.0, 6.0) == 60.0;
  }

  lemma {:induction false} PercentageNonNegative(limit: real, spent: real)
    ensures PercentageUsed(limit, spent) >= 0.0
  {
    if limit > 0.0 && spent > 0.0 {
      QuotientMonotone(limit, 0.0, spent);
    }
  }

  lemma {:induction false} ReachThreshold(policy: Policy, state: AgentState, t: real)
    requires policy.limitUSD > 0.0 && state.spentUSD >= 0.0 && t > Used(policy, state) >= 0.0
    ensures t * policy.limitUSD / 100.0 > state.spentUSD
    ensures PercentageUsed(policy.limitUSD, t * policy.limitUSD / 100.0) == t
  {
    var limit := policy.limitUSD;
    var target := t * limit / 100.0;
    assert t * limit > 0.0;
    ScaledQuotient(t, limit);
    if target <= state.spentUSD {
      PercentageMonotone(limit, target, state.spentUSD);
    }
  }

  lemma {:induction false} ScaledQuotient(t: real, limit: real)
    requires limit > 0.0
    ensures (t * limit / 100.0) / limit * 100.0 == t
  {
    var q := (t * limit / 100.0) / limit;
    assert q * limit == t * limit / 100.0;
    assert (q * 100.0) * limit == t * limit;
  }

  /** Raising the limit within a period leaves a fired threshold ahead of the spend. */
  lemma {:induction false} RaisedLimitCounterexample(addMonth: Calendar)
    ensures var low := Policy(10.0, 80.0, Daily, OnExceedAlert, [50.0]);
            var high := low.(limitUSD := 100.0);
            var spent := RecordAll(addMonth, low, NewState(addMonth, low, 1), [Charge(6.0, 2)]).state;
            FiredBelow(low, spent) && !FiredBelow(high, PolicyUpdated(addMonth, high, spent, 3))
  {
    var low := Policy(10.0, 80.0, Daily, OnExceedAlert, [50.0]);
    var start := NewState(addMonth, low, 1);
    var charges := [Charge(6.0, 2)];
    assert charges[1..] == [];
    EveryThresholdPassedFires(addMonth, low, start, charges);
    AlertsOfPeriod(addMonth, low, start, charges);
    var spent := RecordAll(addMonth, low, start, charges);
    assert Total(charges) == 6.0;
    assert Used(low, spent.state) == 60.0;
    assert 50.0 in low.alertThresholdsPct;
    assert 50.0 in spent.alerts;
  }

  // ---------- kills ----------

  datatype Event =
    | CheckE(globalRefusal: Option<Decision>, estimatedUSD: real, now: int)
    | RecordE(costUSD: real, now: int)
    | KillE(now: int)
    | EnableE(now: int)
    | ResetE(now: int)
    | UpdateE(policy: Policy, now: int)
    | ViewE(now: int)
    | RestartE(configured: Option<Policy>, now: int)

  /** One call on the agent. `ViewE` is any read that rolls the period over, and
      `RestartE` a flush followed by a start, which declares a policy for the agent or not. */
  function Step(addMonth: Calendar, runaway: Runaway, a: Agent, e: Event): Agent {
    match e
    case CheckE(refusal, estimate, now) =>
      a.(state := Check(addMonth, a.policy, runaway, a.state, refusal, estimate, now).state)
    case RecordE(cost, now) => a.(state := Recorded(addMonth, a.policy, a.state, cost, now).state)
    case KillE(now) => a.(state := Killed(a.state, now))
    case EnableE(now) => a.(state := Enabled(a.state, now))
    case ResetE(now) => a.(state := BudgetReset(addMonth, a.policy, a.state, now))
    case UpdateE(policy, now) => Agent(policy, PolicyUpdated(addMonth, policy, a.state, now))
    case ViewE(now) => a.(state := RolledOver(addMonth, a.policy, a.state, now))
    case RestartE(configured, now) =>
      Restarted(addMonth, configured, a.policy, RolledOver(addMonth, a.policy, a.state, now), now)
  }

  function Run(addMonth: Calendar, runaway: Runaway, a: Agent, events: seq<Event>): Agent
    decreases |events|
  {
    if events == [] then a else Run(addMonth, runaway, Step(addMonth, runaway, a, events[0]), events[1..])
  }

  predicate Latched(state: AgentState) {
    state.killed && (state.reason == ManualKill || state.reason == RunawayDetected)
  }

  /** Killed exactly when a reason is recorded. */
  predicate Reasoned(state: AgentState) {
    state.killed <==> state.reason != NoReason
  }

  /** Clearing the spend first means no kill without a reason is ever taken for a budget kill. */
  lemma {:induction false} LegacyKillNeverClears(addMonth: Calendar, policy: Policy, state: AgentState, now: int)
    requires state.killed && state.reason == NoReason
    ensures PeriodRestarted(addMonth, policy, state, now).killed
    ensures BudgetReset(addMonth, policy, state, now).killed
    ensures RolledOver(addMonth, policy, state, now).killed
  {
  }

  /** A word of plain lower-case letters is read as itself. */
  predicate PlainWord(s: string) {
    forall i | 0 <= i < |s| :: 'a' <= s[i] <= 'z' || s[i] == '_'
  }

  lemma {:induction false} LowerPlain(s: string)
    requires PlainWord(s)
    ensures LowerStatus(s) == s
  {
    if s == "" {
    } else {
      LowerPlain(s[1..]);
      assert s == [s[0]] + s[1..];
    }
  }

  lemma {:induction false} PlainStatus(s: string)
    requires PlainWord(s)
    ensures NormalStatus(s) == s
  {
    LowerPlain(s);
    TrimPlain(s);
  }

  lemma PersistedStatusIsPlain(state: AgentState)
    ensures PlainWord(PersistedStatus(state))
    ensures PersistedStatus(state) != ""
  {
  }

  /** The status written for a state reads back as its kill and its reason. */
  lemma {:induction false} StatusReads(state: AgentState, limitUSD: real, spentUSD: real, actionOnExceed: ExceedAction)
    ensures Disabled(PersistedStatus(state)) == state.killed
    ensures var reason := DisableReason(PersistedStatus(state), limitUSD, spentUSD, actionOnExceed);
            && (state.killed <==> reason != NoReason)
            && (state.killed && state.reason != NoReason ==> reason == state.reason)
  {
    if !state.killed {
    } else if state.reason == NoReason {
    } else {
      assert PersistedStatus(state) == ReasonName(state.reason);
    }
  }

  /** A flush and reload keep both the kill and its reason; a kill without a reason gains one. */
  lemma {:induction false} RestartKeepsKill(
      addMonth: Calendar, configured: Option<Policy>, policy: Policy, state: AgentState, now: int)
    ensures var loaded := Restarted(addMonth, configured, policy, state, now).state;
            && Reasoned(loaded)
            && loaded.killed == state.killed
            && (state.killed && state.reason != NoReason ==> loaded.reason == state.reason)
  {
    var row := Seeded(addMonth, Stored(RowOf(policy, state)), configured, now);
    PersistedStatusIsPlain(state);
    PlainStatus(PersistedStatus(state));
    StatusReads(state, row.limitUSD, row.spentUSD, row.actionOnExceed);
  }

  lemma {:induction false} RollKeepsLatch(addMonth: Calendar, policy: Policy, state: AgentState, now: int)
    requires Latched(state)
    ensures Latched(RolledOver(addMonth, policy, state, now)) && Latched(BudgetReset(addMonth, policy, state, now))
  {
  }

  lemma {:induction false} CheckKeepsLatch(addMonth: Calendar, policy: Policy, runaway: Runaway, state: AgentState,
                                           refusal: Option<Decision>, estimatedUSD: real, now: int)
    requires Latched(state)
    ensures var checked := Check(addMonth, policy, runaway, state, refusal, estimatedUSD, now);
            Latched(checked.state) && checked.decision.action == Kill
  {
    RollKeepsLatch(addMonth, policy, state.(lastSeenAt := now), now);
  }

  lemma {:induction false} RestartKeepsLatch(
      addMonth: Calendar, configured: Option<Policy>, policy: Policy, state: AgentState, now: int)
    requires Latched(state)
    ensures Latched(Restarted(addMonth, configured, policy, RolledOver(addMonth, policy, state, now), now).state)
  {
    RollKeepsLatch(addMonth, policy, state, now);
    RestartKeepsKill(addMonth, configured, policy, RolledOver(addMonth, policy, state, now), now);
  }

  lemma {:induction false} StepKeepsLatch(addMonth: Calendar, runaway: Runaway, a: Agent, e: Event)
    requires Latched(a.state) && !e.EnableE?
    ensures Latched(Step(addMonth, runaway, a, e).state)
    ensures e.CheckE? ==>
              Check(addMonth, a.policy, runaway, a.state, e.globalRefusal, e.estimatedUSD, e.now).decision.action
              == Kill
  {
    match e
    case CheckE(refusal, estimate, now) =>
      CheckKeepsLatch(addMonth, a.policy, runaway, a.state, refusal, estimate, now);
    case RecordE(_, now) => RollKeepsLatch(addMonth, a.policy, a.state.(lastSeenAt := now), now);
    case KillE(_) =>
    case ResetE(now) => RollKeepsLatch(addMonth, a.policy, a.state, now);
    case UpdateE(policy, now) => RollKeepsLatch(addMonth, policy, a.state, now);
    case ViewE(now) => RollKeepsLatch(addMonth, a.policy, a.state, now);
    case RestartE(configured, now) => RestartKeepsLatch(addMonth, configured, a.policy, a.state, now);
  }

  /** A manual or runaway kill survives every rollover, reset, policy change and
      flushed restart until the agent is enabled, and every check on the way answers kill. */
  lemma {:induction false} KillIsSticky(addMonth: Calendar, runaway: Runaway, a: Agent, events: seq<Event>)
    requires Latched(a.state)
    requires forall e | e in events :: !e.EnableE?
    ensures Latched(Run(addMonth, runaway, a, events).state)
    ensures forall i | 0 <= i < |events| && events[i].CheckE? ::
              var at := Run(addMonth, runaway, a, events[..i]);
              Check(addMonth, at.policy, runaway, at.state, events[i].globalRefusal, events[i].estimatedUSD,
                    events[i].now).decision.action == Kill
    decreases |events|
  {
    if events == [] {
    } else {
      StepKeepsLatch(addMonth, runaway, a, events[0]);
      var next := Step(addMonth, runaway, a, events[0]);
      KillIsSticky(addMonth, runaway, next, events[1..]);
      forall i | 0 <= i < |events| && events[i].CheckE?
        ensures var at := Run(addMonth, runaway, a, events[..i]);
                Check(addMonth, at.policy, runaway, at.state, events[i].globalRefusal, events[i].estimatedUSD,
                      events[i].now).decision.action == Kill
      {
        if i > 0 {
          assert events[..i][1..] == events[1..][..i - 1];
          assert events[i] == events[1..][i - 1];
        }
      }
    }
  }

  /** Killed exactly when a reason is set, in every state reached from one where it holds. */
  lemma {:induction false} RunStaysReasoned(addMonth: Calendar, runaway: Runaway, a: Agent, events: seq<Event>)
    requires Reasoned(a.state)
    ensures Reasoned(Run(addMonth, runaway, a, events).state)
    decreases |events|
  {
    if events == [] {
    } else {
      var e := events[0];
      if e.RestartE? {
        RestartKeepsKill(addMonth, e.configured, a.policy, RolledOver(addMonth, a.policy, a.state, e.now), e.now);
      }
      RunStaysReasoned(addMonth, runaway, Step(addMonth, runaway, a, e), events[1..]);
    }
  }

  /** A loaded row gives a reason for its kill exactly when its status is one of the known words. */
  lemma {:induction false} LoadedReasoned(addMonth: Calendar, row: AgentRow, now: int)
    ensures Reasoned(LoadedState(addMonth, row, now)) <==>
            NormalStatus(row.status) in {"", "active", "killed", "budget_exceeded", "manual_kill", "runaway_detected"}
  {
  }

  /** Statuses are compared without regard to case: ASCII letters are lowered one by one. */
  lemma {:induction false} StatusIgnoresCase(s: string)
    requires forall c | c in s :: c as int < 0x80
    ensures |LowerStatus(s)| == |s|
    ensures forall i | 0 <= i < |s| ::
              LowerStatus(s)[i] == if 'A' <= s[i] <= 'Z' then s[i] - 'A' + 'a' else s[i]
  {
    if s == "" {
    } else {
      assert s[0] in s && forall c | c in s[1..] :: c in s;
      assert At(s, 0) == s[0] as int;
      StatusIgnoresCase(s[1..]);
      assert LowerStatus(s)[0] == if 'A' <= s[0] <= 'Z' then s[0] - 'A' + 'a' else s[0];
      assert LowerStatus(s)[1..] == LowerStatus(s[1..]);
    }
  }

  /** The dotted capital I and the Kelvin sign, the two other letters that lower to ASCII, do too. */
  lemma {:induction false} OtherLettersLower(tail: string)
    ensures LowerStatus(Utf8(0x130) + tail) == "i" + LowerStatus(tail)
    ensures LowerStatus(Utf8(0x212A) + tail) == "k" + LowerStatus(tail)
  {
    var i, k := Utf8(0x130) + tail, Utf8(0x212A) + tail;
    assert At(i, 0) == 0xC4 && At(i, 1) == 0xB0 && i[2..] == tail;
    assert At(k, 0) == 0xE2 && At(k, 1) == 0x84 && At(k, 2) == 0xAA && k[3..] == tail;
  }

  /** A loaded kill ends with its period exactly when its status says the budget was exceeded, or
      says killed while a kill policy's positive limit is used up. */
  lemma {:induction false} LoadedKillEnds(addMonth: Calendar, row: AgentRow, now: int, later: int)
    requires later >= LoadedState(addMonth, row, now).periodResetsAt
    ensures var word, loaded := NormalStatus(row.status), LoadedState(addMonth, row, now);
            && (loaded.killed <==> word != "" && word != "active")
            && (loaded.killed && !RolledOver(addMonth, LoadedPolicy(row), loaded, later).killed
                <==> word == "budget_exceeded"
                     || (word == "killed" && row.actionOnExceed == OnExceedKill
                         && 0.0 < row.limitUSD <= row.spentUSD))
  {
  }

  predicate Quiet(e: Event, deadline: int) {
    !e.EnableE? && !e.ResetE? && e.now < deadline
  }

  lemma {:induction false} QuietStepKeepsKill(addMonth: Calendar, runaway: Runaway, a: Agent, e: Event)
    requires a.state.killed && a.state.reason != NoReason && a.state.periodResetsAt != ZERO_TIME
             && Quiet(e, a.state.periodResetsAt)
    ensures var b := Step(addMonth, runaway, a, e).state;
            b.killed && b.reason != NoReason && b.periodResetsAt == a.state.periodResetsAt
  {
    if e.RestartE? {
      RestartKeepsKill(addMonth, e.configured, a.policy, a.state, e.now);
    }
  }

  /** A budget kill lasts to the end of its period and no further. */
  lemma {:induction false} BudgetKillLastsThePeriod(addMonth: Calendar, runaway: Runaway, a: Agent, events: seq<Event>)
    requires a.state.killed && a.state.reason != NoReason && a.state.periodResetsAt != ZERO_TIME
    requires forall e | e in events :: Quiet(e, a.state.periodResetsAt)
    ensures var end := Run(addMonth, runaway, a, events).state;
            && end.killed && end.reason != NoReason && end.periodResetsAt == a.state.periodResetsAt
            && (forall now | end.reason == BudgetExceeded && now >= end.periodResetsAt ::
                  !RolledOver(addMonth, a.policy, end, now).killed)
            && (forall now | end.reason == BudgetExceeded :: !BudgetReset(addMonth, a.policy, end, now).killed)
    decreases |events|
  {
    if events == [] {
    } else {
      assert events[0] in events && forall x | x in events[1..] :: x in events;
      QuietStepKeepsKill(addMonth, runaway, a, events[0]);
      BudgetKillLastsThePeriod(addMonth, runaway, Step(addMonth, runaway, a, events[0]), events[1..]);
      EndedKill(addMonth, a.policy, Run(addMonth, runaway, a, events).state);
    }
  }

  lemma {:induction false} EndedKill(addMonth: Calendar, policy: Policy, state: AgentState)
    requires state.killed
    ensures forall now | state.reason == BudgetExceeded && now >= state.periodResetsAt ::
              !RolledOver(addMonth, policy, state, now).killed
    ensures forall now | state.reason == BudgetExceeded :: !BudgetReset(addMonth, policy, state, now).killed
  {
  }

  // ---------- alerts of whole runs ----------

  /** A call within the period that neither resets it nor changes the policy. */
  predicate Ordinary(e: Event, deadline: int) {
    (e.CheckE? || e.RecordE? || e.KillE? || e.EnableE? || e.ViewE?) && e.now < deadline
  }

  /** Every threshold alert of a run, in the order it is sent. */
  function AlertsOfRun(addMonth: Calendar, runaway: Runaway, a: Agent, events: seq<Event>): seq<real>
    decreases |events|
  {
    if events == [] then []
    else
      var e := events[0];
      (if e.RecordE? then Recorded(addMonth, a.policy, a.state, e.costUSD, e.now).alerts else [])
      + AlertsOfRun(addMonth, runaway, Step(addMonth, runaway, a, e), events[1..])
  }

  function ChargesOf(events: seq<Event>): seq<Charge> {
    if events == [] then []
    else (if events[0].RecordE? then [Charge(events[0].costUSD, events[0].now)] else []) + ChargesOf(events[1..])
  }

  /** The states agree on everything thresholds depend on. */
  predicate SameAccount(x: AgentState, y: AgentState) {
    x.spentUSD == y.spentUSD && x.triggeredAlerts == y.triggeredAlerts && x.periodResetsAt == y.periodResetsAt
  }

  lemma {:induction false} OrdinaryKeepsAccount(addMonth: Calendar, runaway: Runaway, a: Agent, e: Event)
    requires Ordinary(e, a.state.periodResetsAt) && !e.RecordE?
    ensures var b := Step(addMonth, runaway, a, e); SameAccount(b.state, a.state) && b.policy == a.policy
  {
  }

  lemma {:induction false} SameAccountRecords(addMonth: Calendar, policy: Policy, x: AgentState, y: AgentState,
                                              costUSD: real, now: int)
    requires SameAccount(x, y) && now < x.periodResetsAt
    ensures var s, t := Recorded(addMonth, policy, x, costUSD, now), Recorded(addMonth, policy, y, costUSD, now);
            s.alerts == t.alerts && SameAccount(s.state, t.state) && s.state.periodResetsAt == x.periodResetsAt
  {
  }

  /** Whatever else is called in between, a run sends the alerts of its charges alone. */
  lemma {:induction false} OnlyChargesAlert(addMonth: Calendar, runaway: Runaway, a: Agent, y: AgentState,
                                            events: seq<Event>)
    requires SameAccount(a.state, y) && forall e | e in events :: Ordinary(e, y.periodResetsAt)
    ensures var alone := RecordAll(addMonth, a.policy, y, ChargesOf(events));
            && AlertsOfRun(addMonth, runaway, a, events) == alone.alerts
            && SameAccount(Run(addMonth, runaway, a, events).state, alone.state)
    decreases |events|
  {
    if events == [] {
    } else {
      var e := events[0];
      assert e in events;
      var b := Step(addMonth, runaway, a, e);
      assert forall x | x in events[1..] :: x in events;
      if e.RecordE? {
        SameAccountRecords(addMonth, a.policy, a.state, y, e.costUSD, e.now);
        var next := Recorded(addMonth, a.policy, y, e.costUSD, e.now).state;
        OnlyChargesAlert(addMonth, runaway, b, next, events[1..]);
        var charges := ChargesOf(events);
        assert charges[1..] == ChargesOf(events[1..]);
      } else {
        OrdinaryKeepsAccount(addMonth, runaway, a, e);
        OnlyChargesAlert(addMonth, runaway, b, y, events[1..]);
        assert ChargesOf(events) == ChargesOf(events[1..]);
      }
    }
  }

  lemma {:induction false} ChargesInPeriod(events: seq<Event>, deadline: int)
    requires forall e | e in events :: Ordinary(e, deadline)
    ensures forall c | c in ChargesOf(events) :: c.now < deadline
  {
    if events == [] {
    } else {
      assert events[0] in events;
      assert forall x | x in events[1..] :: x in events;
      ChargesInPeriod(events[1..], deadline);
    }
  }

  /** Over any calls within one period and policy, each threshold the spend passed is
      alerted exactly once unless it had fired before, and no other threshold is. */
  lemma {:induction false} EachThresholdOnce(addMonth: Calendar, runaway: Runaway, a: Agent, events: seq<Event>)
    requires forall e | e in events :: Ordinary(e, a.state.periodResetsAt)
    ensures var alerts, end := AlertsOfRun(addMonth, runaway, a, events), Run(addMonth, runaway, a, events).state;
            && NoRepeats(alerts)
            && end.spentUSD == a.state.spentUSD + Total(ChargesOf(events))
            && forall t :: t in alerts <==>
                 t in a.policy.alertThresholdsPct && Crossed(t, Used(a.policy, a.state), Used(a.policy, end))
                 && t !in a.state.triggeredAlerts
  {
    OnlyChargesAlert(addMonth, runaway, a, a.state, events);
    ChargesInPeriod(events, a.state.periodResetsAt);
    AlertsOfPeriod(addMonth, a.policy, a.state, ChargesOf(events));
  }

  // ---------- the runaway window ----------

  function RegisterAll(width: int, times: seq<int>, history: seq<int>): seq<int>
    decreases |history|
  {
    if history == [] then times else RegisterAll(width, Register(width, times, history[0]), history[1..])
  }

  /** No request after the first was registered more than the width later. */
  ghost predicate NeverPruned(width: int, history: seq<int>)
    requires history != []
  {
    forall j | 0 < j < |history| :: history[0] >= history[j] - width
  }

  /** The registered times that every later registration left in the window. */
  ghost function Survivors(width: int, history: seq<int>): seq<int> {
    if history == [] then []
    else (if NeverPruned(width, history) then [history[0]] else []) + Survivors(width, history[1..])
  }

  lemma {:induction false} SinceConcat(a: seq<int>, b: seq<int>, start: int)
    ensures Since(a + b, start) == Since(a, start) + Since(b, start)
  {
    if a == [] {
      assert a + b == b;
    } else {
      assert (a + b)[1..] == a[1..] + b;
      SinceConcat(a[1..], b, start);
    }
  }

  lemma {:induction false} NeverPrunedSnoc(width: int, history: seq<int>, now: int)
    requires history != []
    ensures NeverPruned(width, history + [now]) <==> NeverPruned(width, history) && history[0] >= now - width
  {
    var all := history + [now];
    assert all[|all| - 1] == now;
    assert forall j | 0 < j < |history| :: all[j] == history[j];
  }

  lemma {:induction false} SurvivorsSnoc(width: int, history: seq<int>, now: int)
    requires width >= 0
    ensures Survivors(width, history + [now]) == Register(width, Survivors(width, history), now)
  {
    var all := history + [now];
    if history == [] {
      assert all[1..] == [];
    } else {
      assert all[1..] == history[1..] + [now];
      SurvivorsSnoc(width, history[1..], now);
      NeverPrunedSnoc(width, history, now);
      var head := if NeverPruned(width, history) then [history[0]] else [];
      SinceConcat(head, Survivors(width, history[1..]), now - width);
    }
  }

  lemma {:induction false} RegisterAllSnoc(width: int, times: seq<int>, history: seq<int>, now: int)
    ensures RegisterAll(width, times, history + [now]) == Register(width, RegisterAll(width, times, history), now)
    decreases |history|
  {
    if history == [] {
      assert (history + [now])[1..] == [];
    } else {
      assert (history + [now])[1..] == history[1..] + [now];
      RegisterAllSnoc(width, Register(width, times, history[0]), history[1..], now);
    }
  }

  /** Under any clock, even one that steps back, the pruned window is what all
      later registrations left of the full history. */
  lemma {:induction false} WindowIsSurvivors(width: int, history: seq<int>)
    requires width >= 0
    ensures RegisterAll(width, [], history) == Survivors(width, history)
    decreases |history|
  {
    if history == [] {
    } else {
      var init, now := history[..|history| - 1], history[|history| - 1];
      assert history == init + [now];
      WindowIsSurvivors(width, init);
      RegisterAllSnoc(width, [], init, now);
      SurvivorsSnoc(width, init, now);
    }
  }

  ghost predicate NonDecreasing(history: seq<int>) {
    forall i, j | 0 <= i < j < |history| :: history[i] <= history[j]
  }

  lemma {:induction false} SortedNeverPruned(width: int, history: seq<int>)
    requires width >= 0 && history != [] && NonDecreasing(history)
    ensures NeverPruned(width, history) <==> history[0] >= history[|history| - 1] - width
  {
  }

  lemma {:induction false} SortedSurvivors(width: int, history: seq<int>)
    requires width >= 0 && history != [] && NonDecreasing(history)
    ensures Survivors(width, history) == Since(history, history[|history| - 1] - width)
  {
    var rest, start := history[1..], history[|history| - 1] - width;
    SortedNeverPruned(width, history);
    assert Since(history, start) == (if history[0] >= start then [history[0]] else []) + Since(rest, start);
    if rest == [] {
    } else {
      assert NonDecreasing(rest) && rest[|rest| - 1] == history[|history| - 1];
      SortedSurvivors(width, rest);
    }
  }

  function CountSince(history: seq<int>, start: int): nat {
    if history == [] then 0 else (if history[0] >= start then 1 else 0) + CountSince(history[1..], start)
  }

  lemma {:induction false} SinceLength(history: seq<int>, start: int)
    ensures |Since(history, start)| == CountSince(history, start)
  {
    if history == [] {
    } else {
      SinceLength(history[1..], start);
    }
  }

  // ---------- detection over whole runs ----------

  /** The check is answered by the runaway window: the agent is live once its period has
      been looked at, and the cross-agent budget does not refuse. */
  predicate Registers(addMonth: Calendar, runaway: Runaway, a: Agent, e: Event) {
    && e.CheckE? && e.globalRefusal.None? && Watches(runaway)
    && !RolledOver(addMonth, a.policy, a.state, e.now).killed
  }

  /** The requests registered since the window was last cleared, after one more call. */
  function Remembered(addMonth: Calendar, runaway: Runaway, a: Agent, e: Event, history: seq<int>): seq<int> {
    match e
    case KillE(_) => history
    case EnableE(_) => history
    case ResetE(_) => []
    case RestartE(_, _) => []
    case _ =>
      var kept := if e.now < a.state.periodResetsAt then history else [];
      if Registers(addMonth, runaway, a, e) then kept + [e.now] else kept
  }

  function RegisteredBy(addMonth: Calendar, runaway: Runaway, a: Agent, events: seq<Event>, history: seq<int>): seq<int>
    decreases |events|
  {
    if events == [] then history
    else RegisteredBy(addMonth, runaway, Step(addMonth, runaway, a, events[0]), events[1..],
                      Remembered(addMonth, runaway, a, events[0], history))
  }

  function Width(runaway: Runaway): int {
    runaway.windowSeconds * SECOND
  }

  lemma {:induction false} CheckWindow(addMonth: Calendar, policy: Policy, runaway: Runaway, state: AgentState,
                                       refusal: Option<Decision>, estimatedUSD: real, now: int)
    ensures var rolled := RolledOver(addMonth, policy, state, now);
            Check(addMonth, policy, runaway, state, refusal, estimatedUSD, now).state.requestTimes
            == if !rolled.killed && refusal.None? && Watches(runaway)
               then Register(Width(runaway), rolled.requestTimes, now)
               else rolled.requestTimes
  {
  }

  lemma {:induction false} StepWindow(addMonth: Calendar, runaway: Runaway, a: Agent, e: Event, history: seq<int>)
    requires a.state.requestTimes == RegisterAll(Width(runaway), [], history)
    ensures Step(addMonth, runaway, a, e).state.requestTimes
            == RegisterAll(Width(runaway), [], Remembered(addMonth, runaway, a, e, history))
  {
    if e.CheckE? {
      CheckWindow(addMonth, a.policy, runaway, a.state, e.globalRefusal, e.estimatedUSD, e.now);
      RegisterAllSnoc(Width(runaway), [], if e.now < a.state.periodResetsAt then history else [], e.now);
    }
  }

  /** In every run the window is what pruning makes of the requests registered since it
      was last cleared by a rollover, a reset or a restart. */
  lemma {:induction false} WindowOfRun(addMonth: Calendar, runaway: Runaway, a: Agent, events: seq<Event>,
                                       history: seq<int>)
    requires a.state.requestTimes == RegisterAll(Width(runaway), [], history)
    ensures Run(addMonth, runaway, a, events).state.requestTimes
            == RegisterAll(Width(runaway), [], RegisteredBy(addMonth, runaway, a, events, history))
    decreases |events|
  {
    if events == [] {
    } else {
      StepWindow(addMonth, runaway, a, events[0], history);
      WindowOfRun(addMonth, runaway, Step(addMonth, runaway, a, events[0]), events[1..],
                  Remembered(addMonth, runaway, a, events[0], history));
    }
  }

  /** The clock does not step back over the calls, nor behind `start`, nor past `end`. */
  ghost predicate ClockForward(events: seq<Event>, start: int, end: int)
    decreases |events|
  {
    if events == [] then start <= end else start <= events[0].now && ClockForward(events[1..], events[0].now, end)
  }

  ghost predicate OrderedUpTo(history: seq<int>, now: int) {
    NonDecreasing(history) && forall t | t in history :: t <= now
  }

  lemma {:induction false} OrderedSnoc(history: seq<int>, was: int, now: int)
    requires OrderedUpTo(history, was) && was <= now
    ensures OrderedUpTo(history, now) && OrderedUpTo(history + [now], now)
  {
    assert forall i | 0 <= i < |history| :: history[i] in history;
  }

  lemma {:induction false} RegisteredInOrder(addMonth: Calendar, runaway: Runaway, a: Agent, events: seq<Event>,
                                             history: seq<int>, start: int, end: int)
    requires OrderedUpTo(history, start) && ClockForward(events, start, end)
    ensures OrderedUpTo(RegisteredBy(addMonth, runaway, a, events, history), end)
    decreases |events|
  {
    if events == [] {
    } else {
      var e := events[0];
      OrderedSnoc(history, start, e.now);
      OrderedSnoc([], start, e.now);
      RegisteredInOrder(addMonth, runaway, Step(addMonth, runaway, a, e), events[1..],
                        Remembered(addMonth, runaway, a, e, history), e.now, end);
    }
  }

  lemma {:induction false} LastRegistered(width: int, history: seq<int>, now: int)
    requires width >= 0 && OrderedUpTo(history, now)
    ensures |Register(width, RegisterAll(width, [], history), now)| == CountSince(history + [now], now - width)
  {
    var all := history + [now];
    OrderedSnoc(history, now, now);
    RegisterAllSnoc(width, [], history, now);
    WindowIsSurvivors(width, all);
    SortedSurvivors(width, all);
    SinceLength(all, now - width);
  }

  /** The check reported a runaway. */
  ghost predicate Detected(c: Checked) {
    exists n :: RunawayAlert(n) in c.alerts
  }

  lemma {:induction false} LiveDetection(addMonth: Calendar, policy: Policy, runaway: Runaway, state: AgentState,
                                         estimatedUSD: real, now: int)
    requires Watches(runaway) && !RolledOver(addMonth, policy, state, now).killed
    ensures var checked := Check(addMonth, policy, runaway, state, None, estimatedUSD, now);
            var times := Register(Width(runaway), RolledOver(addMonth, policy, state, now).requestTimes, now);
            && (Detected(checked) <==> |times| > runaway.maxRequests)
            && (Detected(checked) ==> Latched(checked.state))
            && (Detected(checked) <==> checked.decision.action == Kill && !checked.decision.over)
  {
    var checked := Check(addMonth, policy, runaway, state, None, estimatedUSD, now);
    var times := Register(Width(runaway), RolledOver(addMonth, policy, state, now).requestTimes, now);
    if |times| > runaway.maxRequests {
      assert checked.alerts[0] == RunawayAlert(|times|);
      assert RunawayAlert(|times|) in checked.alerts;
    }
  }

  /** What a check makes of the requests registered up to it. */
  ghost predicate DetectsExactly(addMonth: Calendar, runaway: Runaway, a: Agent, e: Event, history: seq<int>)
    requires e.CheckE?
  {
    var registered := Remembered(addMonth, runaway, a, e, history);
    var checked := Check(addMonth, a.policy, runaway, a.state, None, e.estimatedUSD, e.now);
    && registered != [] && registered[|registered| - 1] == e.now
    && (Detected(checked) <==> CountSince(registered, e.now - Width(runaway)) > runaway.maxRequests)
    && (Detected(checked) ==> Latched(checked.state))
    && (Detected(checked) <==> checked.decision.action == Kill && !checked.decision.over)
  }

  lemma {:induction false} DetectionAt(addMonth: Calendar, runaway: Runaway, a: Agent, e: Event, history: seq<int>)
    requires a.state.requestTimes == RegisterAll(Width(runaway), [], history) && OrderedUpTo(history, e.now)
    requires Registers(addMonth, runaway, a, e)
    ensures DetectsExactly(addMonth, runaway, a, e, history)
  {
    var kept := if e.now < a.state.periodResetsAt then history else [];
    assert RegisterAll(Width(runaway), [], []) == [];
    LastRegistered(Width(runaway), kept, e.now);
    LiveDetection(addMonth, a.policy, runaway, a.state, e.estimatedUSD, e.now);
  }

  /** After any run under a clock that does not step back, a check of a live agent that the
      cross-agent budget admits detects a runaway exactly when more than the allowed number
      of the requests registered since the window was last cleared, this one included, lie
      in the window that ends now. */
  lemma {:induction false} DetectionOverRuns(addMonth: Calendar, runaway: Runaway, a: Agent, events: seq<Event>,
                                             e: Event, start: int)
    requires a.state.requestTimes == [] && ClockForward(events, start, e.now)
    requires Registers(addMonth, runaway, Run(addMonth, runaway, a, events), e)
    ensures DetectsExactly(addMonth, runaway, Run(addMonth, runaway, a, events), e,
                           RegisteredBy(addMonth, runaway, a, events, []))
  {
    assert RegisterAll(Width(runaway), [], []) == [];
    WindowOfRun(addMonth, runaway, a, events, []);
    RegisteredInOrder(addMonth, runaway, a, events, [], start, e.now);
    DetectionAt(addMonth, runaway, Run(addMonth, runaway, a, events), e,
                RegisteredBy(addMonth, runaway, a, events, []));
  }

  // ---------- the window pruned in place ----------

  /** The request times as the program keeps them: a buffer filtered in place. */
  class RequestWindow {
    var buffer: array<int>
    var count: nat

    ghost predicate Valid()
      reads this
    {
      count <= buffer.Length
    }

    ghost function Times(): seq<int>
      reads this, buffer
      requires Valid()
    {
      buffer[..count]
    }

    constructor ()
      ensures Valid() && Times() == [] && fresh(buffer)
    {
      buffer := new int[0];
      count := 0;
    }

    /** Keeps the times at or after `start`, writing them over the front of the buffer. */
    method Prune(start: int)
      requires Valid()
      modifies this`count, buffer
      ensures Valid() && buffer == old(buffer)
      ensures Times() == Since(old(Times()), start)
    {
      var n, b := count, buffer;
      ghost var before := b[..n];
      var kept := 0;
      for i := 0 to n
        invariant count == n && buffer == b
        invariant kept <= i
        invariant forall k | i <= k < n :: b[k] == before[k]
        invariant b[..kept] + Since(before[i..], start) == Since(before, start)
      {
        var ts := b[i];
        assert before[i..][1..] == before[i + 1..];
        if ts >= start {
          ghost var front := b[..kept];
          b[kept] := ts;
          assert b[..kept + 1] == front + [ts];
          kept := kept + 1;
        }
      }
      count := kept;
    }

    method Append(now: int)
      requires Valid()
      modifies this
      modifies buffer
      ensures Valid() && (buffer == old(buffer) || fresh(buffer))
      ensures Times() == old(Times()) + [now]
    {
      ghost var before := Times();
      if count == buffer.Length {
        var grown := new int[2 * count + 1];
        forall i | 0 <= i < count {
          grown[i] := buffer[i];
        }
        buffer := grown;
        assert buffer[..count] == before;
      }
      buffer[count] := now;
      assert buffer[..count] == before;
      count := count + 1;
    }

    /** Registers one request and says whether the window now holds too many. */
    method RegisterRequest(runaway: Runaway, now: int) returns (detected: bool)
      requires Valid()
      modifies this
      modifies buffer
      ensures Valid() && (buffer == old(buffer) || fresh(buffer))
      ensures !Watches(runaway) ==> !detected && Times() == old(Times())
      ensures Watches(runaway) ==> Times() == Register(runaway.windowSeconds * SECOND, old(Times()), now)
      ensures Watches(runaway) ==> detected == (|Times()| > runaway.maxRequests)
    {
      if !runaway.enabled || runaway.maxRequests < 1 || runaway.windowSeconds < 1 {
        return false;
      }
      Prune(now - runaway.windowSeconds * SECOND);
      Append(now);
      return count > runaway.maxRequests;
    }
  }
}
