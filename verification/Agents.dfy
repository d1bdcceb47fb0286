/**
 One agent's period budget: spend, alert thresholds, the runaway window and the
 reasons it can be disabled for (internal/budget/manager.go).
 */
module Agents {
  import opened Dollars
  import opened Text

  const ZERO_TIME := 0
  const SECOND := 1_000_000_000
  const HOUR := 3600 * SECOND

  /** The configured words, the empty one, and any other. */
  datatype Period = Hourly | Daily | Weekly | Monthly | UnsetPeriod | OtherPeriod

  datatype ExceedAction = OnExceedReject | OnExceedDowngrade | OnExceedAlert | OnExceedKill | UnsetAction | OtherAction

  datatype Policy = Policy(
    limitUSD: real,
    downgradeThresholdPct: real,
    period: Period,
    actionOnExceed: ExceedAction,
    alertThresholdsPct: seq<real>)

  datatype Reason = NoReason | BudgetExceeded | ManualKill | RunawayDetected

  datatype AgentState = AgentState(
    spentUSD: real,
    lastAlertedPct: real,
    periodStartedAt: int,
    periodResetsAt: int,
    lastSeenAt: int,
    requestTimes: seq<int>,
    triggeredAlerts: set<real>,
    killed: bool,
    reason: Reason,
    dirty: bool)

  datatype Runaway = Runaway(enabled: bool, maxRequests: int, windowSeconds: int)

  /** The calendar's "one month later", which the model does not define. */
  type Calendar = int -> int

  // ---------- periods ----------

  function NextPeriodReset(addMonth: Calendar, start: int, period: Period): int {
    match period
    case Hourly => start + HOUR
    case Weekly => start + 7 * 24 * HOUR
    case Monthly => addMonth(start)
    case _ => start + 24 * HOUR
  }

  function NewState(addMonth: Calendar, policy: Policy, now: int): AgentState {
    AgentState(0.0, 0.0, now, NextPeriodReset(addMonth, now, policy.period), now, [], {}, false, NoReason, true)
  }

  predicate LegacyBudgetKill(policy: Policy, state: AgentState) {
    && state.killed
    && state.reason == NoReason
    && policy.actionOnExceed == OnExceedKill
    && policy.limitUSD > 0.0
    && state.spentUSD >= policy.limitUSD
  }

  /** The state with its period started again at `now`. The budget kill is judged
      after the spend is cleared, as the code orders it. */
  function PeriodRestarted(addMonth: Calendar, policy: Policy, state: AgentState, now: int): AgentState {
    var cleared := state.(
      spentUSD := 0.0,
      requestTimes := [],
      periodStartedAt := now,
      periodResetsAt := NextPeriodReset(addMonth, now, policy.period),
      triggeredAlerts := {},
      lastAlertedPct := 0.0,
      dirty := true);
    if cleared.reason == BudgetExceeded || LegacyBudgetKill(policy, cleared)
    then cleared.(killed := false, reason := NoReason)
    else cleared
  }

  function RolledOver(addMonth: Calendar, policy: Policy, state: AgentState, now: int): AgentState {
    if now < state.periodResetsAt then state else PeriodRestarted(addMonth, policy, state, now)
  }

  // ---------- thresholds ----------

  function PercentageUsed(limit: real, spent: real): real {
    if limit <= 0.0 || spent <= 0.0 then 0.0 else spent / limit * 100.0
  }

  predicate Crossed(threshold: real, before: real, after: real) {
    before < threshold <= after
  }

  /** The thresholds one spend fires, in list order. */
  function Fire(thresholds: seq<real>, before: real, after: real, fired: set<real>): seq<real> {
    if thresholds == [] then []
    else
      var t := thresholds[0];
      if Crossed(t, before, after) && t !in fired then [t] + Fire(thresholds[1..], before, after, fired + {t})
      else Fire(thresholds[1..], before, after, fired)
  }

  function Elements(s: seq<real>): set<real> {
    set t | t in s
  }

  /** The state with some thresholds marked as fired, in order. */
  function Alerted(state: AgentState, alerts: seq<real>): AgentState {
    state.(triggeredAlerts := state.triggeredAlerts + Elements(alerts),
           lastAlertedPct := if alerts == [] then state.lastAlertedPct else alerts[|alerts| - 1])
  }

  datatype Spend = Spend(state: AgentState, alerts: seq<real>)

  /** The state after spend is recorded, with the thresholds that fired. */
  function Recorded(addMonth: Calendar, policy: Policy, state: AgentState, costUSD: real, now: int): Spend {
    var current := RolledOver(addMonth, policy, state.(lastSeenAt := now), now);
    var spent := current.spentUSD + NonNegative(costUSD);
    var alerts := Fire(policy.alertThresholdsPct,
                       PercentageUsed(policy.limitUSD, current.spentUSD),
                       PercentageUsed(policy.limitUSD, spent),
                       current.triggeredAlerts);
    Spend(Alerted(current.(spentUSD := spent, dirty := true), alerts), alerts)
  }

  predicate ShouldDowngrade(policy: Policy, projected: real) {
    policy.limitUSD > 0.0 && policy.downgradeThresholdPct > 0.0
    && PercentageUsed(policy.limitUSD, projected) >= policy.downgradeThresholdPct
  }

  predicate ShouldAlert(policy: Policy, current: real, projected: real) {
    policy.limitUSD > 0.0
    && exists t | t in policy.alertThresholdsPct ::
         Crossed(t, PercentageUsed(policy.limitUSD, current), PercentageUsed(policy.limitUSD, projected))
  }

  // ---------- the runaway window ----------

  predicate Watches(r: Runaway) {
    r.enabled && r.maxRequests >= 1 && r.windowSeconds >= 1
  }

  function Since(times: seq<int>, start: int): seq<int> {
    if times == [] then []
    else if times[0] >= start then [times[0]] + Since(times[1..], start)
    else Since(times[1..], start)
  }

  function Register(width: int, times: seq<int>, now: int): seq<int> {
    Since(times, now - width) + [now]
  }

  // ---------- checks ----------

  datatype Action = Allow | Reject | Downgrade | Alert | Kill

  datatype Code = NoCode | AgentKilled | OverBudget | OverGlobalBudget

  datatype Decision = Decision(action: Action, code: Code, over: bool, limitUSD: real, spentUSD: real)

  datatype AgentAlert =
    | ExceededAlert(projectedUSD: real, action: Action)
    | RunawayAlert(requests: nat)
    | KilledAlert(reason: Reason)

  datatype Checked = Checked(state: AgentState, decision: Decision, alerts: seq<AgentAlert>)

  function OverLimitAction(policy: Policy): Action {
    match policy.actionOnExceed
    case OnExceedDowngrade => Downgrade
    case OnExceedAlert => Alert
    case OnExceedKill => Kill
    case _ => Reject
  }

  /** The check of a live agent against its own budget. */
  function CheckBudget(policy: Policy, state: AgentState, estimatedUSD: real): Checked {
    var projected := state.spentUSD + NonNegative(estimatedUSD);
    if policy.limitUSD > 0.0 && projected > policy.limitUSD then
      var action := OverLimitAction(policy);
      if action == Kill then
        Checked(state.(killed := true, reason := BudgetExceeded, dirty := true),
                Decision(Kill, AgentKilled, true, policy.limitUSD, state.spentUSD),
                [ExceededAlert(projected, Kill), KilledAlert(BudgetExceeded)])
      else
        Checked(state, Decision(action, OverBudget, true, policy.limitUSD, state.spentUSD),
                [ExceededAlert(projected, action)])
    else
      var action := if ShouldDowngrade(policy, projected) then Downgrade
                    else if ShouldAlert(policy, state.spentUSD, projected) then Alert
                    else Allow;
      Checked(state, Decision(action, NoCode, false, policy.limitUSD, state.spentUSD), [])
  }

  /** A live agent's request, counted by the runaway window before it is priced. */
  function CheckLive(policy: Policy, runaway: Runaway, state: AgentState, estimatedUSD: real, now: int): Checked {
    if !Watches(runaway) then CheckBudget(policy, state, estimatedUSD)
    else
      var times := Register(runaway.windowSeconds * SECOND, state.requestTimes, now);
      var registered := state.(requestTimes := times);
      if |times| > runaway.maxRequests then
        Checked(registered.(killed := true, reason := RunawayDetected, dirty := true),
                Decision(Kill, AgentKilled, false, policy.limitUSD, registered.spentUSD),
                [RunawayAlert(|times|), KilledAlert(RunawayDetected)])
      else CheckBudget(policy, registered, estimatedUSD)
  }

  /** The agent's part of a budget check. `globalRefusal` is the decision of the
      cross-agent budget when it refuses the request. */
  function Check(addMonth: Calendar, policy: Policy, runaway: Runaway, state: AgentState,
                 globalRefusal: Option<Decision>, estimatedUSD: real, now: int): Checked {
    var current := RolledOver(addMonth, policy, state.(lastSeenAt := now), now);
    if current.killed then
      Checked(current, Decision(Kill, AgentKilled, false, policy.limitUSD, current.spentUSD), [])
    else if globalRefusal.Some? then Checked(current, globalRefusal.value, [])
    else CheckLive(policy, runaway, current, estimatedUSD, now)
  }

  // ---------- operator actions ----------

  function Killed(state: AgentState, now: int): AgentState {
    state.(killed := true, reason := ManualKill, lastSeenAt := now, dirty := true)
  }

  function Enabled(state: AgentState, now: int): AgentState {
    state.(killed := false, reason := NoReason, lastSeenAt := now, dirty := true)
  }

  function BudgetReset(addMonth: Calendar, policy: Policy, state: AgentState, now: int): AgentState {
    PeriodRestarted(addMonth, policy, state, now).(lastSeenAt := now)
  }

  function PolicyUpdated(addMonth: Calendar, policy: Policy, state: AgentState, now: int): AgentState {
    RolledOver(addMonth, policy, state, now).(lastSeenAt := now, dirty := true)
  }

  // ---------- rows ----------

  datatype AgentRow = AgentRow(
    status: string,
    limitUSD: real,
    spentUSD: real,
    period: Period,
    actionOnExceed: ExceedAction,
    downgradeThresholdPct: real,
    alertThresholdsPct: seq<real>,
    periodStartedAt: int,
    periodResetsAt: int,
    lastSeenAt: int)

  function ReasonName(r: Reason): string {
    match r
    case NoReason => ""
    case BudgetExceeded => "budget_exceeded"
    case ManualKill => "manual_kill"
    case RunawayDetected => "runaway_detected"
  }

  function PersistedStatus(state: AgentState): string {
    if !state.killed then "active"
    else if state.reason != NoReason then ReasonName(state.reason)
    else "killed"
  }

  function RowOf(policy: Policy, state: AgentState): AgentRow {
    AgentRow(PersistedStatus(state), policy.limitUSD, state.spentUSD, policy.period, policy.actionOnExceed,
             policy.downgradeThresholdPct, policy.alertThresholdsPct,
             state.periodStartedAt, state.periodResetsAt, state.lastSeenAt)
  }

  /** The row as the store keeps it: empty policy fields are replaced by defaults. */
  function Stored(row: AgentRow): AgentRow {
    row.(
      status := if row.status == "" then "active" else row.status,
      period := if row.period == UnsetPeriod then Daily else row.period,
      actionOnExceed := if row.actionOnExceed == UnsetAction then OnExceedAlert else row.actionOnExceed,
      downgradeThresholdPct := if row.downgradeThresholdPct == 0.0 then 80.0 else row.downgradeThresholdPct,
      alertThresholdsPct := if row.alertThresholdsPct == [] then [50.0, 80.0, 100.0] else row.alertThresholdsPct)
  }

  /** A policy as the store keeps it. */
  function StoredPolicy(policy: Policy): Policy {
    policy.(
      period := if policy.period == UnsetPeriod then Daily else policy.period,
      actionOnExceed := if policy.actionOnExceed == UnsetAction then OnExceedAlert else policy.actionOnExceed,
      downgradeThresholdPct := if policy.downgradeThresholdPct == 0.0 then 80.0 else policy.downgradeThresholdPct,
      alertThresholdsPct := if policy.alertThresholdsPct == [] then [50.0, 80.0, 100.0] else policy.alertThresholdsPct)
  }

  /** A stored row once the program has started: an agent declared in the configuration
      has its declared policy written over the stored one before rows are loaded. */
  function Seeded(addMonth: Calendar, row: AgentRow, configured: Option<Policy>, now: int): AgentRow {
    match configured
    case None => row
    case Some(policy) =>
      var started := FirstNonZero(row.periodStartedAt, now);
      Stored(row.(
        limitUSD := policy.limitUSD,
        period := policy.period,
        actionOnExceed := policy.actionOnExceed,
        downgradeThresholdPct := policy.downgradeThresholdPct,
        alertThresholdsPct := policy.alertThresholdsPct,
        periodStartedAt := started,
        periodResetsAt := FirstNonZero(row.periodResetsAt, NextPeriodReset(addMonth, started, policy.period))))
  }

  /** Status text as it is compared: lower case, without surrounding whitespace.
      Two letters outside ASCII have ASCII lower-case forms. */
  function LowerStatus(status: string): string {
    if status == "" then ""
    else if |status| >= 2 && At(status, 0) == 0xC4 && At(status, 1) == 0xB0 then "i" + LowerStatus(status[2..])
    else if |status| >= 3 && At(status, 0) == 0xE2 && At(status, 1) == 0x84 && At(status, 2) == 0xAA then
      "k" + LowerStatus(status[3..])
    else if 'A' <= status[0] <= 'Z' then [(status[0] as int + 32) as char] + LowerStatus(status[1..])
    else [status[0]] + LowerStatus(status[1..])
  }

  function NormalStatus(status: string): string {
    TrimSpace(LowerStatus(status))
  }

  predicate Disabled(normalStatus: string) {
    normalStatus != "" && normalStatus != "active"
  }

  function DisableReason(normalStatus: string, limitUSD: real, spentUSD: real, actionOnExceed: ExceedAction): Reason {
    if normalStatus == "budget_exceeded" then BudgetExceeded
    else if normalStatus == "manual_kill" then ManualKill
    else if normalStatus == "runaway_detected" then RunawayDetected
    else if normalStatus == "killed" then
      if limitUSD > 0.0 && spentUSD >= limitUSD && actionOnExceed == OnExceedKill then BudgetExceeded else ManualKill
    else NoReason
  }

  function FirstNonZero(value: int, fallback: int): int {
    if value != ZERO_TIME then value else fallback
  }

  function TriggeredAlerts(thresholds: seq<real>, limitUSD: real, spentUSD: real): set<real> {
    set t | t in thresholds && PercentageUsed(limitUSD, spentUSD) >= t
  }

  function LoadedPolicy(row: AgentRow): Policy {
    Policy(row.limitUSD, row.downgradeThresholdPct, row.period, row.actionOnExceed, row.alertThresholdsPct)
  }

  function LoadedState(addMonth: Calendar, row: AgentRow, now: int): AgentState {
    var started := FirstNonZero(row.periodStartedAt, now);
    var status := NormalStatus(row.status);
    AgentState(
      row.spentUSD,
      0.0,
      started,
      FirstNonZero(row.periodResetsAt, NextPeriodReset(addMonth, started, row.period)),
      FirstNonZero(row.lastSeenAt, now),
      [],
      TriggeredAlerts(row.alertThresholdsPct, row.limitUSD, row.spentUSD),
      Disabled(status),
      DisableReason(status, row.limitUSD, row.spentUSD, row.actionOnExceed),
      false)
  }
}
