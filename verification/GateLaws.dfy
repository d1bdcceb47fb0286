/**
 What the gate lets through and at what price, after any calls on the manager
 (internal/proxy/proxy.go).
 */
module GateLaws {
  import opened Agents
  import opened Billing
  import opened Dollars
  import opened Governor
  import opened Text
  import AgentLaws
  import DecisionLaws
  import GovernorLaws
  import SpendLaws
  import Tasks

  /** The dollars are the price of a quarter of the body, rounded down, as input of the model. */
  ghost predicate EstimateIs(prices: Prices, model: string, bodyBytes: nat, usd: real) {
    PricedAt(prices, model, bodyBytes / 4, 0, usd)
  }

  // ---------- one request ----------

  /** What a request that is not stopped needs of the check's decision to be sent as `model`. */
  ghost predicate Passes(d: Decision, r: Request, model: string) {
    && d.action != Kill && d.action != Reject
    && (d.action != Downgrade ==> model == r.model)
    && (d.action == Downgrade ==>
          || r.rewrite == RewrittenTo(model)
          || (r.rewrite == Unchanged && !d.over && model == r.model))
  }

  lemma {:induction false} AnswerFollows(s: Settings, prices: Prices, m: Memory, limits: Tasks.Limits,
                                         book: Tasks.Book, r: Request, now: int, usd: real)
    requires EstimateIs(prices, r.model, r.bodyBytes, usd)
    ensures var c := CheckedMemory(s, m, r.Agent(), usd, now);
            var answer := Answer(s, prices, m, limits, book, r, now);
            && (!r.emergency ==> MemoryAfter(s, prices, m, r, now) == c.memory)
            && (answer.Forward? ==> !r.emergency && Passes(c.decision, r, answer.model))
            && (!r.emergency && c.decision.action == Kill ==> answer == Refuse(429))
  {
    PricedOnce(prices, r.model, r.bodyBytes / 4, 0, usd);
  }

  lemma {:induction false} PassesExactly(s: Settings, prices: Prices, m: Memory, r: Request, now: int, usd: real,
                                         model: string)
    requires EstimateIs(prices, r.model, r.bodyBytes, usd)
    ensures AllowedBy(s, prices, m, r, now) == Forward(model)
            <==> Passes(CheckedMemory(s, m, r.Agent(), usd, now).decision, r, model)
  {
    PricedOnce(prices, r.model, r.bodyBytes / 4, 0, usd);
  }

  lemma {:induction false} CapFits(prices: Prices, limits: Tasks.Limits, book: Tasks.Book, r: Request, model: string,
                                   now: int, sentUSD: real)
    requires EstimateIs(prices, model, r.bodyBytes, sentUSD)
    ensures CapRefuses(prices, limits, book, r, model, now)
            <==> r.TaskID() != ""
                 && !Tasks.FitsTables(limits.gate, limits.perAgent, book, r.Agent(), r.TaskID(), sentUSD)
  {
    PricedOnce(prices, model, r.bodyBytes / 4, 0, sentUSD);
    Tasks.ReservedMeans(limits, book, HoldFor(prices, r, model), now);
  }

  /** A request goes on as a model exactly when the gate is not stopped, the check's decision
      passes it as that model, and, if it names a task, the task's cap, read off the tables,
      leaves room for the price of that model. */
  lemma {:induction false} ForwardedExactly(s: Settings, prices: Prices, m: Memory, limits: Tasks.Limits,
                                            book: Tasks.Book, r: Request, now: int, usd: real, model: string,
                                            sentUSD: real)
    requires EstimateIs(prices, r.model, r.bodyBytes, usd) && EstimateIs(prices, model, r.bodyBytes, sentUSD)
    ensures Answer(s, prices, m, limits, book, r, now) == Forward(model)
            <==> && !r.emergency
                 && Passes(CheckedMemory(s, m, r.Agent(), usd, now).decision, r, model)
                 && (r.TaskID() != "" ==>
                       Tasks.FitsTables(limits.gate, limits.perAgent, book, r.Agent(), r.TaskID(), sentUSD))
  {
    PassesExactly(s, prices, m, r, now, usd, model);
    CapFits(prices, limits, book, r, model, now, sentUSD);
  }

  /** What is not forwarded is answered 503 in an emergency, 500 when a downgrade cannot be
      rewritten, and otherwise 429. */
  lemma {:induction false} RefusedExactly(s: Settings, prices: Prices, m: Memory, limits: Tasks.Limits,
                                          book: Tasks.Book, r: Request, now: int, usd: real)
    requires EstimateIs(prices, r.model, r.bodyBytes, usd)
    ensures var d, answer := CheckedMemory(s, m, r.Agent(), usd, now).decision,
                             Answer(s, prices, m, limits, book, r, now);
            answer.Refuse? ==>
              answer.status == if r.emergency then 503
                               else if d.action == Downgrade && r.rewrite == RewriteFailed then 500
                               else 429
  {
    PricedOnce(prices, r.model, r.bodyBytes / 4, 0, usd);
  }

  /** A forwarded request that names a task holds the price of the model sent, once; any other
      answer holds nothing. */
  lemma {:induction false} HeldExactly(s: Settings, prices: Prices, m: Memory, limits: Tasks.Limits, book: Tasks.Book,
                                       r: Request, now: int, sentUSD: real)
    requires var answer := Answer(s, prices, m, limits, book, r, now);
             answer.Forward? ==> EstimateIs(prices, answer.model, r.bodyBytes, sentUSD)
    ensures var after := BookAfter(s, prices, m, limits, book, r, now);
            if Answer(s, prices, m, limits, book, r, now).Forward? && r.TaskID() != ""
            then Tasks.Holds(book, after, r.TaskID(), r.Agent(), sentUSD, now)
            else Tasks.SpendsNothing(book, after)
  {
    var allowed := AllowedBy(s, prices, m, r, now);
    if !r.emergency && allowed.Forward? && r.TaskID() != "" {
      Tasks.ReservedMeans(limits, book, HoldFor(prices, r, allowed.model), now);
      if Answer(s, prices, m, limits, book, r, now).Forward? {
        PricedOnce(prices, allowed.model, r.bodyBytes / 4, 0, sentUSD);
      }
    }
  }

  // ---------- after any calls ----------

  lemma {:induction false} CallKeepsPolicy(s: Settings, m: Memory, c: GovernorLaws.Call, agent: string)
    requires agent !in c.Renames()
    ensures var policy := PolicyFor(s, GovernorLaws.Done(s, m, c), agent);
            policy == PolicyFor(s, m, agent) || (c.UpdateC? && c.Agent() == agent && policy == c.policy)
  {
  }

  /** Whatever holds of an agent's policy, and of every policy set for it, holds after any calls. */
  lemma {:induction false} RunKeepsPolicies(s: Settings, m: Memory, calls: seq<GovernorLaws.Call>, agent: string,
                                            good: Policy -> bool)
    requires GovernorLaws.Spared(calls, agent) && good(PolicyFor(s, m, agent))
    requires forall c | c in calls && c.UpdateC? && c.Agent() == agent :: good(c.policy)
    ensures good(PolicyFor(s, GovernorLaws.Run(s, m, calls), agent))
    decreases |calls|
  {
    if calls == [] {
    } else {
      assert calls[0] in calls && forall c | c in calls[1..] :: c in calls;
      CallKeepsPolicy(s, m, calls[0], agent);
      RunKeepsPolicies(s, GovernorLaws.Done(s, m, calls[0]), calls[1..], agent, good);
    }
  }

  /** After any calls under reject or kill policies of at most a cap, a forwarded request leaves
      its agent's spend and its own estimate together within the cap. */
  lemma {:induction false} ForwardedWithinCap(s: Settings, prices: Prices, m: Memory, calls: seq<GovernorLaws.Call>,
                                              cap: real, limits: Tasks.Limits, book: Tasks.Book, r: Request, now: int,
                                              usd: real)
    requires GovernorLaws.Spared(calls, r.Agent()) && GovernorLaws.StrictCalls(calls, r.Agent(), cap)
    requires SpendLaws.Strict(PolicyFor(s, m, r.Agent()), cap) && EstimateIs(prices, r.model, r.bodyBytes, usd)
    ensures var end := GovernorLaws.Run(s, m, calls);
            var after := MemoryAfter(s, prices, end, r, now);
            Answer(s, prices, end, limits, book, r, now).Forward? ==>
              r.Agent() in after.states && after.states[r.Agent()].spentUSD + Max(usd, 0.0) <= cap
  {
    var end, agent := GovernorLaws.Run(s, m, calls), r.Agent();
    RunKeepsPolicies(s, m, calls, agent, (policy: Policy) => SpendLaws.Strict(policy, cap));
    AnswerFollows(s, prices, end, limits, book, r, now, usd);
    DecisionLaws.StrictChecks(s, end, agent, PolicyFor(s, end, agent), cap, usd, now);
  }

  /** A forwarded request leaves the cross-agent spend and its estimate together within the limit. */
  lemma {:induction false} ForwardedWithinGlobal(s: Settings, prices: Prices, m: Memory, calls: seq<GovernorLaws.Call>,
                                                 limits: Tasks.Limits, book: Tasks.Book, r: Request, now: int,
                                                 usd: real)
    requires s.globalLimitUSD > 0.0 && EstimateIs(prices, r.model, r.bodyBytes, usd)
    ensures var end := GovernorLaws.Run(s, m, calls);
            Answer(s, prices, end, limits, book, r, now).Forward? ==>
              MemoryAfter(s, prices, end, r, now).global.spentUSD + usd <= s.globalLimitUSD
  {
    var end, agent := GovernorLaws.Run(s, m, calls), r.Agent();
    AnswerFollows(s, prices, end, limits, book, r, now, usd);
    GovernorLaws.ForwardedWithinGlobal(s, end, agent, usd, now);
  }

  /** After any calls under downgrade policies, a request that would pass the limit is sent as
      the cheaper model it was rewritten to, or not at all. */
  lemma {:induction false} OverLimitIsNeverSentAsAsked(s: Settings, prices: Prices, m: Memory,
                                                       calls: seq<GovernorLaws.Call>, limits: Tasks.Limits,
                                                       book: Tasks.Book, r: Request, now: int, usd: real)
    requires GovernorLaws.Spared(calls, r.Agent()) && EstimateIs(prices, r.model, r.bodyBytes, usd)
    requires PolicyFor(s, m, r.Agent()).actionOnExceed == OnExceedDowngrade
    requires forall c | c in calls && c.UpdateC? && c.Agent() == r.Agent() ::
               c.policy.actionOnExceed == OnExceedDowngrade
    requires var end := GovernorLaws.Run(s, m, calls);
             var limit := PolicyFor(s, end, r.Agent()).limitUSD;
             limit > 0.0 && DecisionLaws.AgentSpent(end, r.Agent(), now) + Max(usd, 0.0) > limit
    ensures var answer := Answer(s, prices, GovernorLaws.Run(s, m, calls), limits, book, r, now);
            answer.Forward? ==> r.rewrite == RewrittenTo(answer.model)
  {
    var end, agent := GovernorLaws.Run(s, m, calls), r.Agent();
    RunKeepsPolicies(s, m, calls, agent, (policy: Policy) => policy.actionOnExceed == OnExceedDowngrade);
    AnswerFollows(s, prices, end, limits, book, r, now, usd);
    DecisionLaws.DowngradeChecks(s, end, agent, PolicyFor(s, end, agent), usd, now);
  }

  lemma {:induction false} KillIsAnswered(s: Settings, prices: Prices, m: Memory, limits: Tasks.Limits,
                                          book: Tasks.Book, r: Request, now: int)
    requires !r.emergency && CheckOf(s, prices, m, r, now).decision.action == Kill
    ensures Answer(s, prices, m, limits, book, r, now) == Refuse(429)
  {
  }

  /** After a manual or runaway kill, through any calls short of enabling, deleting or renaming the
      agent, its next request is answered 429. */
  lemma {:induction false} KilledAnswered(s: Settings, prices: Prices, m: Memory, calls: seq<GovernorLaws.Call>,
                                          limits: Tasks.Limits, book: Tasks.Book, r: Request, now: int)
    requires r.Agent() in m.states && AgentLaws.Latched(m.states[r.Agent()]) && !r.emergency
    requires GovernorLaws.Spared(calls, r.Agent())
    requires forall c | c in calls :: !(c.EnableC? && c.Agent() == r.Agent())
    ensures Answer(s, prices, GovernorLaws.Run(s, m, calls), limits, book, r, now) == Refuse(429)
  {
    GovernorLaws.KilledAgentsStayOut(s, m, calls, r.Agent(), Cost(prices, r.model, r.bodyBytes / 4, 0), now);
    KillIsAnswered(s, prices, GovernorLaws.Run(s, m, calls), limits, book, r, now);
  }

  /** So is the next request of an agent killed for its budget, while its period lasts. */
  lemma {:induction false} BudgetKilledAnswered(s: Settings, prices: Prices, m: Memory, calls: seq<GovernorLaws.Call>,
                                                limits: Tasks.Limits, book: Tasks.Book, r: Request, now: int)
    requires r.Agent() in m.states && !r.emergency
    requires var state := m.states[r.Agent()];
             && state.killed && state.reason != NoReason && state.periodResetsAt != ZERO_TIME
             && now < state.periodResetsAt
             && forall c | c in calls :: GovernorLaws.QuietCall(c, r.Agent(), state.periodResetsAt)
    requires GovernorLaws.Spared(calls, r.Agent())
    ensures Answer(s, prices, GovernorLaws.Run(s, m, calls), limits, book, r, now) == Refuse(429)
  {
    GovernorLaws.BudgetKilledStayOut(s, m, calls, r.Agent(), Cost(prices, r.model, r.bodyBytes / 4, 0), now);
    KillIsAnswered(s, prices, GovernorLaws.Run(s, m, calls), limits, book, r, now);
  }
}
