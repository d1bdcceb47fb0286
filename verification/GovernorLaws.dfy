/**
 The manager as a whole: calls for many agents interleave under one lock, and yet
 each agent lives through exactly its own calls (internal/budget/manager.go).
 */
module GovernorLaws {
  import opened Agents
  import opened Dollars
  import opened Text
  import opened Governor
  import AgentLaws
  import SpendLaws
  import Tasks

  /** One call on the manager, whole: it runs under the manager's lock. */
  datatype Call =
    | CheckC(rawAgent: string, estimatedUSD: real, now: int)
    | RecordC(rawAgent: string, costUSD: real, now: int)
    | KillC(rawAgent: string, now: int)
    | EnableC(rawAgent: string, now: int)
    | ResetC(rawAgent: string, now: int)
    | UpdateC(rawAgent: string, policy: Policy, now: int)
    | ViewC(rawAgent: string, now: int)
    | DeleteC(rawAgent: string, now: int)
    | RenameC(rawAgent: string, rawNew: string, now: int)
    | UndoRenameC(rawAgent: string, rawNew: string, policy: Policy, state: AgentState, now: int)
  {
    function Agent(): string {
      Tasks.NormalizeAgent(rawAgent)
    }

    /** The names a deletion or a rename gives to or takes from an agent. */
    function Renames(): set<string> {
      match this
      case DeleteC(_, _) => {Agent()}
      case RenameC(_, new_, _) => {Agent(), Tasks.NormalizeAgent(new_)}
      case UndoRenameC(_, new_, _, _, _) => {Agent(), Tasks.NormalizeAgent(new_)}
      case _ => {}
    }
  }

  /** No deletion or rename of these calls involves the agent. */
  ghost predicate Spared(calls: seq<Call>, agent: string) {
    forall c | c in calls :: agent !in c.Renames()
  }

  /** The memory with one agent's policy and state under another name. */
  function Moved(m: Memory, from: string, to: string, policy: Policy, state: AgentState): Memory {
    m.(policies := (m.policies - {from})[to := policy],
       states := (m.states - {from})[to := state],
       known := m.known - {from} + {to})
  }

  /** The memory a call leaves, as the manager's methods promise it: for a deletion, one that
      commits, and for a rename, its memory half and the way back after the store refused. */
  function Done(s: Settings, m: Memory, c: Call): Memory {
    var agent := c.Agent();
    match c
    case CheckC(_, estimate, now) => CheckedMemory(s, m, agent, estimate, now).memory
    case RecordC(_, cost, now) => RecordedMemory(s, m, agent, cost, now)
    case KillC(_, now) => WithState(m, agent, Killed(StateFor(s, m, agent, now), now))
    case EnableC(_, now) => WithState(m, agent, Enabled(StateFor(s, m, agent, now), now))
    case ResetC(_, now) =>
      WithState(m, agent, BudgetReset(s.addMonth, PolicyFor(s, m, agent), StateFor(s, m, agent, now), now))
    case UpdateC(_, policy, now) =>
      if !Accepts(policy) then m
      else
        var updated := m.(policies := m.policies[agent := policy]);
        WithState(updated, agent, PolicyUpdated(s.addMonth, policy, StateFor(s, updated, agent, now), now))
    case ViewC(_, now) =>
      WithState(m, agent, RolledOver(s.addMonth, PolicyFor(s, m, agent), StateFor(s, m, agent, now), now))
    case DeleteC(_, _) => m.(policies := m.policies - {agent}, states := m.states - {agent}, known := m.known - {agent})
    case RenameC(_, rawNew, now) =>
      var new_ := Tasks.NormalizeAgent(rawNew);
      if agent == new_ || new_ in m.known then m
      else Moved(m, agent, new_, PolicyFor(s, m, agent), StateFor(s, m, agent, now).(dirty := true))
    case UndoRenameC(_, rawNew, policy, state, _) => Moved(m, Tasks.NormalizeAgent(rawNew), agent, policy, state)
  }

  function Run(s: Settings, m: Memory, calls: seq<Call>): Memory
    decreases |calls|
  {
    if calls == [] then m else Run(s, Done(s, m, calls[0]), calls[1..])
  }

  /** What the cross-agent budget answers when an agent asks. */
  function RefusalAt(s: Settings, m: Memory, agent: string, estimatedUSD: real, now: int): Option<Decision> {
    var policy := PolicyFor(s, m, agent);
    var killed := RolledOver(s.addMonth, policy, StateFor(s, m, agent, now).(lastSeenAt := now), now).killed;
    GlobalRefusal(s, if killed then m.global else GlobalRolled(s, m.global, now), estimatedUSD)
  }

  /** What a call is to one agent: its own event, or nothing. */
  function Seen(s: Settings, m: Memory, c: Call, agent: string): seq<AgentLaws.Event> {
    if c.Agent() != agent then []
    else
      match c
      case CheckC(_, estimate, now) => [AgentLaws.CheckE(RefusalAt(s, m, agent, estimate, now), estimate, now)]
      case RecordC(_, cost, now) => [AgentLaws.RecordE(cost, now)]
      case KillC(_, now) => [AgentLaws.KillE(now)]
      case EnableC(_, now) => [AgentLaws.EnableE(now)]
      case ResetC(_, now) => [AgentLaws.ResetE(now)]
      case UpdateC(_, policy, now) => if Accepts(policy) then [AgentLaws.UpdateE(policy, now)] else []
      case ViewC(_, now) => [AgentLaws.ViewE(now)]
      case _ => []
  }

  function History(s: Settings, m: Memory, calls: seq<Call>, agent: string): seq<AgentLaws.Event>
    decreases |calls|
  {
    if calls == [] then [] else Seen(s, m, calls[0], agent) + History(s, Done(s, m, calls[0]), calls[1..], agent)
  }

  function View(s: Settings, m: Memory, agent: string): AgentLaws.Agent
    requires agent in m.states
  {
    AgentLaws.Agent(PolicyFor(s, m, agent), m.states[agent])
  }

  lemma {:induction false} RunSplits(addMonth: Calendar, runaway: Runaway, a: AgentLaws.Agent, x: seq<AgentLaws.Event>,
                                     y: seq<AgentLaws.Event>)
    ensures AgentLaws.Run(addMonth, runaway, a, x + y)
            == AgentLaws.Run(addMonth, runaway, AgentLaws.Run(addMonth, runaway, a, x), y)
    decreases |x|
  {
    if x == [] {
      assert x + y == y;
    } else {
      assert (x + y)[1..] == x[1..] + y;
      RunSplits(addMonth, runaway, AgentLaws.Step(addMonth, runaway, a, x[0]), x[1..], y);
    }
  }

  lemma {:induction false} RunOne(addMonth: Calendar, runaway: Runaway, a: AgentLaws.Agent, e: AgentLaws.Event)
    ensures AgentLaws.Run(addMonth, runaway, a, [e]) == AgentLaws.Step(addMonth, runaway, a, e)
  {
    assert [e][1..] == [];
  }

  lemma {:induction false} OthersUntouched(s: Settings, m: Memory, c: Call, agent: string)
    requires agent in m.states && c.Agent() != agent && agent !in c.Renames()
    ensures agent in Done(s, m, c).states && View(s, Done(s, m, c), agent) == View(s, m, agent)
  {
  }

  lemma {:induction false} OwnCallSeen(s: Settings, m: Memory, c: Call)
    requires c.Agent() in m.states && c.Agent() !in c.Renames()
    ensures c.Agent() in Done(s, m, c).states
    ensures View(s, Done(s, m, c), c.Agent())
            == AgentLaws.Run(s.addMonth, s.runaway, View(s, m, c.Agent()), Seen(s, m, c, c.Agent()))
  {
    var seen := Seen(s, m, c, c.Agent());
    if seen != [] {
      RunOne(s.addMonth, s.runaway, View(s, m, c.Agent()), seen[0]);
      assert seen == [seen[0]];
    }
  }

  /** However the calls of many agents interleave, each agent's policy and state are
      what its own calls alone make of them. */
  lemma {:induction false} EachAgentRunsAlone(s: Settings, m: Memory, calls: seq<Call>, agent: string)
    requires agent in m.states && Spared(calls, agent)
    ensures agent in Run(s, m, calls).states
    ensures View(s, Run(s, m, calls), agent)
            == AgentLaws.Run(s.addMonth, s.runaway, View(s, m, agent), History(s, m, calls, agent))
    decreases |calls|
  {
    if calls == [] {
    } else {
      var c := calls[0];
      assert c in calls && forall x | x in calls[1..] :: x in calls;
      CallSeen(s, m, c, agent);
      EachAgentRunsAlone(s, Done(s, m, c), calls[1..], agent);
      RunSplits(s.addMonth, s.runaway, View(s, m, agent), Seen(s, m, c, agent),
                History(s, Done(s, m, c), calls[1..], agent));
    }
  }

  /** Who a new agent is when its first call begins. */
  function Born(s: Settings, m: Memory, c: Call): AgentLaws.Agent {
    var policy := if c.UpdateC? then c.policy else PolicyFor(s, m, c.Agent());
    AgentLaws.Agent(policy, NewState(s.addMonth, policy, c.now))
  }

  lemma {:induction false} FirstCallSeen(s: Settings, m: Memory, c: Call)
    requires c.Agent() !in m.states && c.Agent() !in c.Renames() && c.Agent() in Done(s, m, c).states
    ensures View(s, Done(s, m, c), c.Agent())
            == AgentLaws.Run(s.addMonth, s.runaway, Born(s, m, c), Seen(s, m, c, c.Agent()))
  {
    var seen := Seen(s, m, c, c.Agent());
    if seen != [] {
      RunOne(s.addMonth, s.runaway, Born(s, m, c), seen[0]);
      assert seen == [seen[0]];
    }
  }

  lemma {:induction false} OthersUnborn(s: Settings, m: Memory, c: Call, agent: string)
    requires agent !in m.states && c.Agent() != agent && agent !in c.Renames()
    ensures agent !in Done(s, m, c).states
  {
  }

  lemma {:induction false} BornRunsAlone(s: Settings, m: Memory, calls: seq<Call>, agent: string)
    requires calls != [] && agent !in m.states && Spared(calls, agent) && agent in Done(s, m, calls[0]).states
    ensures calls[0].Agent() == agent && agent in Run(s, m, calls).states
    ensures View(s, Run(s, m, calls), agent)
            == AgentLaws.Run(s.addMonth, s.runaway, Born(s, m, calls[0]), History(s, m, calls, agent))
  {
    var c, rest := calls[0], calls[1..];
    assert c in calls && forall x | x in rest :: x in calls;
    if c.Agent() != agent {
      OthersUnborn(s, m, c, agent);
    }
    FirstCallSeen(s, m, c);
    EachAgentRunsAlone(s, Done(s, m, c), rest, agent);
    RunSplits(s.addMonth, s.runaway, Born(s, m, c), Seen(s, m, c, agent), History(s, Done(s, m, c), rest, agent));
  }

  /** The agent's first call is the i-th, and from there on it runs alone. */
  ghost predicate RunsAloneFrom(s: Settings, m: Memory, calls: seq<Call>, agent: string, i: nat)
    requires agent in Run(s, m, calls).states && i < |calls|
  {
    var met := Run(s, m, calls[..i]);
    && calls[i].Agent() == agent && agent !in met.states
    && View(s, Run(s, m, calls), agent)
       == AgentLaws.Run(s.addMonth, s.runaway, Born(s, met, calls[i]), History(s, met, calls[i..], agent))
  }

  lemma {:induction false} RunsAloneLater(s: Settings, m: Memory, calls: seq<Call>, agent: string, j: nat)
    requires calls != [] && agent in Run(s, m, calls).states && j < |calls[1..]|
    requires RunsAloneFrom(s, Done(s, m, calls[0]), calls[1..], agent, j)
    ensures RunsAloneFrom(s, m, calls, agent, j + 1)
  {
    assert calls[..j + 1][0] == calls[0] && calls[..j + 1][1..] == calls[1..][..j];
    assert calls[j + 1..] == calls[1..][j..];
  }

  /** An agent the manager meets on the way runs alone too, from the state its first call
      gives it. */
  lemma {:induction false} NewAgentRunsAlone(s: Settings, m: Memory, calls: seq<Call>, agent: string) returns (i: nat)
    requires agent !in m.states && Spared(calls, agent) && agent in Run(s, m, calls).states
    ensures i < |calls| && RunsAloneFrom(s, m, calls, agent, i)
    decreases |calls|
  {
    assert calls[0] in calls && forall x | x in calls[1..] :: x in calls;
    if agent in Done(s, m, calls[0]).states {
      i := 0;
      assert calls[..0] == [] && calls[0..] == calls;
      BornRunsAlone(s, m, calls, agent);
    } else {
      var j := NewAgentRunsAlone(s, Done(s, m, calls[0]), calls[1..], agent);
      i := j + 1;
      RunsAloneLater(s, m, calls, agent, j);
    }
  }

  /** A deleted agent's name starts afresh: no kill of it is remembered. */
  lemma {:induction false} DeletionForgetsKill(s: Settings, m: Memory, rawAgent: string, now: int)
    ensures var agent := Tasks.NormalizeAgent(rawAgent);
            StateFor(s, Done(s, m, DeleteC(rawAgent, now)), agent, now) == NewState(s.addMonth, s.defaultPolicy, now)
    ensures !NewState(s.addMonth, s.defaultPolicy, now).killed
  {
  }

  /** The decision a check returns is the one the agent's own law speaks of. */
  lemma {:induction false} CheckIsTheAgents(s: Settings, m: Memory, agent: string, estimatedUSD: real, now: int)
    requires agent in m.states
    ensures CheckedMemory(s, m, agent, estimatedUSD, now).decision
            == Check(s.addMonth, PolicyFor(s, m, agent), s.runaway, m.states[agent],
                     RefusalAt(s, m, agent, estimatedUSD, now), estimatedUSD, now).decision
  {
  }

  lemma {:induction false} NoEnableSeen(s: Settings, m: Memory, calls: seq<Call>, agent: string)
    requires forall c | c in calls :: !(c.EnableC? && c.Agent() == agent)
    ensures forall e | e in History(s, m, calls, agent) :: !e.EnableE?
    decreases |calls|
  {
    if calls == [] {
    } else {
      assert calls[0] in calls;
      assert forall c | c in calls[1..] :: c in calls;
      NoEnableSeen(s, Done(s, m, calls[0]), calls[1..], agent);
    }
  }

  /** A manual or runaway kill holds against every interleaving of calls for any agents:
      until this agent is enabled, whatever is called, its next check answers kill. */
  lemma {:induction false} KilledAgentsStayOut(s: Settings, m: Memory, calls: seq<Call>, agent: string,
                                               estimatedUSD: real, now: int)
    requires agent in m.states && AgentLaws.Latched(m.states[agent]) && Spared(calls, agent)
    requires forall c | c in calls :: !(c.EnableC? && c.Agent() == agent)
    ensures CheckedMemory(s, Run(s, m, calls), agent, estimatedUSD, now).decision.action == Kill
  {
    var end := Run(s, m, calls);
    EachAgentRunsAlone(s, m, calls, agent);
    NoEnableSeen(s, m, calls, agent);
    AgentLaws.KillIsSticky(s.addMonth, s.runaway, View(s, m, agent), History(s, m, calls, agent));
    AgentLaws.CheckKeepsLatch(s.addMonth, PolicyFor(s, end, agent), s.runaway, end.states[agent],
                              RefusalAt(s, end, agent, estimatedUSD, now), estimatedUSD, now);
    CheckIsTheAgents(s, end, agent, estimatedUSD, now);
  }

  // ---------- threshold alerts of the whole manager ----------

  /** The alerts that recording spend returned for one agent, in order. */
  function Sent(s: Settings, m: Memory, calls: seq<Call>, agent: string): seq<real>
    decreases |calls|
  {
    if calls == [] then []
    else
      var c := calls[0];
      (if c.RecordC? && c.Agent() == agent
       then Recorded(s.addMonth, PolicyFor(s, m, agent), StateFor(s, m, agent, c.now), c.costUSD, c.now).alerts
       else [])
      + Sent(s, Done(s, m, c), calls[1..], agent)
  }

  lemma {:induction false} AlertsSplit(addMonth: Calendar, runaway: Runaway, a: AgentLaws.Agent,
                                       x: seq<AgentLaws.Event>, y: seq<AgentLaws.Event>)
    requires |x| <= 1
    ensures AgentLaws.AlertsOfRun(addMonth, runaway, a, x + y)
            == AgentLaws.AlertsOfRun(addMonth, runaway, a, x)
               + AgentLaws.AlertsOfRun(addMonth, runaway, AgentLaws.Run(addMonth, runaway, a, x), y)
  {
    if x == [] {
      assert x + y == y;
    } else {
      assert x == [x[0]] && (x + y)[1..] == y && x[1..] == [];
      RunOne(addMonth, runaway, a, x[0]);
    }
  }

  lemma {:induction false} SeenAlerts(s: Settings, m: Memory, c: Call, agent: string)
    requires agent in m.states
    ensures AgentLaws.AlertsOfRun(s.addMonth, s.runaway, View(s, m, agent), Seen(s, m, c, agent))
            == if c.RecordC? && c.Agent() == agent
               then Recorded(s.addMonth, PolicyFor(s, m, agent), m.states[agent], c.costUSD, c.now).alerts
               else []
  {
    var seen := Seen(s, m, c, agent);
    if seen != [] {
      assert seen[1..] == [];
    }
  }

  lemma {:induction false} CallSeen(s: Settings, m: Memory, c: Call, agent: string)
    requires agent in m.states && agent !in c.Renames()
    ensures agent in Done(s, m, c).states
    ensures View(s, Done(s, m, c), agent)
            == AgentLaws.Run(s.addMonth, s.runaway, View(s, m, agent), Seen(s, m, c, agent))
  {
    if c.Agent() == agent {
      OwnCallSeen(s, m, c);
    } else {
      OthersUntouched(s, m, c, agent);
    }
  }

  lemma {:induction false} SentIsItsOwn(s: Settings, m: Memory, calls: seq<Call>, agent: string)
    requires agent in m.states && Spared(calls, agent)
    ensures Sent(s, m, calls, agent)
            == AgentLaws.AlertsOfRun(s.addMonth, s.runaway, View(s, m, agent), History(s, m, calls, agent))
    decreases |calls|
  {
    if calls == [] {
    } else {
      var c := calls[0];
      assert c in calls && forall x | x in calls[1..] :: x in calls;
      CallSeen(s, m, c, agent);
      SentIsItsOwn(s, Done(s, m, c), calls[1..], agent);
      AlertsSplit(s.addMonth, s.runaway, View(s, m, agent), Seen(s, m, c, agent),
                  History(s, Done(s, m, c), calls[1..], agent));
      SeenAlerts(s, m, c, agent);
    }
  }

  /** A call on this agent neither resets it nor changes its policy, and comes in its period. */
  predicate InPeriod(c: Call, agent: string, deadline: int) {
    c.Agent() == agent ==> !c.ResetC? && !c.UpdateC? && c.now < deadline
  }

  lemma {:induction false} OrdinaryHistory(s: Settings, m: Memory, calls: seq<Call>, agent: string, deadline: int)
    requires forall c | c in calls :: InPeriod(c, agent, deadline)
    ensures forall e | e in History(s, m, calls, agent) :: AgentLaws.Ordinary(e, deadline)
    decreases |calls|
  {
    if calls == [] {
    } else {
      assert calls[0] in calls;
      assert forall c | c in calls[1..] :: c in calls;
      OrdinarySeen(s, m, calls[0], agent, deadline);
      OrdinaryHistory(s, Done(s, m, calls[0]), calls[1..], agent, deadline);
    }
  }

  lemma {:induction false} OrdinarySeen(s: Settings, m: Memory, c: Call, agent: string, deadline: int)
    requires InPeriod(c, agent, deadline)
    ensures forall e | e in Seen(s, m, c, agent) :: AgentLaws.Ordinary(e, deadline)
  {
  }

  /** Over any interleaving of calls for any agents, while one agent's period and policy
      last, each threshold its spend passed is alerted exactly once and no other is. */
  lemma {:induction false} AlertsAreExactlyOnce(s: Settings, m: Memory, calls: seq<Call>, agent: string)
    requires agent in m.states && Spared(calls, agent)
    requires forall c | c in calls :: InPeriod(c, agent, m.states[agent].periodResetsAt)
    ensures var sent, policy := Sent(s, m, calls, agent), PolicyFor(s, m, agent);
            && AgentLaws.NoRepeats(sent)
            && agent in Run(s, m, calls).states
            && forall t :: t in sent <==>
                 && t in policy.alertThresholdsPct && t !in m.states[agent].triggeredAlerts
                 && Crossed(t, AgentLaws.Used(policy, m.states[agent]),
                            AgentLaws.Used(policy, Run(s, m, calls).states[agent]))
  {
    SentIsItsOwn(s, m, calls, agent);
    OrdinaryHistory(s, m, calls, agent, m.states[agent].periodResetsAt);
    AgentLaws.EachThresholdOnce(s.addMonth, s.runaway, View(s, m, agent), History(s, m, calls, agent));
    EachAgentRunsAlone(s, m, calls, agent);
  }

  // ---------- spend of the whole manager ----------

  ghost predicate StrictCalls(calls: seq<Call>, agent: string, cap: real) {
    forall c | c in calls && c.UpdateC? && c.Agent() == agent :: SpendLaws.Strict(c.policy, cap)
  }

  lemma {:induction false} StrictHistory(s: Settings, m: Memory, calls: seq<Call>, agent: string, cap: real)
    requires StrictCalls(calls, agent, cap)
    ensures SpendLaws.StaysStrict(History(s, m, calls, agent), cap)
    decreases |calls|
  {
    if calls == [] {
    } else {
      assert calls[0] in calls && forall c | c in calls[1..] :: c in calls;
      SeenStrict(s, m, calls[0], agent, cap);
      StrictHistory(s, Done(s, m, calls[0]), calls[1..], agent, cap);
      StrictJoin(Seen(s, m, calls[0], agent), History(s, Done(s, m, calls[0]), calls[1..], agent), cap);
    }
  }

  lemma {:induction false} SeenStrict(s: Settings, m: Memory, c: Call, agent: string, cap: real)
    requires c.UpdateC? && c.Agent() == agent ==> SpendLaws.Strict(c.policy, cap)
    ensures SpendLaws.StaysStrict(Seen(s, m, c, agent), cap)
  {
  }

  lemma {:induction false} StrictJoin(x: seq<AgentLaws.Event>, y: seq<AgentLaws.Event>, cap: real)
    requires SpendLaws.StaysStrict(x, cap) && SpendLaws.StaysStrict(y, cap)
    ensures SpendLaws.StaysStrict(x + y, cap)
  {
  }

  lemma {:induction false} ProperHistory(s: Settings, m: Memory, calls: seq<Call>, agent: string)
    ensures SpendLaws.ProperRefusals(History(s, m, calls, agent))
    decreases |calls|
  {
    if calls == [] {
    } else {
      SeenProper(s, m, calls[0], agent);
      ProperHistory(s, Done(s, m, calls[0]), calls[1..], agent);
      ProperJoin(Seen(s, m, calls[0], agent), History(s, Done(s, m, calls[0]), calls[1..], agent));
    }
  }

  lemma {:induction false} SeenProper(s: Settings, m: Memory, c: Call, agent: string)
    ensures SpendLaws.ProperRefusals(Seen(s, m, c, agent))
  {
  }

  lemma {:induction false} ProperJoin(x: seq<AgentLaws.Event>, y: seq<AgentLaws.Event>)
    requires SpendLaws.ProperRefusals(x) && SpendLaws.ProperRefusals(y)
    ensures SpendLaws.ProperRefusals(x + y)
  {
  }

  /** Over any interleaving of calls for any agents, an agent under a strict policy never
      spends past the larger of its start and the cap by more than what was charged to it
      after its last request was let through. */
  lemma {:induction false} AgentSpendNearCap(s: Settings, m: Memory, calls: seq<Call>, agent: string, cap: real)
    requires agent in m.states && SpendLaws.Strict(PolicyFor(s, m, agent), cap) && StrictCalls(calls, agent, cap)
    requires Spared(calls, agent)
    ensures agent in Run(s, m, calls).states
    ensures Run(s, m, calls).states[agent].spentUSD
            <= Max(m.states[agent].spentUSD, cap)
               + SpendLaws.LateCharges(s.addMonth, s.runaway, View(s, m, agent), History(s, m, calls, agent), 0.0)
  {
    EachAgentRunsAlone(s, m, calls, agent);
    StrictHistory(s, m, calls, agent, cap);
    ProperHistory(s, m, calls, agent);
    SpendLaws.SpendStaysNearCap(s.addMonth, s.runaway, View(s, m, agent), History(s, m, calls, agent), cap,
                                Max(m.states[agent].spentUSD, cap), 0.0);
  }

  /** What was charged to all agents since the last request any of them had let through. */
  function GlobalCharged(s: Settings, m: Memory, c: Call, sofar: real): real {
    match c
    case CheckC(_, estimate, now) =>
      if SpendLaws.Forwards(CheckedMemory(s, m, c.Agent(), estimate, now).decision) then 0.0 else sofar
    case RecordC(_, cost, _) => sofar + NonNegative(cost)
    case _ => sofar
  }

  function GlobalLate(s: Settings, m: Memory, calls: seq<Call>, sofar: real): real
    decreases |calls|
  {
    if calls == [] then sofar else GlobalLate(s, Done(s, m, calls[0]), calls[1..], GlobalCharged(s, m, calls[0], sofar))
  }

  /** A request is let through only if the cross-agent spend leaves room for its estimate. */
  lemma {:induction false} ForwardedWithinGlobal(s: Settings, m: Memory, agent: string, estimatedUSD: real, now: int)
    requires s.globalLimitUSD > 0.0
    ensures var checked := CheckedMemory(s, m, agent, estimatedUSD, now);
            SpendLaws.Forwards(checked.decision) ==> checked.memory.global.spentUSD + estimatedUSD <= s.globalLimitUSD
  {
    var policy, state := PolicyFor(s, m, agent), StateFor(s, m, agent, now);
    var refusal := RefusalAt(s, m, agent, estimatedUSD, now);
    SpendLaws.ForwardedExactly(s.addMonth, policy, s.runaway, state.(lastSeenAt := now), refusal, estimatedUSD, now);
  }

  lemma {:induction false} GlobalStepStaysNear(s: Settings, m: Memory, c: Call, bound: real, sofar: real)
    requires 0.0 < s.globalLimitUSD <= bound && sofar >= 0.0 && m.global.spentUSD <= bound + sofar
    requires c.CheckC? ==> c.estimatedUSD >= 0.0
    ensures GlobalCharged(s, m, c, sofar) >= 0.0
    ensures Done(s, m, c).global.spentUSD <= bound + GlobalCharged(s, m, c, sofar)
  {
    if c.CheckC? {
      ForwardedWithinGlobal(s, m, c.Agent(), c.estimatedUSD, c.now);
    }
  }

  lemma {:induction false} GlobalStaysNear(s: Settings, m: Memory, calls: seq<Call>, bound: real, sofar: real)
    requires 0.0 < s.globalLimitUSD <= bound && sofar >= 0.0 && m.global.spentUSD <= bound + sofar
    requires forall c | c in calls && c.CheckC? :: c.estimatedUSD >= 0.0
    ensures Run(s, m, calls).global.spentUSD <= bound + GlobalLate(s, m, calls, sofar)
    decreases |calls|
  {
    if calls == [] {
    } else {
      var c := calls[0];
      assert c in calls && forall x | x in calls[1..] :: x in calls;
      GlobalStepStaysNear(s, m, c, bound, sofar);
      GlobalStaysNear(s, Done(s, m, c), calls[1..], bound, GlobalCharged(s, m, c, sofar));
    }
  }

  /** The cross-agent spend passes the larger of its start and its limit by no more than
      what all agents were charged after the last request was let through. */
  lemma {:induction false} GlobalSpendNearLimit(s: Settings, m: Memory, calls: seq<Call>)
    requires s.globalLimitUSD > 0.0
    requires forall c | c in calls && c.CheckC? :: c.estimatedUSD >= 0.0
    ensures Run(s, m, calls).global.spentUSD <= Max(m.global.spentUSD, s.globalLimitUSD) + GlobalLate(s, m, calls, 0.0)
  {
    GlobalStaysNear(s, m, calls, Max(m.global.spentUSD, s.globalLimitUSD), 0.0);
  }

  /** A call leaves this agent's budget kill alone while its period lasts. */
  predicate QuietCall(c: Call, agent: string, deadline: int) {
    c.Agent() == agent ==> !c.EnableC? && !c.ResetC? && c.now < deadline
  }

  lemma {:induction false} QuietHistory(s: Settings, m: Memory, calls: seq<Call>, agent: string, deadline: int)
    requires forall c | c in calls :: QuietCall(c, agent, deadline)
    ensures forall e | e in History(s, m, calls, agent) :: AgentLaws.Quiet(e, deadline)
    decreases |calls|
  {
    if calls == [] {
    } else {
      assert calls[0] in calls && forall c | c in calls[1..] :: c in calls;
      QuietHistory(s, Done(s, m, calls[0]), calls[1..], agent, deadline);
    }
  }

  /** A budget kill too holds against every interleaving of calls for any agents, as long as
      the agent's period lasts. */
  lemma {:induction false} BudgetKilledStayOut(s: Settings, m: Memory, calls: seq<Call>, agent: string,
                                               estimatedUSD: real, now: int)
    requires agent in m.states && m.states[agent].killed && m.states[agent].reason != NoReason
             && m.states[agent].periodResetsAt != ZERO_TIME
    requires Spared(calls, agent)
    requires forall c | c in calls :: QuietCall(c, agent, m.states[agent].periodResetsAt)
    requires now < m.states[agent].periodResetsAt
    ensures CheckedMemory(s, Run(s, m, calls), agent, estimatedUSD, now).decision.action == Kill
  {
    var end := Run(s, m, calls);
    EachAgentRunsAlone(s, m, calls, agent);
    QuietHistory(s, m, calls, agent, m.states[agent].periodResetsAt);
    SpendLaws.KillAnswersThePeriod(s.addMonth, s.runaway, View(s, m, agent), History(s, m, calls, agent),
                                   RefusalAt(s, end, agent, estimatedUSD, now), estimatedUSD, now);
    CheckIsTheAgents(s, end, agent, estimatedUSD, now);
  }
}
