/**
 Conservation of money: what the agents, the cross-agent budget, the tasks and the
 cost sink each received, over any interleaving of requests being billed
 (internal/proxy/proxy.go, internal/budget/manager.go, internal/budget/tasks.go).
 */
module Money {
  import opened Dollars
  import opened Agents
  import opened Billing
  import opened Governor
  import opened Text
  import Tasks

  /** How far one response's billing has come. */
  datatype Stage = Priced | Recorded | SettledStage

  datatype Job = Job(record: CostRecord, hold: Option<nat>, stage: Stage)

  /** The manager, the tasks and the sink, with the billings under way. `lost` keeps
      the records whose task hold was gone when they were settled. */
  datatype Ledger = Ledger(
    memory: Memory,
    tasks: Tasks.System,
    sink: seq<CostRecord>,
    jobs: map<nat, Job>,
    issued: nat,
    lost: seq<CostRecord>)

  /** One step of one request: each takes the manager's lock, or the sink's, once. */
  datatype Event =
    | CheckE(agent: string, estimatedUSD: real, now: int)
    | ReserveE(taskID: string, agent: string, estimatedUSD: real, limits: Tasks.Limits, now: int)
    | ReleaseE(released: nat, now: int)
    | OperateE(agent: string, kill: bool, now: int)
    | BeginE(record: CostRecord, hold: Option<nat>)
    | RecordE(job: nat, now: int)
    | SettleE(job: nat, now: int)
    | EnqueueE(job: nat)

  /** A billing names a trimmed agent, and holds something exactly when it names a task. */
  ghost predicate Fits(tasks: Tasks.System, job: Job) {
    && Tasks.NormalizeAgent(job.record.agent) == job.record.agent
    && (job.hold.Some? <==> job.record.taskID != "")
    && (job.hold.Some? ==>
          && job.hold.value < tasks.issued
          && (job.hold.value in tasks.holds ==> tasks.holds[job.hold.value].taskID == job.record.taskID))
  }

  ghost function Step(s: Settings, l: Ledger, e: Event): Ledger {
    match e
    case CheckE(agent, estimate, now) => l.(memory := CheckedMemory(s, l.memory, agent, estimate, now).memory)
    case ReserveE(t, a, estimate, limits, now) =>
      l.(tasks := Tasks.Step(l.tasks, Tasks.Reserve(t, a, estimate, limits, now)))
    case ReleaseE(hold, now) => l.(tasks := Tasks.Step(l.tasks, Tasks.Release(hold, now)))
    case OperateE(agent, kill, now) =>
      var state := StateFor(s, l.memory, agent, now);
      l.(memory := WithState(l.memory, agent, if kill then Killed(state, now) else Enabled(state, now)))
    case BeginE(record, hold) =>
      var job := Job(record, hold, Priced);
      if Fits(l.tasks, job) then l.(jobs := l.jobs[l.issued := job], issued := l.issued + 1) else l
    case RecordE(j, now) =>
      if j !in l.jobs || l.jobs[j].stage != Priced then l
      else
        var record := l.jobs[j].record;
        l.(memory := RecordedMemory(s, l.memory, record.agent, record.costUSD, now),
           jobs := l.jobs[j := l.jobs[j].(stage := Recorded)])
    case SettleE(j, now) =>
      if j !in l.jobs || l.jobs[j].stage != Recorded then l
      else
        var job := l.jobs[j];
        var moved := l.(jobs := l.jobs[j := job.(stage := SettledStage)]);
        if job.hold.None? then moved
        else if job.hold.value !in l.tasks.holds then moved.(lost := l.lost + [job.record])
        else moved.(tasks := Tasks.Step(l.tasks, Tasks.Settle(job.hold.value, job.record.costUSD, now)))
    case EnqueueE(j) =>
      if j !in l.jobs || l.jobs[j].stage != SettledStage then l
      else l.(sink := l.sink + [l.jobs[j].record], jobs := l.jobs - {j})
  }

  ghost function Run(s: Settings, l: Ledger, events: seq<Event>): Ledger
    decreases |events|
  {
    if events == [] then l else Run(s, Step(s, l, events[0]), events[1..])
  }

  ghost predicate PeriodOpen(s: Settings, m: Memory, agent: string, now: int) {
    && now < StateFor(s, m, agent, now).periodResetsAt
    && (s.globalLimitUSD <= 0.0 || now < m.global.periodResetsAt)
  }

  /** No event of the run meets a lapsed period. */
  ghost predicate NoRollover(s: Settings, l: Ledger, events: seq<Event>)
    decreases |events|
  {
    events == []
    || (&& (events[0].CheckE? ==> PeriodOpen(s, l.memory, events[0].agent, events[0].now))
        && (events[0].RecordE? && events[0].job in l.jobs ==>
              PeriodOpen(s, l.memory, l.jobs[events[0].job].record.agent, events[0].now))
        && NoRollover(s, Step(s, l, events[0]), events[1..]))
  }

  // ---------- totals ----------

  /** Whose money is counted. */
  datatype Account = Everyone | OfAgent(agent: string) | OfTask(taskID: string)

  predicate Counts(a: Account, r: CostRecord) {
    match a
    case Everyone => true
    case OfAgent(agent) => r.agent == agent
    case OfTask(t) => r.taskID == t
  }

  function Billed(records: seq<CostRecord>, a: Account): real {
    if records == [] then 0.0
    else (if Counts(a, records[0]) then NonNegative(records[0].costUSD) else 0.0) + Billed(records[1..], a)
  }

  /** What is in the account: its spend, and for a task also what was lost to it. */
  function Deposited(l: Ledger, a: Account): real {
    match a
    case Everyone => l.memory.global.spentUSD
    case OfAgent(agent) => if agent in l.memory.states then l.memory.states[agent].spentUSD else 0.0
    case OfTask(t) => (if t in l.tasks.book then l.tasks.book[t].spentUSD else 0.0) + Billed(l.lost, a)
  }

  /** What a billing under way has deposited without having reached the sink. */
  function Due(job: Job, a: Account): real {
    if !Counts(a, job.record) then 0.0
    else if (if a.OfTask? then job.stage == SettledStage else job.stage != Priced) then NonNegative(job.record.costUSD)
    else 0.0
  }

  function Outstanding(jobs: map<nat, Job>, n: nat, a: Account): real {
    if n == 0 then 0.0 else Outstanding(jobs, n - 1, a) + if n - 1 in jobs then Due(jobs[n - 1], a) else 0.0
  }

  lemma {:induction false} BilledSnoc(records: seq<CostRecord>, r: CostRecord, a: Account)
    ensures Billed(records + [r], a) == Billed(records, a) + if Counts(a, r) then NonNegative(r.costUSD) else 0.0
  {
    if records == [] {
      assert (records + [r])[1..] == [];
    } else {
      assert (records + [r])[1..] == records[1..] + [r];
      BilledSnoc(records[1..], r, a);
    }
  }

  lemma {:induction false} OutstandingSame(x: map<nat, Job>, y: map<nat, Job>, n: nat, a: Account)
    requires forall j | j < n :: (j in x <==> j in y) && (j in x ==> x[j] == y[j])
    ensures Outstanding(x, n, a) == Outstanding(y, n, a)
  {
    if n == 0 {
    } else {
      OutstandingSame(x, y, n - 1, a);
    }
  }

  lemma {:induction false} OutstandingUpdate(jobs: map<nat, Job>, n: nat, j: nat, job: Job, a: Account)
    requires j in jobs && j < n
    ensures Outstanding(jobs[j := job], n, a) == Outstanding(jobs, n, a) - Due(jobs[j], a) + Due(job, a)
  {
    if j < n - 1 {
      OutstandingUpdate(jobs, n - 1, j, job, a);
    } else {
      OutstandingSame(jobs[j := job], jobs, n - 1, a);
    }
  }

  lemma {:induction false} OutstandingRemove(jobs: map<nat, Job>, n: nat, j: nat, a: Account)
    requires j in jobs && j < n
    ensures Outstanding(jobs - {j}, n, a) == Outstanding(jobs, n, a) - Due(jobs[j], a)
  {
    if j < n - 1 {
      OutstandingRemove(jobs, n - 1, j, a);
    } else {
      OutstandingSame(jobs - {j}, jobs, n - 1, a);
    }
  }

  lemma {:induction false} NothingOutstanding(n: nat, a: Account)
    ensures Outstanding(map[], n, a) == 0.0
  {
    if n == 0 {
    } else {
      NothingOutstanding(n - 1, a);
    }
  }

  // ---------- every step balances ----------

  ghost predicate JobsOk(l: Ledger) {
    && Tasks.HoldsOk(l.tasks)
    && forall j | j in l.jobs :: j < l.issued && Fits(l.tasks, l.jobs[j])
  }

  lemma CallKeepsFits(tasks: Tasks.System, e: Tasks.Event, job: Job)
    requires Tasks.HoldsOk(tasks) && Fits(tasks, job)
    ensures Fits(Tasks.Step(tasks, e), job)
  {
    Tasks.StepKeepsHolds(tasks, e);
  }

  lemma CallKeepsJobsOk(l: Ledger, e: Tasks.Event)
    requires JobsOk(l)
    ensures JobsOk(l.(tasks := Tasks.Step(l.tasks, e)))
  {
    Tasks.StepKeepsHolds(l.tasks, e);
    forall j | j in l.jobs
      ensures Fits(Tasks.Step(l.tasks, e), l.jobs[j])
    {
      CallKeepsFits(l.tasks, e, l.jobs[j]);
    }
  }

  lemma MoveKeepsJobsOk(l: Ledger, j: nat, stage: Stage)
    requires JobsOk(l) && j in l.jobs
    ensures JobsOk(l.(jobs := l.jobs[j := l.jobs[j].(stage := stage)]))
  {
    assert Fits(l.tasks, l.jobs[j].(stage := stage));
  }

  lemma StepKeepsJobsOk(s: Settings, l: Ledger, e: Event)
    requires JobsOk(l)
    ensures JobsOk(Step(s, l, e))
  {
    match e {
      case ReserveE(t, a, estimate, limits, now) => CallKeepsJobsOk(l, Tasks.Reserve(t, a, estimate, limits, now));
      case ReleaseE(hold, now) => CallKeepsJobsOk(l, Tasks.Release(hold, now));
      case RecordE(j, now) =>
        if j in l.jobs {
          MoveKeepsJobsOk(l, j, Recorded);
        }
      case SettleE(j, now) =>
        if j in l.jobs {
          var moved := l.(jobs := l.jobs[j := l.jobs[j].(stage := SettledStage)]);
          MoveKeepsJobsOk(l, j, SettledStage);
          if l.jobs[j].hold.Some? {
            CallKeepsJobsOk(moved, Tasks.Settle(l.jobs[j].hold.value, l.jobs[j].record.costUSD, now));
          }
        }
      case _ =>
    }
  }

  /** Where the account stands against what the sink and the billings under way say. */
  ghost function Surplus(l: Ledger, a: Account): real {
    Deposited(l, a) - Billed(l.sink, a) - Outstanding(l.jobs, l.issued, a)
  }

  lemma {:induction false} RecordBalances(s: Settings, l: Ledger, j: nat, now: int, a: Account)
    requires JobsOk(l) && j in l.jobs
    requires a.OfTask? || PeriodOpen(s, l.memory, l.jobs[j].record.agent, now)
    ensures Surplus(Step(s, l, RecordE(j, now)), a) == Surplus(l, a)
  {
    if l.jobs[j].stage == Priced {
      OutstandingUpdate(l.jobs, l.issued, j, l.jobs[j].(stage := Recorded), a);
    }
  }

  lemma {:induction false} SettleBalances(s: Settings, l: Ledger, j: nat, now: int, a: Account)
    requires JobsOk(l) && j in l.jobs && a != OfTask("")
    ensures Surplus(Step(s, l, SettleE(j, now)), a) == Surplus(l, a)
  {
    var job := l.jobs[j];
    if job.stage == Recorded {
      OutstandingUpdate(l.jobs, l.issued, j, job.(stage := SettledStage), a);
      if job.hold.Some? && job.hold.value !in l.tasks.holds {
        BilledSnoc(l.lost, job.record, a);
      }
    }
  }

  lemma {:induction false} EnqueueBalances(s: Settings, l: Ledger, j: nat, a: Account)
    requires JobsOk(l) && j in l.jobs
    ensures Surplus(Step(s, l, EnqueueE(j)), a) == Surplus(l, a)
  {
    if l.jobs[j].stage == SettledStage {
      OutstandingRemove(l.jobs, l.issued, j, a);
      BilledSnoc(l.sink, l.jobs[j].record, a);
    }
  }

  lemma {:induction false} BeginBalances(s: Settings, l: Ledger, record: CostRecord, hold: Option<nat>, a: Account)
    requires JobsOk(l)
    ensures Surplus(Step(s, l, BeginE(record, hold)), a) == Surplus(l, a)
  {
    var l' := Step(s, l, BeginE(record, hold));
    OutstandingSame(l.jobs, l'.jobs, l.issued, a);
  }

  lemma {:induction false} CheckSpendsNothing(s: Settings, l: Ledger, agent: string, estimatedUSD: real, now: int,
                                              a: Account)
    requires a.OfTask? || PeriodOpen(s, l.memory, agent, now)
    ensures Surplus(Step(s, l, CheckE(agent, estimatedUSD, now)), a) == Surplus(l, a)
  {
  }

  /** Each step moves the same amount on both sides of every account. */
  lemma {:induction false} StepBalances(s: Settings, l: Ledger, e: Event, a: Account)
    requires JobsOk(l) && (a.OfTask? || NoRollover(s, l, [e])) && a != OfTask("")
    ensures Surplus(Step(s, l, e), a) == Surplus(l, a)
  {
    match e {
      case CheckE(agent, estimate, now) => CheckSpendsNothing(s, l, agent, estimate, now, a);
      case BeginE(record, hold) => BeginBalances(s, l, record, hold, a);
      case RecordE(j, now) =>
        if j in l.jobs {
          RecordBalances(s, l, j, now, a);
        }
      case SettleE(j, now) =>
        if j in l.jobs {
          SettleBalances(s, l, j, now, a);
        }
      case EnqueueE(j) =>
        if j in l.jobs {
          EnqueueBalances(s, l, j, a);
        }
      case _ => OtherwiseBalanced(s, l, e, a);
    }
  }

  /** Reservations, releases, kills and enables move no money. */
  lemma {:induction false} OtherwiseBalanced(s: Settings, l: Ledger, e: Event, a: Account)
    requires JobsOk(l) && (e.ReserveE? || e.ReleaseE? || e.OperateE?)
    requires a.OfTask? || NoRollover(s, l, [e])
    ensures Surplus(Step(s, l, e), a) == Surplus(l, a)
  {
  }

  /** At every point of every run, each task's spend, with what was lost to it, and while
      no period lapses each agent's and the cross-agent spend, have grown by what the
      sink received and what is still on its way there. */
  lemma {:induction false} RunBalances(s: Settings, l: Ledger, events: seq<Event>, a: Account)
    requires JobsOk(l) && (a.OfTask? || NoRollover(s, l, events)) && a != OfTask("")
    ensures JobsOk(Run(s, l, events))
    ensures Surplus(Run(s, l, events), a) == Surplus(l, a)
    decreases |events|
  {
    if events == [] {
    } else {
      assert NoRollover(s, l, events) ==> NoRollover(s, l, [events[0]]);
      StepKeepsJobsOk(s, l, events[0]);
      StepBalances(s, l, events[0], a);
      RunBalances(s, Step(s, l, events[0]), events[1..], a);
    }
  }

  predicate Quiescent(l: Ledger) {
    l.jobs == map[]
  }

  /** Between two moments with no billing under way, every account grew by exactly
      what the sink received for it; a task by that less what was lost to it. */
  lemma Conservation(s: Settings, l: Ledger, events: seq<Event>, a: Account)
    requires JobsOk(l) && (a.OfTask? || NoRollover(s, l, events)) && a != OfTask("")
    requires Quiescent(l) && Quiescent(Run(s, l, events))
    ensures var end := Run(s, l, events);
            Deposited(end, a) - Deposited(l, a) == Billed(end.sink, a) - Billed(l.sink, a)
  {
    RunBalances(s, l, events, a);
    NothingOutstanding(l.issued, a);
    NothingOutstanding(Run(s, l, events).issued, a);
  }

  // ---------- tasks get what they are billed ----------

  function TaskSpend(l: Ledger, t: string): real {
    if t in l.tasks.book then l.tasks.book[t].spentUSD else 0.0
  }

  lemma {:induction false} RunExtends(s: Settings, l: Ledger, events: seq<Event>)
    ensures l.lost <= Run(s, l, events).lost && l.sink <= Run(s, l, events).sink
    decreases |events|
  {
    if events == [] {
    } else {
      StepExtends(s, l, events[0]);
      RunExtends(s, Step(s, l, events[0]), events[1..]);
    }
  }

  lemma {:induction false} StepExtends(s: Settings, l: Ledger, e: Event)
    ensures l.lost <= Step(s, l, e).lost && l.sink <= Step(s, l, e).sink
  {
  }

  /** What was added to a log that only grows. */
  function Added(before: seq<CostRecord>, after: seq<CostRecord>): seq<CostRecord> {
    if |before| <= |after| then after[|before|..] else []
  }

  lemma {:induction false} BilledConcat(x: seq<CostRecord>, y: seq<CostRecord>, a: Account)
    ensures Billed(x + y, a) == Billed(x, a) + Billed(y, a)
  {
    if x == [] {
      assert x + y == y;
    } else {
      assert (x + y)[1..] == x[1..] + y;
      BilledConcat(x[1..], y, a);
    }
  }

  lemma {:induction false} BilledAdded(before: seq<CostRecord>, after: seq<CostRecord>, a: Account)
    requires before <= after
    ensures Billed(after, a) - Billed(before, a) == Billed(Added(before, after), a)
  {
    assert after == before + Added(before, after);
    BilledConcat(before, Added(before, after), a);
  }

  lemma {:induction false} BilledNothing(records: seq<CostRecord>, a: Account)
    ensures Billed(records, a) >= 0.0
    ensures Billed(records, a) == 0.0 <==> forall r | r in records && Counts(a, r) :: r.costUSD <= 0.0
  {
    if records == [] {
    } else {
      BilledNothing(records[1..], a);
      assert records == [records[0]] + records[1..];
    }
  }

  /** Between two moments with no billing under way, a task's spend has grown by the sink's
      records that name it exactly when no such record that cost anything was settled on a
      hold already gone. */
  lemma {:induction false} TaskGetsItsBills(s: Settings, l: Ledger, events: seq<Event>, t: string)
    requires JobsOk(l) && t != "" && Quiescent(l) && Quiescent(Run(s, l, events))
    ensures var end := Run(s, l, events);
            TaskSpend(end, t) - TaskSpend(l, t) == Billed(end.sink, OfTask(t)) - Billed(l.sink, OfTask(t))
            <==> forall r | r in Added(l.lost, end.lost) && r.taskID == t :: r.costUSD <= 0.0
  {
    var end, a := Run(s, l, events), OfTask(t);
    RunExtends(s, l, events);
    Conservation(s, l, events, a);
    BilledAdded(l.lost, end.lost, a);
    BilledNothing(Added(l.lost, end.lost), a);
  }

  /** A billing starts on a hold that is outstanding and that no other billing has, and a
      hold is released only once no billing still has to settle it. */
  ghost predicate OrderlyStep(l: Ledger, e: Event) {
    match e
    case BeginE(_, hold) =>
      hold.Some? ==> hold.value in l.tasks.holds && forall j | j in l.jobs :: l.jobs[j].hold != hold
    case ReleaseE(released, _) =>
      forall j | j in l.jobs && l.jobs[j].hold == Some(released) :: l.jobs[j].stage == SettledStage
    case _ => true
  }

  ghost predicate Orderly(s: Settings, l: Ledger, events: seq<Event>)
    decreases |events|
  {
    events == [] || (OrderlyStep(l, events[0]) && Orderly(s, Step(s, l, events[0]), events[1..]))
  }

  ghost predicate ToSettle(l: Ledger, j: nat) {
    j in l.jobs && l.jobs[j].hold.Some? && l.jobs[j].stage != SettledStage
  }

  /** Every billing still to be settled has its hold, and has it alone. */
  ghost predicate Ready(l: Ledger) {
    && (forall j | j in l.jobs :: j < l.issued)
    && (forall j | ToSettle(l, j) :: l.jobs[j].hold.value in l.tasks.holds)
    && (forall j, k | ToSettle(l, j) && ToSettle(l, k) && j != k :: l.jobs[j].hold != l.jobs[k].hold)
    && (forall id | id in l.tasks.holds :: id < l.tasks.issued)
  }

  lemma {:induction false} SettleStaysReady(s: Settings, l: Ledger, j: nat, now: int)
    requires Ready(l)
    ensures Ready(Step(s, l, SettleE(j, now))) && Step(s, l, SettleE(j, now)).lost == l.lost
  {
    var l' := Step(s, l, SettleE(j, now));
    if j in l.jobs && l.jobs[j].stage == Recorded {
      assert l.jobs[j].hold.Some? ==> ToSettle(l, j);
      assert forall k | ToSettle(l', k) :: ToSettle(l, k) && k != j;
    }
  }

  lemma {:induction false} MoveStaysReady(s: Settings, l: Ledger, e: Event)
    requires Ready(l) && (e.RecordE? || e.EnqueueE?)
    ensures Ready(Step(s, l, e)) && Step(s, l, e).lost == l.lost
  {
    var l' := Step(s, l, e);
    assert forall k | ToSettle(l', k) :: ToSettle(l, k) && l'.jobs[k].hold == l.jobs[k].hold;
  }

  lemma {:induction false} CallStaysReady(s: Settings, l: Ledger, e: Event)
    requires Ready(l) && OrderlyStep(l, e) && (e.ReserveE? || e.ReleaseE?)
    ensures Ready(Step(s, l, e)) && Step(s, l, e).lost == l.lost
  {
    var l' := Step(s, l, e);
    assert forall k | ToSettle(l', k) :: ToSettle(l, k) && l'.jobs[k].hold == l.jobs[k].hold;
  }

  lemma {:induction false} BeginStaysReady(s: Settings, l: Ledger, e: Event)
    requires Ready(l) && OrderlyStep(l, e) && e.BeginE?
    ensures Ready(Step(s, l, e)) && Step(s, l, e).lost == l.lost
  {
    var l' := Step(s, l, e);
    assert forall k | ToSettle(l', k) :: ToSettle(l, k) || k == l.issued;
  }

  lemma {:induction false} StepStaysReady(s: Settings, l: Ledger, e: Event)
    requires Ready(l) && OrderlyStep(l, e)
    ensures Ready(Step(s, l, e)) && Step(s, l, e).lost == l.lost
  {
    match e
    case CheckE(_, _, _) => SameJobsReady(l, Step(s, l, e));
    case OperateE(_, _, _) => SameJobsReady(l, Step(s, l, e));
    case ReserveE(_, _, _, _, _) => CallStaysReady(s, l, e);
    case ReleaseE(_, _) => CallStaysReady(s, l, e);
    case BeginE(_, _) => BeginStaysReady(s, l, e);
    case RecordE(_, _) => MoveStaysReady(s, l, e);
    case SettleE(j, now) => SettleStaysReady(s, l, j, now);
    case EnqueueE(_) => MoveStaysReady(s, l, e);
  }

  lemma {:induction false} SameJobsReady(l: Ledger, l': Ledger)
    requires Ready(l) && l' == l.(memory := l'.memory)
    ensures Ready(l')
  {
    assert forall k | ToSettle(l', k) :: ToSettle(l, k);
  }

  lemma {:induction false} OrderlyLosesNothing(s: Settings, l: Ledger, events: seq<Event>)
    requires Ready(l) && Orderly(s, l, events)
    ensures Run(s, l, events).lost == l.lost
    decreases |events|
  {
    if events == [] {
    } else {
      StepStaysReady(s, l, events[0]);
      OrderlyLosesNothing(s, Step(s, l, events[0]), events[1..]);
    }
  }

  /** When every body is billed before its request's hold is released, each task's spend
      grows by exactly the sink's records that name it, through any rollover. */
  lemma {:induction false} BilledBeforeRelease(s: Settings, l: Ledger, events: seq<Event>, t: string)
    requires JobsOk(l) && t != "" && Quiescent(l) && Quiescent(Run(s, l, events))
    requires Orderly(s, l, events)
    ensures var end := Run(s, l, events);
            TaskSpend(end, t) - TaskSpend(l, t) == Billed(end.sink, OfTask(t)) - Billed(l.sink, OfTask(t))
  {
    assert forall id | id in l.tasks.holds :: id < l.tasks.issued;
    OrderlyLosesNothing(s, l, events);
    TaskGetsItsBills(s, l, events, t);
  }

  /** A body billed after the release: the sink has its cost and the task does not. */
  lemma LateBillingLosesMoney(s: Settings, memory: Memory)
    ensures var record := CostRecord("a", "t", "m", 1, 1, 1.0);
            var l := Ledger(memory, Tasks.System(map[], map[], 0), [], map[], 0, []);
            var end := Run(s, l,
                           [ReserveE("t", "a", 1.0, Tasks.Limits(0.0, map[]), 1), BeginE(record, Some(0)),
                            RecordE(0, 2), ReleaseE(0, 3), SettleE(0, 4), EnqueueE(0)]);
            JobsOk(l) && Quiescent(l) && Quiescent(end) && TaskSpend(end, "t") == 0.0 && end.sink == [record]
  {
    LateRun(s, memory, "a", "t", CostRecord("a", "t", "m", 1, 1, 1.0));
  }

  lemma {:induction false} LateRun(s: Settings, memory: Memory, a: string, t: string, record: CostRecord)
    requires |t| == 1 && 'a' <= t[0] <= 'z' && |a| == 1 && 'a' <= a[0] <= 'z'
    requires record.agent == a && record.taskID == t
    ensures var l := Ledger(memory, Tasks.System(map[], map[], 0), [], map[], 0, []);
            var end := Run(s, l,
                           [ReserveE(t, a, 1.0, Tasks.Limits(0.0, map[]), 1), BeginE(record, Some(0)), RecordE(0, 2),
                            ReleaseE(0, 3), SettleE(0, 4), EnqueueE(0)]);
            JobsOk(l) && Quiescent(l) && Quiescent(end) && TaskSpend(end, t) == 0.0 && end.sink == [record]
  {
    var l := Ledger(memory, Tasks.System(map[], map[], 0), [], map[], 0, []);
    var head := [ReserveE(t, a, 1.0, Tasks.Limits(0.0, map[]), 1), BeginE(record, Some(0))];
    var tail := [RecordE(0, 2), ReleaseE(0, 3), SettleE(0, 4), EnqueueE(0)];
    LateStart(s, l, a, t, record);
    LateTail(s, Run(s, l, head), t, record);
    RunSplits(s, l, head, tail);
    assert head + tail == [head[0], head[1], tail[0], tail[1], tail[2], tail[3]];
  }

  lemma {:induction false} LateStart(s: Settings, l: Ledger, a: string, t: string, record: CostRecord)
    requires |t| == 1 && 'a' <= t[0] <= 'z' && |a| == 1 && 'a' <= a[0] <= 'z'
    requires record.agent == a && record.taskID == t
    requires l.tasks == Tasks.System(map[], map[], 0) && l.jobs == map[] && l.issued == 0 && l.sink == []
    ensures var l2 := Run(s, l, [ReserveE(t, a, 1.0, Tasks.Limits(0.0, map[]), 1), BeginE(record, Some(0))]);
            && l2.tasks.holds == map[0 := Tasks.Hold(t, a, 1.0)] && l2.jobs == map[0 := Job(record, Some(0), Priced)]
               && l2.sink == []
            && t in l2.tasks.book && l2.tasks.book[t].spentUSD == 0.0
  {
    TrimPlain(t);
    TrimPlain(a);
    var l1 := Step(s, l, ReserveE(t, a, 1.0, Tasks.Limits(0.0, map[]), 1));
    assert l1.tasks.holds == map[0 := Tasks.Hold(t, a, 1.0)] && l1.tasks.book[t].spentUSD == 0.0;
    var l2 := Step(s, l1, BeginE(record, Some(0)));
    RunVisits(s, [l, l1, l2], [ReserveE(t, a, 1.0, Tasks.Limits(0.0, map[]), 1), BeginE(record, Some(0))]);
  }

  lemma {:induction false} LateTail(s: Settings, l: Ledger, t: string, record: CostRecord)
    requires l.jobs == map[0 := Job(record, Some(0), Priced)] && l.sink == []
    requires 0 in l.tasks.holds && l.tasks.holds.Keys == {0} && l.tasks.holds[0].taskID == t
    requires t in l.tasks.book && l.tasks.book[t].spentUSD == 0.0
    ensures var end := Run(s, l, [RecordE(0, 2), ReleaseE(0, 3), SettleE(0, 4), EnqueueE(0)]);
            Quiescent(end) && TaskSpend(end, t) == 0.0 && end.sink == [record]
  {
    var x, y := [RecordE(0, 2), ReleaseE(0, 3)], [SettleE(0, 4), EnqueueE(0)];
    LateRelease(s, l, t, record);
    LateEnd(s, Run(s, l, x), t, record);
    RunSplits(s, l, x, y);
    assert x + y == [x[0], x[1], y[0], y[1]];
  }

  lemma {:induction false} LateRelease(s: Settings, l: Ledger, t: string, record: CostRecord)
    requires l.jobs == map[0 := Job(record, Some(0), Priced)] && l.sink == []
    requires 0 in l.tasks.holds && l.tasks.holds.Keys == {0} && l.tasks.holds[0].taskID == t
    requires t in l.tasks.book && l.tasks.book[t].spentUSD == 0.0
    ensures var after := Run(s, l, [RecordE(0, 2), ReleaseE(0, 3)]);
            && after.jobs == map[0 := Job(record, Some(0), Recorded)] && after.sink == []
            && after.tasks.holds == map[] && t in after.tasks.book && after.tasks.book[t].spentUSD == 0.0
  {
    var l3 := Step(s, l, RecordE(0, 2));
    assert l3.jobs == map[0 := Job(record, Some(0), Recorded)] && l3.tasks == l.tasks;
    var l4 := Step(s, l3, ReleaseE(0, 3));
    assert l4.tasks.holds == map[] && l4.tasks.book[t].spentUSD == 0.0;
    RunVisits(s, [l, l3, l4], [RecordE(0, 2), ReleaseE(0, 3)]);
  }

  lemma {:induction false} LateEnd(s: Settings, l: Ledger, t: string, record: CostRecord)
    requires l.jobs == map[0 := Job(record, Some(0), Recorded)] && l.sink == []
    requires l.tasks.holds == map[] && t in l.tasks.book && l.tasks.book[t].spentUSD == 0.0
    ensures var end := Run(s, l, [SettleE(0, 4), EnqueueE(0)]);
            Quiescent(end) && TaskSpend(end, t) == 0.0 && end.sink == [record]
  {
    var l5 := Step(s, l, SettleE(0, 4));
    assert l5.jobs == map[0 := Job(record, Some(0), SettledStage)] && l5.tasks == l.tasks;
    var l6 := Step(s, l5, EnqueueE(0));
    assert l6.jobs == map[];
    RunVisits(s, [l, l5, l6], [SettleE(0, 4), EnqueueE(0)]);
  }

  lemma {:induction false} RunSplits(s: Settings, l: Ledger, head: seq<Event>, tail: seq<Event>)
    ensures Run(s, l, head + tail) == Run(s, Run(s, l, head), tail)
    decreases |head|
  {
    if head == [] {
      assert head + tail == tail;
    } else {
      assert (head + tail)[1..] == head[1..] + tail;
      RunSplits(s, Step(s, l, head[0]), head[1..], tail);
    }
  }

  /** A run is wherever its steps lead, one after another. */
  lemma {:induction false} RunVisits(s: Settings, ledgers: seq<Ledger>, events: seq<Event>)
    requires |ledgers| == |events| + 1
    requires forall i | 0 <= i < |events| :: ledgers[i + 1] == Step(s, ledgers[i], events[i])
    ensures Run(s, ledgers[0], events) == ledgers[|events|]
    decreases |events|
  {
    if events == [] {
    } else {
      RunVisits(s, ledgers[1..], events[1..]);
    }
  }

  // ---------- agents together, and raw costs ----------

  function SumOf(records: seq<CostRecord>, agents: seq<string>): real {
    if agents == [] then 0.0 else Billed(records, OfAgent(agents[0])) + SumOf(records, agents[1..])
  }

  ghost predicate Distinct(agents: seq<string>) {
    forall i, j | 0 <= i < j < |agents| :: agents[i] != agents[j]
  }

  lemma {:induction false} SumOfCons(r: CostRecord, records: seq<CostRecord>, agents: seq<string>)
    requires Distinct(agents)
    ensures SumOf([r] + records, agents)
            == SumOf(records, agents)
               + if r.agent in agents then NonNegative(r.costUSD) else 0.0
  {
    if agents == [] {
    } else {
      assert ([r] + records)[1..] == records;
      assert agents == [agents[0]] + agents[1..];
      SumOfCons(r, records, agents[1..]);
    }
  }

  lemma {:induction false} SharesAddUp(records: seq<CostRecord>, agents: seq<string>)
    requires Distinct(agents) && forall r | r in records :: r.agent in agents
    ensures SumOf(records, agents) == Billed(records, Everyone)
  {
    if records == [] {
      NoRecords(agents);
    } else {
      assert records == [records[0]] + records[1..];
      SharesAddUp(records[1..], agents);
      SumOfCons(records[0], records[1..], agents);
      assert records[0] in records;
    }
  }

  /** How much the agents' spend has grown, all together. */
  function Growth(l: Ledger, end: Ledger, agents: seq<string>): real {
    if agents == [] then 0.0
    else Deposited(end, OfAgent(agents[0])) - Deposited(l, OfAgent(agents[0])) + Growth(l, end, agents[1..])
  }

  lemma {:induction false} GrowthIsBilled(s: Settings, l: Ledger, events: seq<Event>, agents: seq<string>)
    requires JobsOk(l) && NoRollover(s, l, events) && Quiescent(l) && Quiescent(Run(s, l, events))
    requires l.sink <= Run(s, l, events).sink
    ensures Growth(l, Run(s, l, events), agents) == SumOf(Added(l.sink, Run(s, l, events).sink), agents)
    decreases |agents|
  {
    if agents == [] {
    } else {
      Conservation(s, l, events, OfAgent(agents[0]));
      BilledAdded(l.sink, Run(s, l, events).sink, OfAgent(agents[0]));
      GrowthIsBilled(s, l, events, agents[1..]);
    }
  }

  /** Over any run without rollover or reset, what the agents spent adds up to what the
      cross-agent budget grew by, and to what the sink received. */
  lemma {:induction false} AgentsAddUp(s: Settings, l: Ledger, events: seq<Event>, agents: seq<string>)
    requires JobsOk(l) && NoRollover(s, l, events) && Quiescent(l) && Quiescent(Run(s, l, events))
    requires Distinct(agents) && forall r | r in Added(l.sink, Run(s, l, events).sink) :: r.agent in agents
    ensures var end := Run(s, l, events);
            && Growth(l, end, agents) == end.memory.global.spentUSD - l.memory.global.spentUSD
            && Growth(l, end, agents) == Billed(end.sink, Everyone) - Billed(l.sink, Everyone)
  {
    var end := Run(s, l, events);
    RunExtends(s, l, events);
    GrowthIsBilled(s, l, events, agents);
    SharesAddUp(Added(l.sink, end.sink), agents);
    BilledAdded(l.sink, end.sink, Everyone);
    Conservation(s, l, events, Everyone);
  }

  lemma {:induction false} NoRecords(agents: seq<string>)
    ensures SumOf([], agents) == 0.0
  {
    if agents == [] {
    } else {
      NoRecords(agents[1..]);
    }
  }

  /** The costs as the sink's records carry them, negative ones included. */
  function Raw(records: seq<CostRecord>, a: Account): real {
    if records == [] then 0.0
    else (if Counts(a, records[0]) then records[0].costUSD else 0.0) + Raw(records[1..], a)
  }

  /** Budgets count a negative cost as zero and the sink does not, so the sink's own
      sum is what was deposited exactly when no counted record is negative. */
  lemma {:induction false} RawIsBilled(records: seq<CostRecord>, a: Account)
    ensures Raw(records, a) <= Billed(records, a)
    ensures Raw(records, a) == Billed(records, a) <==> forall r | r in records && Counts(a, r) :: r.costUSD >= 0.0
  {
    if records == [] {
    } else {
      RawIsBilled(records[1..], a);
      assert records == [records[0]] + records[1..];
    }
  }

  // ---------- the sink's own sums ----------

  /** The price table as configuration validation admits it. */
  ghost predicate Validated(prices: Prices) {
    forall model :: prices(model).Some? ==> prices(model).value.0 >= 0.0 && prices(model).value.1 >= 0.0
  }

  ghost predicate PricedBy(prices: Prices, r: CostRecord) {
    PricedAt(prices, r.model, r.inputTokens, r.outputTokens, r.costUSD)
  }

  ghost predicate AllPriced(prices: Prices, l: Ledger, sinkBefore: seq<CostRecord>) {
    && sinkBefore <= l.sink
    && (forall r | r in Added(sinkBefore, l.sink) :: PricedBy(prices, r))
    && forall j | j in l.jobs :: PricedBy(prices, l.jobs[j].record)
  }

  lemma {:induction false} StepStaysPriced(s: Settings, prices: Prices, l: Ledger, e: Event,
                                           sinkBefore: seq<CostRecord>)
    requires AllPriced(prices, l, sinkBefore) && (e.BeginE? ==> PricedBy(prices, e.record))
    ensures AllPriced(prices, Step(s, l, e), sinkBefore)
  {
    var l' := Step(s, l, e);
    if e.EnqueueE? && l' != l {
      assert Added(sinkBefore, l'.sink) == Added(sinkBefore, l.sink) + [l.jobs[e.job].record];
    }
  }

  lemma {:induction false} RunStaysPriced(s: Settings, prices: Prices, l: Ledger, events: seq<Event>,
                                          sinkBefore: seq<CostRecord>)
    requires AllPriced(prices, l, sinkBefore) && forall e | e in events && e.BeginE? :: PricedBy(prices, e.record)
    ensures AllPriced(prices, Run(s, l, events), sinkBefore)
    decreases |events|
  {
    if events == [] {
    } else {
      assert events[0] in events && forall e | e in events[1..] :: e in events;
      StepStaysPriced(s, prices, l, events[0], sinkBefore);
      RunStaysPriced(s, prices, Step(s, l, events[0]), events[1..], sinkBefore);
    }
  }

  lemma {:induction false} RawConcat(x: seq<CostRecord>, y: seq<CostRecord>, a: Account)
    ensures Raw(x + y, a) == Raw(x, a) + Raw(y, a)
  {
    if x == [] {
      assert x + y == y;
    } else {
      assert (x + y)[1..] == x[1..] + y;
      RawConcat(x[1..], y, a);
    }
  }

  lemma {:induction false} PricedIsBilled(prices: Prices, records: seq<CostRecord>, a: Account)
    requires Validated(prices) && forall r | r in records :: PricedBy(prices, r)
    ensures Raw(records, a) == Billed(records, a)
  {
    forall r | r in records && Counts(a, r) ensures r.costUSD >= 0.0 {
      PriceNonNegative(prices, r.model, r.inputTokens, r.outputTokens, r.costUSD);
    }
    RawIsBilled(records, a);
  }

  /** With a validated price table the costs handed to the sink add up, as they stand, to what
      every budget grew by: agents and the cross-agent budget while no period lapses, and
      tasks whenever bodies are billed before their holds are released. */
  lemma {:induction false} SinkMatchesBudgets(s: Settings, prices: Prices, l: Ledger, events: seq<Event>, a: Account)
    requires JobsOk(l) && Quiescent(l) && Quiescent(Run(s, l, events)) && a != OfTask("")
    requires Validated(prices) && forall e | e in events && e.BeginE? :: PricedBy(prices, e.record)
    requires if a.OfTask? then Orderly(s, l, events) else NoRollover(s, l, events)
    ensures var end := Run(s, l, events);
            Raw(end.sink, a) - Raw(l.sink, a)
            == if a.OfTask? then TaskSpend(end, a.taskID) - TaskSpend(l, a.taskID)
               else Deposited(end, a) - Deposited(l, a)
  {
    var end := Run(s, l, events);
    assert Added(l.sink, l.sink) == [];
    RunStaysPriced(s, prices, l, events, l.sink);
    var added := Added(l.sink, end.sink);
    assert end.sink == l.sink + added;
    RawConcat(l.sink, added, a);
    PricedIsBilled(prices, added, a);
    BilledAdded(l.sink, end.sink, a);
    if a.OfTask? {
      BilledBeforeRelease(s, l, events, a.taskID);
    } else {
      Conservation(s, l, events, a);
    }
  }
}
