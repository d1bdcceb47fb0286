/**
 Lifetime task caps: reservations held against a cap, and what becomes of them
 (internal/budget/tasks.go).
 */
module Tasks {
  import opened Dollars
  import opened Text

  const UNKNOWN_AGENT := "unknown"

  datatype TaskState = TaskState(
    spentUSD: real,
    reservedUSD: real,
    limitUSD: real,
    requestCount: int,
    inFlight: int,
    lastAgent: string,
    firstSeenAt: int,
    lastSeenAt: int,
    dirty: bool)

  type Book = map<string, TaskState>

  /** The per-agent task caps in force, over the gate's own. */
  datatype Limits = Limits(gate: real, perAgent: map<string, real>)

  datatype TaskDecision = TaskDecision(
    allowed: bool,
    enforced: bool,
    taskID: string,
    agent: string,
    limitUSD: real,
    spentUSD: real,
    reservedUSD: real,
    projectedUSD: real)

  /** The estimate one request holds against a task. */
  datatype Hold = Hold(taskID: string, agent: string, estimatedUSD: real)

  function NormalizeAgent(agent: string): string {
    var trimmed := TrimSpace(agent);
    if trimmed == "" then UNKNOWN_AGENT else trimmed
  }

  /** An agent is known by its trimmed name, which is never blank: a blank one is "unknown". */
  lemma {:induction false} NamesAgree(agent: string)
    ensures NormalizeAgent(agent) == if TrimSpace(agent) == "" then "unknown" else TrimSpace(agent)
    ensures NormalizeAgent(agent) != "" && NormalizeAgent(NormalizeAgent(agent)) == NormalizeAgent(agent)
  {
    TrimSpaceIsTight(agent);
    TrimPlain(UNKNOWN_AGENT);
  }

  function TaskLimit(limits: Limits, agent: string): real {
    if agent in limits.perAgent && limits.perAgent[agent] > 0.0 then limits.perAgent[agent] else limits.gate
  }

  // ---------- one operation on the book ----------

  function StateOf(book: Book, taskID: string, now: int): TaskState {
    if taskID in book then book[taskID]
    else TaskState(0.0, 0.0, 0.0, 0, 0, "", now, now, false)
  }

  function Projected(book: Book, hold: Hold, now: int): real {
    var state := StateOf(book, hold.taskID, now);
    state.spentUSD + state.reservedUSD + hold.estimatedUSD
  }

  predicate Refused(book: Book, hold: Hold, limit: real, now: int) {
    limit > 0.0 && Projected(book, hold, now) > limit
  }

  /** The book after a reservation attempt. A refused attempt still leaves the
      task behind, with nothing spent or held. */
  function Reserved(book: Book, hold: Hold, limit: real, now: int): Book {
    var state := StateOf(book, hold.taskID, now);
    if Refused(book, hold, limit, now) then book[hold.taskID := state]
    else
      book[hold.taskID := state.(
        reservedUSD := state.reservedUSD + hold.estimatedUSD,
        inFlight := state.inFlight + 1,
        lastSeenAt := now,
        lastAgent := hold.agent,
        limitUSD := if limit > 0.0 then limit else state.limitUSD)]
  }

  /** The book after a hold is dropped, billed or not. */
  function Settled(book: Book, hold: Hold, costUSD: real, billed: bool, now: int): Book {
    var state := StateOf(book, hold.taskID, now);
    var inFlight := if state.inFlight > 0 then state.inFlight - 1 else state.inFlight;
    var remaining := state.reservedUSD - hold.estimatedUSD;
    var dropped := state.(
      inFlight := inFlight,
      reservedUSD := if remaining < 0.0 || inFlight == 0 then 0.0 else remaining);
    book[hold.taskID :=
      if !billed then dropped
      else dropped.(
        spentUSD := state.spentUSD + NonNegative(costUSD),
        requestCount := state.requestCount + 1,
        lastSeenAt := now,
        lastAgent := hold.agent,
        dirty := true)]
  }

  function ResetOf(state: TaskState, now: int): TaskState {
    state.(spentUSD := 0.0, requestCount := 0, lastSeenAt := now, dirty := true)
  }

  /** What a reservation attempt reports. */
  predicate Decides(decision: TaskDecision, book: Book, hold: Hold, limit: real, now: int) {
    && decision.allowed == !Refused(book, hold, limit, now)
    && decision.enforced == (limit > 0.0)
    && decision.limitUSD == limit
    && decision.projectedUSD == Projected(book, hold, now)
    && decision.spentUSD == StateOf(book, hold.taskID, now).spentUSD
    && decision.reservedUSD == StateOf(book, hold.taskID, now).reservedUSD
    && decision.taskID == hold.taskID && decision.agent == hold.agent
  }

  // ---------- what the operations mean ----------

  /** What the task has spent and reserved, and the estimate. */
  ghost function TotalWith(book: Book, taskID: string, estimateUSD: real): real {
    (if taskID in book then book[taskID].spentUSD + book[taskID].reservedUSD else 0.0) + Max(estimateUSD, 0.0)
  }

  /** Money, requests and flags of one task; a task nobody has named has none. */
  datatype Account = Account(spentUSD: real, reservedUSD: real, requestCount: int, inFlight: int, dirty: bool)

  ghost function AccountOf(book: Book, taskID: string): Account {
    if taskID in book
    then Account(book[taskID].spentUSD, book[taskID].reservedUSD, book[taskID].requestCount, book[taskID].inFlight,
                 book[taskID].dirty)
    else Account(0.0, 0.0, 0, 0, false)
  }

  ghost predicate SpendsNothing(before: Book, after: Book) {
    forall t :: AccountOf(after, t) == AccountOf(before, t)
  }

  ghost predicate OthersKeep(before: Book, after: Book, taskID: string) {
    forall t | t != taskID :: (t in after <==> t in before) && (t in before ==> after[t] == before[t])
  }

  /** The task has one more request in flight, holding its estimate; nothing else moves. */
  ghost predicate Holds(before: Book, after: Book, taskID: string, agent: string, estimateUSD: real, now: int) {
    var x, y := AccountOf(before, taskID), AccountOf(after, taskID);
    && OthersKeep(before, after, taskID)
    && y == x.(reservedUSD := x.reservedUSD + Max(estimateUSD, 0.0), inFlight := x.inFlight + 1)
    && taskID in after && after[taskID].lastAgent == agent && after[taskID].lastSeenAt == now
  }

  /** The task's hold is gone; if billed, its cost and one request are added and it is marked. */
  ghost predicate Drops(before: Book, after: Book, hold: Hold, costUSD: real, billed: bool, now: int) {
    var x, y := AccountOf(before, hold.taskID), AccountOf(after, hold.taskID);
    && OthersKeep(before, after, hold.taskID)
    && y.spentUSD == x.spentUSD + (if billed then Max(costUSD, 0.0) else 0.0)
    && y.requestCount == x.requestCount + (if billed then 1 else 0)
    && y.dirty == (x.dirty || billed)
    && y.inFlight == (if x.inFlight > 0 then x.inFlight - 1 else x.inFlight)
    && y.reservedUSD == (if y.inFlight == 0 then 0.0 else Max(x.reservedUSD - hold.estimatedUSD, 0.0))
    && hold.taskID in after
    && (billed ==> after[hold.taskID].lastAgent == hold.agent && after[hold.taskID].lastSeenAt == now)
  }

  /** The agent's own positive cap leaves room for the estimate, or without one the gate's does. */
  ghost predicate FitsTables(gate: real, perAgent: map<string, real>, book: Book, agent: string, taskID: string,
                             estimateUSD: real)
  {
    var total := TotalWith(book, taskID, estimateUSD);
    if agent in perAgent && perAgent[agent] > 0.0 then total <= perAgent[agent] else gate <= 0.0 || total <= gate
  }

  lemma {:induction false} ReservedMeans(limits: Limits, book: Book, hold: Hold, now: int)
    requires hold.estimatedUSD >= 0.0
    ensures var limit := TaskLimit(limits, hold.agent);
            && (FitsTables(limits.gate, limits.perAgent, book, hold.agent, hold.taskID, hold.estimatedUSD)
                <==> !Refused(book, hold, limit, now))
            && if Refused(book, hold, limit, now) then SpendsNothing(book, Reserved(book, hold, limit, now))
               else Holds(book, Reserved(book, hold, limit, now), hold.taskID, hold.agent, hold.estimatedUSD, now)
  {
  }

  lemma {:induction false} SettledMeans(book: Book, hold: Hold, costUSD: real, billed: bool, now: int)
    ensures Drops(book, Settled(book, hold, costUSD, billed, now), hold, costUSD, billed, now)
  {
  }

  // ---------- the objects ----------

  class TaskManager {
    var tasks: Book
    var agentTaskLimit: map<string, real>
    var defaultTaskLimit: real

    ghost function CurrentLimits(): Limits
      reads this
    {
      Limits(defaultTaskLimit, agentTaskLimit)
    }

    constructor (limits: Limits, tasks: Book)
      ensures CurrentLimits() == limits && this.tasks == tasks
    {
      this.tasks, agentTaskLimit, defaultTaskLimit := tasks, limits.perAgent, limits.gate;
    }

    method TaskLimitLocked(agent: string) returns (limit: real)
      ensures limit == TaskLimit(CurrentLimits(), agent)
    {
      if agent in agentTaskLimit && agentTaskLimit[agent] > 0.0 {
        return agentTaskLimit[agent];
      }
      return defaultTaskLimit;
    }

    method TaskStateLocked(taskID: string, now: int) returns (state: TaskState)
      modifies this`tasks
      ensures state == StateOf(old(tasks), taskID, now)
      ensures tasks == old(tasks)[taskID := state]
    {
      if taskID in tasks {
        state := tasks[taskID];
        assert tasks == tasks[taskID := state];
        return;
      }
      state := TaskState(0.0, 0.0, 0.0, 0, 0, "", now, now, false);
      tasks := tasks[taskID := state];
    }

    /** Holds the estimate when the cap allows it. A blank task is never budgeted. */
    method ReserveTask(agent: string, rawTaskID: string, rawEstimateUSD: real, now: int)
      returns (decision: TaskDecision, reservation: TaskReservation?)
      modifies this`tasks
      ensures TrimSpace(rawTaskID) == "" ==> decision.allowed && reservation == null && tasks == old(tasks)
      ensures TrimSpace(rawTaskID) != "" ==>
                var hold := Hold(TrimSpace(rawTaskID), NormalizeAgent(agent), NonNegative(rawEstimateUSD));
                var limit := TaskLimit(old(CurrentLimits()), hold.agent);
                && Decides(decision, old(tasks), hold, limit, now)
                && tasks == Reserved(old(tasks), hold, limit, now)
                && (reservation != null <==> decision.allowed)
                && (reservation != null ==>
                      fresh(reservation) && reservation.manager == this && reservation.hold == hold
                      && !reservation.done)
      ensures TrimSpace(rawTaskID) != "" ==>
                var t, a := TrimSpace(rawTaskID), NormalizeAgent(agent);
                && (decision.allowed
                    <==> FitsTables(old(defaultTaskLimit), old(agentTaskLimit), old(tasks), a, t, rawEstimateUSD))
                && if decision.allowed then Holds(old(tasks), tasks, t, a, rawEstimateUSD, now)
                   else SpendsNothing(old(tasks), tasks)
    {
      var taskID := TrimSpace(rawTaskID);
      var normalizedAgent := NormalizeAgent(agent);
      if taskID == "" {
        return TaskDecision(true, false, "", normalizedAgent, 0.0, 0.0, 0.0, 0.0), null;
      }
      var estimatedUSD := NonNegative(rawEstimateUSD);
      ReservedMeans(CurrentLimits(), tasks, Hold(taskID, normalizedAgent, estimatedUSD), now);
      decision, reservation := ReserveLocked(Hold(taskID, normalizedAgent, estimatedUSD), now);
    }

    method ReserveLocked(hold: Hold, now: int) returns (decision: TaskDecision, reservation: TaskReservation?)
      modifies this`tasks
      ensures var limit := TaskLimit(old(CurrentLimits()), hold.agent);
              Decides(decision, old(tasks), hold, limit, now) && tasks == Reserved(old(tasks), hold, limit, now)
      ensures reservation != null <==> decision.allowed
      ensures reservation != null ==>
                fresh(reservation) && reservation.manager == this && reservation.hold == hold && !reservation.done
    {
      var limit := TaskLimitLocked(hold.agent);
      var state := TaskStateLocked(hold.taskID, now);
      var projected := state.spentUSD + state.reservedUSD + hold.estimatedUSD;
      decision := TaskDecision(true, limit > 0.0, hold.taskID, hold.agent, limit, state.spentUSD, state.reservedUSD,
                               projected);
      if limit > 0.0 && projected > limit {
        decision := decision.(allowed := false);
        return decision, null;
      }
      state := state.(
        reservedUSD := state.reservedUSD + hold.estimatedUSD,
        inFlight := state.inFlight + 1,
        lastSeenAt := now,
        lastAgent := hold.agent);
      if limit > 0.0 {
        state := state.(limitUSD := limit);
      }
      tasks := tasks[hold.taskID := state];
      reservation := new TaskReservation(this, hold);
    }

    method SettleTask(hold: Hold, rawCostUSD: real, billed: bool, now: int)
      modifies this`tasks
      ensures tasks == Settled(old(tasks), hold, rawCostUSD, billed, now)
      ensures Drops(old(tasks), tasks, hold, rawCostUSD, billed, now)
    {
      SettledMeans(tasks, hold, rawCostUSD, billed, now);
      var costUSD := NonNegative(rawCostUSD);
      var state := TaskStateLocked(hold.taskID, now);
      state := state.(reservedUSD := state.reservedUSD - hold.estimatedUSD);
      if state.inFlight > 0 {
        state := state.(inFlight := state.inFlight - 1);
      }
      if state.reservedUSD < 0.0 || state.inFlight == 0 {
        state := state.(reservedUSD := 0.0);
      }
      if billed {
        state := state.(
          spentUSD := state.spentUSD + costUSD,
          requestCount := state.requestCount + 1,
          lastSeenAt := now,
          lastAgent := hold.agent,
          dirty := true);
      }
      tasks := tasks[hold.taskID := state];
    }

    /** Clears settled spend; what is held stays held. Unknown tasks are an error. */
    method ResetTask(rawTaskID: string, now: int) returns (found: bool)
      modifies this`tasks
      ensures found == (TrimSpace(rawTaskID) in old(tasks))
      ensures !found ==> tasks == old(tasks)
      ensures found ==> tasks == old(tasks)[TrimSpace(rawTaskID) := ResetOf(old(tasks)[TrimSpace(rawTaskID)], now)]
      ensures found ==>
                var t := TrimSpace(rawTaskID);
                && OthersKeep(old(tasks), tasks, t)
                && AccountOf(tasks, t)
                   == AccountOf(old(tasks), t).(spentUSD := 0.0, requestCount := 0, dirty := true)
                && tasks[t].lastSeenAt == now
    {
      var taskID := TrimSpace(rawTaskID);
      if taskID !in tasks {
        return false;
      }
      tasks := tasks[taskID := tasks[taskID].(spentUSD := 0.0, requestCount := 0, lastSeenAt := now, dirty := true)];
      return true;
    }
  }

  /** One request's hold. The first `Settle` or `Release` takes effect; every later one does nothing. */
  class TaskReservation {
    const manager: TaskManager
    const hold: Hold
    var done: bool

    constructor (manager: TaskManager, hold: Hold)
      ensures this.manager == manager && this.hold == hold && !done
    {
      this.manager, this.hold, done := manager, hold, false;
    }

    method Settle(costUSD: real, now: int)
      modifies this`done, manager`tasks
      ensures done
      ensures manager.tasks == if old(done) then old(manager.tasks)
                               else Settled(old(manager.tasks), hold, costUSD, true, now)
    {
      if !done {
        done := true;
        manager.SettleTask(hold, costUSD, true, now);
      }
    }

    method Release(now: int)
      modifies this`done, manager`tasks
      ensures done
      ensures manager.tasks == if old(done) then old(manager.tasks)
                               else Settled(old(manager.tasks), hold, 0.0, false, now)
    {
      if !done {
        done := true;
        manager.SettleTask(hold, 0.0, false, now);
      }
    }
  }

  // ---------- whole runs ----------

  /** The book with the holds still outstanding, by the order they were issued. */
  datatype System = System(book: Book, holds: map<nat, Hold>, issued: nat)

  datatype Event =
    | Reserve(taskID: string, agent: string, estimatedUSD: real, limits: Limits, now: int)
    | Settle(id: nat, costUSD: real, now: int)
    | Release(id: nat, now: int)
    | Reset(taskID: string, now: int)

  function HoldOf(e: Event): Hold
    requires e.Reserve?
  {
    Hold(TrimSpace(e.taskID), NormalizeAgent(e.agent), NonNegative(e.estimatedUSD))
  }

  function LimitOf(e: Event): real
    requires e.Reserve?
  {
    TaskLimit(e.limits, NormalizeAgent(e.agent))
  }

  /** One call, whole: each runs under the manager's lock, so calls of concurrent
      requests interleave as a sequence of these. */
  function Step(s: System, e: Event): System {
    match e
    case Reserve(_, _, _, _, now) =>
      var hold, limit := HoldOf(e), LimitOf(e);
      if hold.taskID == "" then s
      else
        var book := Reserved(s.book, hold, limit, now);
        if Refused(s.book, hold, limit, now) then s.(book := book)
        else System(book, s.holds[s.issued := hold], s.issued + 1)
    case Settle(id, cost, now) =>
      if id !in s.holds then s
      else s.(book := Settled(s.book, s.holds[id], cost, true, now), holds := s.holds - {id})
    case Release(id, now) =>
      if id !in s.holds then s
      else s.(book := Settled(s.book, s.holds[id], 0.0, false, now), holds := s.holds - {id})
    case Reset(rawTaskID, now) =>
      var taskID := TrimSpace(rawTaskID);
      if taskID !in s.book then s
      else s.(book := s.book[taskID := ResetOf(s.book[taskID], now)])
  }

  function Run(s: System, events: seq<Event>): System
    decreases |events|
  {
    if events == [] then s else Run(Step(s, events[0]), events[1..])
  }

  // ---------- reservation accounting ----------

  /** The estimates held against a task by the first `n` holds issued. */
  ghost function Held(holds: map<nat, Hold>, n: nat, taskID: string): real {
    if n == 0 then 0.0
    else
      Held(holds, n - 1, taskID)
      + if n - 1 in holds && holds[n - 1].taskID == taskID then holds[n - 1].estimatedUSD else 0.0
  }

  ghost function HeldCount(holds: map<nat, Hold>, n: nat, taskID: string): nat {
    if n == 0 then 0
    else
      HeldCount(holds, n - 1, taskID)
      + if n - 1 in holds && holds[n - 1].taskID == taskID then 1 else 0
  }

  ghost predicate HoldsOk(s: System) {
    forall id | id in s.holds ::
      id < s.issued && s.holds[id].estimatedUSD >= 0.0 && s.holds[id].taskID in s.book
  }

  /** What is reserved on a task is what its outstanding holds add up to. */
  ghost predicate Accounted(s: System) {
    && HoldsOk(s)
    && forall t | t in s.book ::
         && s.book[t].reservedUSD == Held(s.holds, s.issued, t)
         && s.book[t].inFlight == HeldCount(s.holds, s.issued, t)
  }

  lemma {:induction false} HeldUnchanged(a: map<nat, Hold>, b: map<nat, Hold>, n: nat, t: string)
    requires forall id | id < n :: (id in a <==> id in b) && (id in a ==> a[id] == b[id])
    ensures Held(a, n, t) == Held(b, n, t) && HeldCount(a, n, t) == HeldCount(b, n, t)
  {
    if n == 0 {
    } else {
      HeldUnchanged(a, b, n - 1, t);
    }
  }

  lemma {:induction false} HeldRemove(holds: map<nat, Hold>, n: nat, id: nat, t: string)
    requires id in holds && id < n
    ensures Held(holds - {id}, n, t) == Held(holds, n, t)
                                        - if holds[id].taskID == t then holds[id].estimatedUSD else 0.0
    ensures HeldCount(holds - {id}, n, t) == HeldCount(holds, n, t) - if holds[id].taskID == t then 1 else 0
  {
    if id < n - 1 {
      HeldRemove(holds, n - 1, id, t);
    } else {
      HeldUnchanged(holds - {id}, holds, n - 1, t);
    }
  }

  lemma {:induction false} HeldBounds(holds: map<nat, Hold>, n: nat, t: string)
    requires forall id | id in holds :: holds[id].estimatedUSD >= 0.0
    ensures Held(holds, n, t) >= 0.0
    ensures HeldCount(holds, n, t) == 0 ==> Held(holds, n, t) == 0.0
  {
    if n == 0 {
    } else {
      HeldBounds(holds, n - 1, t);
    }
  }

  lemma {:induction false} NoneHeld(holds: map<nat, Hold>, n: nat, t: string)
    requires forall id | id in holds :: holds[id].taskID != t
    ensures Held(holds, n, t) == 0.0 && HeldCount(holds, n, t) == 0
  {
    if n == 0 {
    } else {
      NoneHeld(holds, n - 1, t);
    }
  }

  /** Dropping an outstanding hold takes exactly its estimate off the task: the
      clamps to zero never change the amount. */
  lemma ClampsAreIdle(s: System, id: nat, costUSD: real, billed: bool, now: int)
    requires Accounted(s) && id in s.holds
    ensures var t := s.holds[id].taskID;
            var after := Settled(s.book, s.holds[id], costUSD, billed, now)[t];
            && after.reservedUSD == s.book[t].reservedUSD - s.holds[id].estimatedUSD
            && after.inFlight == s.book[t].inFlight - 1
            && after.reservedUSD >= 0.0 && after.inFlight >= 0
  {
    var t := s.holds[id].taskID;
    HeldRemove(s.holds, s.issued, id, t);
    HeldBounds(s.holds - {id}, s.issued, t);
  }

  lemma DropKeepsAccounts(s: System, id: nat, costUSD: real, billed: bool, now: int)
    requires Accounted(s) && id in s.holds
    ensures Accounted(s.(book := Settled(s.book, s.holds[id], costUSD, billed, now), holds := s.holds - {id}))
  {
    var s' := s.(book := Settled(s.book, s.holds[id], costUSD, billed, now), holds := s.holds - {id});
    ClampsAreIdle(s, id, costUSD, billed, now);
    forall t | t in s'.book
      ensures s'.book[t].reservedUSD == Held(s'.holds, s'.issued, t)
      ensures s'.book[t].inFlight == HeldCount(s'.holds, s'.issued, t)
    {
      HeldRemove(s.holds, s.issued, id, t);
    }
  }

  lemma ReserveKeepsAccounts(s: System, e: Event)
    requires Accounted(s) && e.Reserve?
    ensures Accounted(Step(s, e))
  {
    var s' := Step(s, e);
    var hold := HoldOf(e);
    forall t | t in s'.book
      ensures s'.book[t].reservedUSD == Held(s'.holds, s'.issued, t)
      ensures s'.book[t].inFlight == HeldCount(s'.holds, s'.issued, t)
    {
      HeldUnchanged(s.holds, s'.holds, s.issued, t);
      if t !in s.book {
        NoneHeld(s.holds, s.issued, t);
      }
    }
  }

  lemma StepKeepsAccounts(s: System, e: Event)
    requires Accounted(s)
    ensures Accounted(Step(s, e))
  {
    match e
    case Reserve(_, _, _, _, _) => ReserveKeepsAccounts(s, e);
    case Settle(id, cost, now) =>
      if id in s.holds {
        DropKeepsAccounts(s, id, cost, true, now);
      }
    case Release(id, now) =>
      if id in s.holds {
        DropKeepsAccounts(s, id, 0.0, false, now);
      }
    case Reset(_, _) =>
  }

  /** In every reachable state, what each task reports as reserved and in flight is
      the sum and the number of the holds still outstanding. */
  lemma {:induction false} RunKeepsAccounts(s: System, events: seq<Event>)
    requires Accounted(s)
    ensures Accounted(Run(s, events))
    decreases |events|
  {
    if events == [] {
    } else {
      StepKeepsAccounts(s, events[0]);
      RunKeepsAccounts(Step(s, events[0]), events[1..]);
    }
  }

  predicate Targets(e: Event, id: nat) {
    (e.Settle? || e.Release?) && e.id == id
  }

  /** How many events of the run found the hold outstanding and dropped it. */
  function Effects(s: System, events: seq<Event>, id: nat): nat
    decreases |events|
  {
    if events == [] then 0
    else (if Targets(events[0], id) && id in s.holds then 1 else 0) + Effects(Step(s, events[0]), events[1..], id)
  }

  /** Under any calls to `Settle` and `Release`, a hold is dropped at most once. */
  lemma {:induction false} AtMostOneEffect(s: System, events: seq<Event>, id: nat)
    requires HoldsOk(s)
    ensures Effects(s, events, id) <= 1
    ensures id < s.issued && id !in s.holds ==> Effects(s, events, id) == 0
    decreases |events|
  {
    if events == [] {
    } else {
      StepKeepsHolds(s, events[0]);
      AtMostOneEffect(Step(s, events[0]), events[1..], id);
    }
  }

  lemma StepKeepsHolds(s: System, e: Event)
    requires HoldsOk(s)
    ensures HoldsOk(Step(s, e))
    ensures s.issued <= Step(s, e).issued
    ensures forall id | id in Step(s, e).holds ::
              if id in s.holds then Step(s, e).holds[id] == s.holds[id] else id == s.issued
  {
  }

  // ---------- cap safety ----------

  /** Settled spend plus what is held, zero for a task nobody has named. */
  ghost function Committed(s: System, t: string): real {
    if t in s.book then s.book[t].spentUSD + s.book[t].reservedUSD else 0.0
  }

  /** The agent's own positive cap, or without one the gate's, is positive and at most `cap`. */
  ghost predicate TablesCap(limits: Limits, agent: string, cap: real) {
    if agent in limits.perAgent && limits.perAgent[agent] > 0.0 then limits.perAgent[agent] <= cap
    else 0.0 < limits.gate <= cap
  }

  /** Every reservation on the task is made under tables that cap its agent. */
  ghost predicate CappedBy(events: seq<Event>, t: string, cap: real) {
    forall e | e in events && e.Reserve? && TrimSpace(e.taskID) == t ::
      TablesCap(e.limits, NormalizeAgent(e.agent), cap)
  }

  ghost function StepOvershoot(s: System, e: Event, t: string): real {
    if e.Settle? && e.id in s.holds && s.holds[e.id].taskID == t
    then Max(0.0, e.costUSD - s.holds[e.id].estimatedUSD)
    else 0.0
  }

  /** By how much the settlements of the run went past what they had reserved. */
  ghost function Overshoot(s: System, events: seq<Event>, t: string): real
    decreases |events|
  {
    if events == [] then 0.0
    else StepOvershoot(s, events[0], t) + Overshoot(Step(s, events[0]), events[1..], t)
  }

  lemma StepWithinCap(s: System, e: Event, t: string, cap: real)
    requires Accounted(s) && t != "" && cap > 0.0
    requires t in s.book ==> s.book[t].spentUSD >= 0.0
    requires CappedBy([e], t, cap)
    ensures Committed(Step(s, e), t) <= Max(Committed(s, t), cap) + StepOvershoot(s, e, t)
    ensures t in Step(s, e).book ==> Step(s, e).book[t].spentUSD >= 0.0
  {
    match e
    case Reserve(_, _, _, _, _) => assert e in [e];
    case Settle(id, cost, now) =>
      if id in s.holds {
        ClampsAreIdle(s, id, cost, true, now);
      }
    case Release(id, now) =>
      if id in s.holds {
        ClampsAreIdle(s, id, 0.0, false, now);
      }
    case Reset(_, _) =>
  }

  /** Over any interleaving of reservations, settlements, releases and resets, the
      committed amount exceeds the larger of its start and the cap by no more than
      the settlements overshot their own estimates. */
  lemma {:induction false} CapSafety(s: System, events: seq<Event>, t: string, cap: real)
    requires Accounted(s) && t != "" && cap > 0.0
    requires t in s.book ==> s.book[t].spentUSD >= 0.0
    requires CappedBy(events, t, cap)
    ensures Committed(Run(s, events), t) <= Max(Committed(s, t), cap) + Overshoot(s, events, t)
    ensures t in Run(s, events).book ==> Run(s, events).book[t].spentUSD <= Committed(Run(s, events), t)
    decreases |events|
  {
    RunKeepsAccounts(s, events);
    var end := Run(s, events);
    HeldBounds(end.holds, end.issued, t);
    if events == [] {
    } else {
      var e := events[0];
      assert e in events;
      StepWithinCap(s, e, t, cap);
      StepKeepsAccounts(s, e);
      assert forall x | x in events[1..] :: x in events;
      CapSafety(Step(s, e), events[1..], t, cap);
    }
  }

  ghost predicate NoOvershoot(s: System, events: seq<Event>, t: string)
    decreases |events|
  {
    events == [] || (StepOvershoot(s, events[0], t) == 0.0 && NoOvershoot(Step(s, events[0]), events[1..], t))
  }

  lemma {:induction false} NoOvershootSums(s: System, events: seq<Event>, t: string)
    requires NoOvershoot(s, events, t)
    ensures Overshoot(s, events, t) == 0.0
    decreases |events|
  {
    if events == [] {
    } else {
      NoOvershootSums(Step(s, events[0]), events[1..], t);
    }
  }

  /** While no request costs more than it reserved, settled spend of a fresh task never passes its cap. */
  lemma HonestEstimatesKeepTheCap(events: seq<Event>, t: string, cap: real)
    requires t != "" && cap > 0.0 && CappedBy(events, t, cap)
    requires NoOvershoot(System(map[], map[], 0), events, t)
    ensures var end := Run(System(map[], map[], 0), events);
            t in end.book ==> end.book[t].spentUSD <= cap
  {
    var start := System(map[], map[], 0);
    CapSafety(start, events, t, cap);
    NoOvershootSums(start, events, t);
  }
}
