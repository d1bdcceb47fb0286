/**
 What agent rows say while requests go on between a flush's snapshot and its writes:
 one flusher, writes that may fail, and deletions (internal/budget/manager.go).
 */
module RowLaws {
  import opened Agents
  import opened Governor
  import opened GovernorLaws
  import opened Text
  import AgentStore
  import Tasks

  /** What a stored row says, apart from when the agent was last seen, which a check moves
      without marking the agent. */
  function Saying(stored: AgentRow): AgentRow {
    stored.(lastSeenAt := ZERO_TIME)
  }

  /** What an agent's row should say. */
  function Says(s: Settings, m: Memory, agent: string): AgentRow
    requires agent in m.states
  {
    Saying(Stored(RowOf(PolicyFor(s, m, agent), m.states[agent])))
  }

  datatype Record = Record(agent: string, row: AgentRow)

  /** Memory, rows, the records the flush under way has still to write, and the agents whose
      record a failed flush dropped and that have not been marked since. */
  datatype World = World(
    memory: Memory,
    rows: map<string, AgentRow>,
    batch: seq<Record>,
    flushing: bool,
    missed: set<string>)

  /** A whole call, or one step of the flusher or of a deletion. */
  datatype Event =
    | CallE(call: Call)
    | BeginFlush(order: seq<string>, now: int)
    | Write(ok: bool)
    | EndFlush
    | DeleteE(rawAgent: string, now: int)

  ghost predicate Dirty(m: Memory, agent: string) {
    agent in m.states && m.states[agent].dirty
  }

  function Names(batch: seq<Record>): set<string> {
    set r | r in batch :: r.agent
  }

  ghost predicate Distinct(order: seq<string>) {
    forall i, j | 0 <= i < j < |order| :: order[i] != order[j]
  }

  /** The order lists the agents a snapshot takes, each once. */
  ghost predicate Enumerates(s: Settings, m: Memory, order: seq<string>, now: int) {
    Distinct(order) && forall a :: a in order <==> a in AgentStore.TakenRows(s, m, now)
  }

  ghost function Taken(s: Settings, m: Memory, order: seq<string>, now: int): seq<Record>
    requires Enumerates(s, m, order, now)
  {
    seq(|order|, i requires 0 <= i < |order| =>
      assert order[i] in order;
      Record(order[i], AgentStore.TakenRows(s, m, now)[order[i]]))
  }

  /** Agents that are marked again are no longer missed. */
  ghost function Settled(w: World): World {
    w.(missed := set a | a in w.missed && !Dirty(w.memory, a))
  }

  ghost function Step(s: Settings, w: World, e: Event): World {
    Settled(
      match e
      case CallE(c) => if c.Renames() != {} then w else w.(memory := Done(s, w.memory, c))
      case BeginFlush(order, now) =>
        if w.flushing || !Enumerates(s, w.memory, order, now) then w
        else
          w.(memory := w.memory.(states := AgentStore.CleanedStates(s, w.memory, now)),
             batch := Taken(s, w.memory, order, now), flushing := true, missed :=
               w.missed - Names(Taken(s, w.memory, order, now)))
      case Write(ok) =>
        if w.batch == [] then w
        else if ok then w.(rows := w.rows[w.batch[0].agent := Stored(w.batch[0].row)], batch := w.batch[1..])
        else w.(batch := [], flushing := false, missed := w.missed + Names(w.batch))
      case EndFlush => if w.batch == [] then w.(flushing := false) else w
      case DeleteE(rawAgent, now) =>
        if w.flushing then w
        else w.(memory := Done(s, w.memory, DeleteC(rawAgent, now)), rows := w.rows - {Tasks.NormalizeAgent(rawAgent)}))
  }

  ghost function Run(s: Settings, w: World, events: seq<Event>): World
    decreases |events|
  {
    if events == [] then w else Run(s, Step(s, w, events[0]), events[1..])
  }

  // ---------- calls mark what they change ----------

  /** After a call, an agent is marked, or its row should say what it should have said. */
  lemma {:induction false} CallMarksItsChanges(s: Settings, m: Memory, c: Call, agent: string)
    requires c.Renames() == {} && agent in Done(s, m, c).states
    ensures Dirty(m, agent) ==> Dirty(Done(s, m, c), agent)
    ensures Dirty(Done(s, m, c), agent) || (agent in m.states && Says(s, Done(s, m, c), agent) == Says(s, m, agent))
  {
    if c.Agent() != agent {
      assert agent in m.states;
      OthersUntouched(s, m, c, agent);
    } else {
      OwnCallMarks(s, m, c);
    }
  }

  lemma {:induction false} RollMarks(s: Settings, policy: Policy, state: AgentState, now: int)
    ensures var rolled := RolledOver(s.addMonth, policy, state, now);
            (state.dirty ==> rolled.dirty) && (rolled.dirty || rolled == state)
  {
  }

  lemma {:induction false} CheckMarks(s: Settings, policy: Policy, state: AgentState, refusal: Option<Decision>,
                                      estimatedUSD: real, now: int)
    ensures var checked := Check(s.addMonth, policy, s.runaway, state, refusal, estimatedUSD, now).state;
            && (state.dirty ==> checked.dirty)
            && (checked.dirty || Saying(Stored(RowOf(policy, checked))) == Saying(Stored(RowOf(policy, state))))
  {
    RollMarks(s, policy, state.(lastSeenAt := now), now);
  }

  lemma {:induction false} OwnCallMarks(s: Settings, m: Memory, c: Call)
    requires c.Renames() == {} && c.Agent() in Done(s, m, c).states
    ensures Dirty(m, c.Agent()) ==> Dirty(Done(s, m, c), c.Agent())
    ensures Dirty(Done(s, m, c), c.Agent())
            || (c.Agent() in m.states && Says(s, Done(s, m, c), c.Agent()) == Says(s, m, c.Agent()))
  {
    var agent := c.Agent();
    match c
    case CheckC(_, estimate, now) =>
      CheckMarks(s, PolicyFor(s, m, agent), StateFor(s, m, agent, now), RefusalAt(s, m, agent, estimate, now), estimate,
                 now);
    case ViewC(_, now) => RollMarks(s, PolicyFor(s, m, agent), StateFor(s, m, agent, now), now);
    case _ =>
  }

  // ---------- every step keeps rows current ----------

  ghost predicate Carried(s: Settings, w: World, agent: string)
    requires agent in w.memory.states
  {
    exists r :: r in w.batch && r.agent == agent && Saying(Stored(r.row)) == Says(s, w.memory, agent)
  }

  ghost predicate UpToDate(s: Settings, w: World, agent: string)
    requires agent in w.memory.states
  {
    agent in w.rows && Saying(w.rows[agent]) == Says(s, w.memory, agent)
  }

  /** The agent is marked, or what its row should say is on its way, or stored, unless a
      failed flush dropped it. */
  ghost predicate Safe(s: Settings, w: World, agent: string)
    requires agent in w.memory.states
  {
    || w.memory.states[agent].dirty
    || Carried(s, w, agent)
    || (agent !in Names(w.batch) && UpToDate(s, w, agent))
    || agent in w.missed
  }

  ghost predicate AllSafe(s: Settings, w: World) {
    && (forall a | a in w.memory.states :: Safe(s, w, a))
    && (forall i, j | 0 <= i < j < |w.batch| :: w.batch[i].agent != w.batch[j].agent)
    && (w.batch != [] ==> w.flushing)
  }

  lemma {:induction false} SettledIsSafe(s: Settings, w: World)
    requires AllSafe(s, w)
    ensures AllSafe(s, Settled(w))
  {
    forall a | a in w.memory.states ensures Safe(s, Settled(w), a) {
      assert Safe(s, w, a);
      assert Carried(s, w, a) ==> Carried(s, Settled(w), a);
    }
  }

  lemma {:induction false} CallIsSafe(s: Settings, w: World, c: Call)
    requires AllSafe(s, w) && c.Renames() == {}
    ensures AllSafe(s, w.(memory := Done(s, w.memory, c)))
  {
    var w' := w.(memory := Done(s, w.memory, c));
    forall a | a in w'.memory.states ensures Safe(s, w', a) {
      CallMarksItsChanges(s, w.memory, c, a);
      if !Dirty(w'.memory, a) {
        assert Safe(s, w, a);
        if r :| r in w.batch && r.agent == a && Saying(Stored(r.row)) == Says(s, w.memory, a) {
          assert r in w'.batch;
        }
      }
    }
  }

  lemma {:induction false} BeginIsSafe(s: Settings, w: World, order: seq<string>, now: int)
    requires AllSafe(s, w) && !w.flushing && Enumerates(s, w.memory, order, now)
    ensures AllSafe(s, w.(memory := w.memory.(states := AgentStore.CleanedStates(s, w.memory, now)),
                          batch := Taken(s, w.memory, order, now), flushing := true,
                          missed := w.missed - Names(Taken(s, w.memory, order, now))))
  {
    var batch := Taken(s, w.memory, order, now);
    var w' := w.(memory := w.memory.(states := AgentStore.CleanedStates(s, w.memory, now)),
                 batch := batch, flushing := true, missed := w.missed - Names(batch));
    forall a | a in w'.memory.states ensures Safe(s, w', a) {
      BeginIsSafeFor(s, w, w', order, now, a);
    }
  }

  lemma {:induction false} BeginIsSafeFor(s: Settings, w: World, w': World, order: seq<string>, now: int, a: string)
    requires AllSafe(s, w) && !w.flushing && Enumerates(s, w.memory, order, now)
    requires var batch := Taken(s, w.memory, order, now);
             w' == w.(memory := w.memory.(states := AgentStore.CleanedStates(s, w.memory, now)),
                      batch := batch, flushing := true, missed := w.missed - Names(batch))
    requires a in w.memory.states
    ensures Safe(s, w', a)
  {
    var state := AgentStore.Current(s, w.memory, a, now);
    CleanedSays(s, w.memory, now, a);
    if state.dirty {
      TakenIsCarried(s, w.memory, order, now, a);
      var r :| r in w'.batch && r.agent == a && r.row == RowOf(PolicyFor(s, w.memory, a), state);
      assert Carried(s, w', a);
    } else {
      RollMarks(s, PolicyFor(s, w.memory, a), w.memory.states[a], now);
      TakenIsMarked(s, w.memory, order, now, a);
      assert Safe(s, w, a) && w.batch == [];
    }
  }

  lemma {:induction false} CleanedSays(s: Settings, m: Memory, now: int, a: string)
    requires a in m.states
    ensures var m' := m.(states := AgentStore.CleanedStates(s, m, now));
            a in m'.states && Says(s, m', a)
            == Saying(Stored(RowOf(PolicyFor(s, m, a), AgentStore.Current(s, m, a, now))))
  {
  }

  /** A snapshot takes the row of every marked agent. */
  lemma {:induction false} TakenIsCarried(s: Settings, m: Memory, order: seq<string>, now: int, a: string)
    requires Enumerates(s, m, order, now) && a in m.states && AgentStore.Current(s, m, a, now).dirty
    ensures exists r :: r in Taken(s, m, order, now) && r.agent == a
                        && r.row == RowOf(PolicyFor(s, m, a), AgentStore.Current(s, m, a, now))
  {
    assert a in order;
    var i :| 0 <= i < |order| && order[i] == a;
    assert Taken(s, m, order, now)[i] in Taken(s, m, order, now);
  }

  lemma {:induction false} TakenIsMarked(s: Settings, m: Memory, order: seq<string>, now: int, a: string)
    requires Enumerates(s, m, order, now) && a in m.states && !AgentStore.Current(s, m, a, now).dirty
    ensures a !in Names(Taken(s, m, order, now))
  {
    assert a !in order;
    forall r | r in Taken(s, m, order, now) ensures r.agent in order {
      var i :| 0 <= i < |order| && r == Taken(s, m, order, now)[i];
    }
  }

  lemma {:induction false} WriteIsSafe(s: Settings, w: World)
    requires AllSafe(s, w) && w.batch != []
    ensures AllSafe(s, w.(rows := w.rows[w.batch[0].agent := Stored(w.batch[0].row)], batch := w.batch[1..]))
  {
    var w' := w.(rows := w.rows[w.batch[0].agent := Stored(w.batch[0].row)], batch := w.batch[1..]);
    assert w.batch == [w.batch[0]] + w'.batch;
    forall a | a in w'.memory.states ensures Safe(s, w', a) {
      assert Safe(s, w, a);
      assert a in Names(w'.batch) ==> a in Names(w.batch);
      if r :| r in w.batch && r.agent == a && Saying(Stored(r.row)) == Says(s, w.memory, a) {
        if r != w.batch[0] {
          assert r in w'.batch;
        }
        if a == w.batch[0].agent {
          assert a !in Names(w'.batch);
        }
      }
    }
  }

  lemma {:induction false} FailureIsSafe(s: Settings, w: World)
    requires AllSafe(s, w) && w.batch != []
    ensures AllSafe(s, w.(batch := [], flushing := false, missed := w.missed + Names(w.batch)))
  {
    var w' := w.(batch := [], flushing := false, missed := w.missed + Names(w.batch));
    forall a | a in w'.memory.states ensures Safe(s, w', a) {
      assert Safe(s, w, a);
      assert Carried(s, w, a) ==> a in Names(w.batch);
    }
  }

  lemma {:induction false} DeletionIsSafe(s: Settings, w: World, rawAgent: string, now: int)
    requires AllSafe(s, w) && !w.flushing
    ensures AllSafe(s,
                    w.(memory := Done(s, w.memory, DeleteC(rawAgent, now)),
                       rows := w.rows - {Tasks.NormalizeAgent(rawAgent)}))
  {
    var w' := w.(memory := Done(s, w.memory, DeleteC(rawAgent, now)),
                 rows := w.rows - {Tasks.NormalizeAgent(rawAgent)});
    forall a | a in w'.memory.states ensures Safe(s, w', a) {
      assert Safe(s, w, a) && w.batch == [];
    }
  }

  lemma {:induction false} StepIsSafe(s: Settings, w: World, e: Event)
    requires AllSafe(s, w)
    ensures AllSafe(s, Step(s, w, e))
  {
    match e
    case CallE(c) =>
      if c.Renames() != {} {
        SettledIsSafe(s, w);
      } else {
        CallIsSafe(s, w, c);
        SettledIsSafe(s, w.(memory := Done(s, w.memory, c)));
      }
    case BeginFlush(order, now) =>
      if w.flushing || !Enumerates(s, w.memory, order, now) {
        SettledIsSafe(s, w);
      } else {
        BeginIsSafe(s, w, order, now);
        SettledIsSafe(s, w.(memory := w.memory.(states := AgentStore.CleanedStates(s, w.memory, now)),
                            batch := Taken(s, w.memory, order, now), flushing := true,
                            missed := w.missed - Names(Taken(s, w.memory, order, now))));
      }
    case Write(ok) =>
      if w.batch == [] {
        SettledIsSafe(s, w);
      } else if ok {
        WriteIsSafe(s, w);
        SettledIsSafe(s, w.(rows := w.rows[w.batch[0].agent := Stored(w.batch[0].row)], batch := w.batch[1..]));
      } else {
        FailureIsSafe(s, w);
        SettledIsSafe(s, w.(batch := [], flushing := false, missed := w.missed + Names(w.batch)));
      }
    case EndFlush =>
      var ended := if w.batch == [] then w.(flushing := false) else w;
      assert AllSafe(s, ended) by {
        forall a | a in ended.memory.states ensures Safe(s, ended, a) {
          assert Safe(s, w, a);
          assert Carried(s, w, a) ==> Carried(s, ended, a);
        }
      }
      SettledIsSafe(s, ended);
    case DeleteE(rawAgent, now) =>
      if w.flushing {
        SettledIsSafe(s, w);
      } else {
        DeletionIsSafe(s, w, rawAgent, now);
        SettledIsSafe(s,
                      w.(memory := Done(s, w.memory, DeleteC(rawAgent, now)),
                         rows := w.rows - {Tasks.NormalizeAgent(rawAgent)}));
      }
  }

  /** In every interleaving of calls, one flusher's steps and deletions, each agent is at every
      step marked, or on its way with what its row should say, or stored with it, or was dropped
      by a failed flush and has not been marked since. */
  lemma {:induction false} RunIsSafe(s: Settings, w: World, events: seq<Event>)
    requires AllSafe(s, w)
    ensures AllSafe(s, Run(s, w, events))
    decreases |events|
  {
    if events == [] {
    } else {
      StepIsSafe(s, w, events[0]);
      RunIsSafe(s, Step(s, w, events[0]), events[1..]);
    }
  }

  lemma {:induction false} NothingMissed(s: Settings, w: World, events: seq<Event>)
    requires w.missed == {} && Write(false) !in events
    ensures Run(s, w, events).missed == {}
    decreases |events|
  {
    if events == [] {
    } else {
      assert events[0] in events;
      NothingMissed(s, Step(s, w, events[0]), events[1..]);
    }
  }

  /** With no failed write, whenever no flush is under way every agent is marked or its row
      says what it should. */
  lemma {:induction false} RowsStayCurrent(s: Settings, w: World, events: seq<Event>, agent: string)
    requires AllSafe(s, w) && w.missed == {} && Write(false) !in events
    requires var end := Run(s, w, events); !end.flushing && agent in end.memory.states
    ensures var end := Run(s, w, events); end.memory.states[agent].dirty || UpToDate(s, end, agent)
  {
    RunIsSafe(s, w, events);
    NothingMissed(s, w, events);
    assert Safe(s, Run(s, w, events), agent);
  }
}
