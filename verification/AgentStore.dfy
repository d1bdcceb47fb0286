/**
 How agent rows follow the manager's memory while agents are flushed, deleted and
 renamed: two locks, batches written outside one of them, and writes that fail
 (internal/budget/manager.go).
 */
module AgentStore {
  import opened Text
  import opened Agents
  import opened Governor
  import AgentLaws
  import Tasks
  import TaskStore

  // ---------- every interleaving ----------

  /** A deletion holds the flush lock alone, before and after its commit. */
  datatype Deletion = NoDeletion | Locked(agent: string) | Detaching(agent: string)

  /** A rename between its memory half and its end: `wasDirty` is the old agent's flag, kept
      for the way back, and `failed` says the store refused. */
  datatype Renaming = Renaming(oldName: string, newName: string, wasDirty: bool, failed: bool)

  /** Agents by name: known in memory, dirty, persisted, declared in configuration, still
      to be written by each flush that holds the flush lock shared, and being renamed. */
  datatype World = World(
    known: set<string>,
    dirty: set<string>,
    rows: set<string>,
    configured: set<string>,
    flushes: map<nat, seq<string>>,
    deletion: Deletion,
    renames: map<nat, Renaming>)

  /** One step of some goroutine, ending where it releases a lock or where the store
      answers it. A step whose lock is held elsewhere does not happen. */
  datatype Event =
    | Discover(agent: string)
    | Touch(agent: string)
    | BeginFlush(flush: nat, order: seq<string>)
    | WriteAgent(flush: nat, succeeds: bool)
    | EndFlush(flush: nat)
    | LockForDelete(agent: string)
    | CommitDelete(storeFails: bool)
    | EndDelete
    | RenameMemory(rename: nat, oldName: string, newName: string)
    | RenameStore(rename: nat, storeFails: bool)
    | RollBack(rename: nat)

  /** A deletion's two halves are one step: the store half reads no memory and the other
      no rows, so a rename's store half between them comes to the same after both. */
  function Committed(w: World, agent: string, storeFails: bool): World {
    if agent in w.configured || storeFails || (agent !in w.rows && agent !in w.known)
    then w.(deletion := NoDeletion)
    else w.(known := w.known - {agent}, dirty := w.dirty - {agent}, rows := w.rows - {agent},
            deletion := Detaching(agent))
  }

  /** The first half of a rename, under the memory lock alone: the agent, created if need
      be, is known by its new name, dirty. */
  function Renamed(w: World, r: nat, oldName: string, newName: string): World {
    if r in w.renames || oldName == newName || newName in w.known then w
    else
      w.(known := w.known - {oldName} + {newName},
         dirty := w.dirty - {oldName} + {newName},
         renames := w.renames[r := Renaming(oldName, newName, oldName in w.dirty || oldName !in w.known, false)])
  }

  /** The store takes the new name exactly if it has a row to rename and none in the way. */
  predicate StoreRenames(w: World, oldName: string, newName: string, storeFails: bool) {
    !storeFails && oldName in w.rows && newName !in w.rows
  }

  /** The second half, under no lock. */
  function StoreRenamed(w: World, r: nat, storeFails: bool): World
    requires r in w.renames
  {
    var rename := w.renames[r];
    if rename.failed then w
    else if StoreRenames(w, rename.oldName, rename.newName, storeFails)
    then w.(rows := w.rows - {rename.oldName} + {rename.newName}, renames := w.renames - {r})
    else w.(renames := w.renames[r := rename.(failed := true)])
  }

  /** The way back after the store refused: memory has the old name again, as it was. */
  function RolledBack(w: World, r: nat): World
    requires r in w.renames
  {
    var rename := w.renames[r];
    if !rename.failed then w
    else
      w.(known := w.known - {rename.newName} + {rename.oldName},
         dirty := w.dirty - {rename.newName, rename.oldName} + (if rename.wasDirty then {rename.oldName} else {}),
         renames := w.renames - {r})
  }

  function Step(w: World, e: Event): World {
    match e
    case Discover(a) => if a in w.known then w else w.(known := w.known + {a}, dirty := w.dirty + {a})
    case Touch(a) => if a in w.known then w.(dirty := w.dirty + {a}) else w
    case BeginFlush(f, order) =>
      if w.deletion != NoDeletion || f in w.flushes || (set a | a in order) != w.dirty then w
      else w.(dirty := {}, flushes := w.flushes[f := order])
    case WriteAgent(f, succeeds) =>
      if f !in w.flushes || w.flushes[f] == [] then w
      else if succeeds then w.(rows := w.rows + {w.flushes[f][0]}, flushes := w.flushes[f := w.flushes[f][1..]])
      else w.(flushes := w.flushes - {f})
    case EndFlush(f) =>
      if f !in w.flushes || w.flushes[f] != [] then w else w.(flushes := w.flushes - {f})
    case LockForDelete(a) =>
      if w.flushes != map[] || w.deletion != NoDeletion then w else w.(deletion := Locked(a))
    case CommitDelete(storeFails) =>
      if w.deletion.Locked? then Committed(w, w.deletion.agent, storeFails) else w
    case EndDelete => if w.deletion.Detaching? then w.(deletion := NoDeletion) else w
    case RenameMemory(r, oldName, newName) => Renamed(w, r, oldName, newName)
    case RenameStore(r, storeFails) => if r in w.renames then StoreRenamed(w, r, storeFails) else w
    case RollBack(r) => if r in w.renames then RolledBack(w, r) else w
  }

  function Run(w: World, events: seq<Event>): World
    decreases |events|
  {
    if events == [] then w else Run(Step(w, events[0]), events[1..])
  }

  predicate OfRename(e: Event) {
    e.RenameMemory? || e.RenameStore? || e.RollBack?
  }

  ghost predicate BeingWritten(w: World, agent: string) {
    exists f :: f in w.flushes && agent in w.flushes[f]
  }

  /** The store has a row for the agent, or is about to, and the manager does not know it. */
  ghost predicate Stray(w: World, agent: string) {
    agent !in w.known && (agent in w.rows || BeingWritten(w, agent))
  }

  ghost predicate LocksKept(w: World) {
    w.dirty <= w.known && (w.deletion != NoDeletion ==> w.flushes == map[])
  }

  /** Every row, and every row still to be written, names an agent the manager knows. */
  ghost predicate InStep(w: World) {
    LocksKept(w) && forall a :: !Stray(w, a)
  }

  // ---------- no step but a rename's strands a row ----------

  lemma {:induction false} StepKeepsLocks(w: World, e: Event)
    requires LocksKept(w)
    ensures LocksKept(Step(w, e))
  {
  }

  lemma {:induction false} BeginStraysNone(w: World, f: nat, order: seq<string>, a: string)
    requires LocksKept(w) && Stray(Step(w, BeginFlush(f, order)), a)
    ensures Stray(w, a)
  {
    var w' := Step(w, BeginFlush(f, order));
    if BeingWritten(w', a) && w' != w {
      var g :| g in w'.flushes && a in w'.flushes[g];
      assert g == f ==> a in (set b | b in order);
      assert g != f ==> g in w.flushes && a in w.flushes[g];
    }
  }

  lemma {:induction false} WriteStraysNone(w: World, f: nat, succeeds: bool, a: string)
    requires Stray(Step(w, WriteAgent(f, succeeds)), a)
    ensures Stray(w, a)
  {
    var w' := Step(w, WriteAgent(f, succeeds));
    if a !in w.rows && w' != w {
      if a in w'.rows {
        assert f in w.flushes && a in w.flushes[f];
      } else {
        var g :| g in w'.flushes && a in w'.flushes[g];
        assert g in w.flushes && a in w.flushes[g];
      }
    }
  }

  /** Whatever else happens, only the steps of a rename leave a row without its agent. */
  lemma {:induction false} OnlyRenamesStrand(w: World, e: Event, a: string)
    requires LocksKept(w) && !OfRename(e) && Stray(Step(w, e), a)
    ensures Stray(w, a)
  {
    var w' := Step(w, e);
    match e
    case BeginFlush(f, order) => BeginStraysNone(w, f, order, a);
    case WriteAgent(f, succeeds) => WriteStraysNone(w, f, succeeds, a);
    case EndFlush(f) =>
      if BeingWritten(w', a) {
        var g :| g in w'.flushes && a in w'.flushes[g];
        assert g in w.flushes && a in w.flushes[g];
      }
    case Discover(_) => SameFlushes(w, w', a);
    case Touch(_) => SameFlushes(w, w', a);
    case LockForDelete(_) => SameFlushes(w, w', a);
    case CommitDelete(_) => SameFlushes(w, w', a);
    case EndDelete => SameFlushes(w, w', a);
  }

  lemma {:induction false} StepKeepsInStep(w: World, e: Event)
    requires InStep(w) && !OfRename(e)
    ensures InStep(Step(w, e))
  {
    StepKeepsLocks(w, e);
    forall a ensures !Stray(Step(w, e), a) {
      if Stray(Step(w, e), a) {
        OnlyRenamesStrand(w, e, a);
      }
    }
  }

  /** In every interleaving of requests, flush steps and deletions, each agent row
      in the store names an agent in memory. */
  lemma {:induction false} RunKeepsInStep(w: World, events: seq<Event>)
    requires InStep(w) && forall e | e in events :: !OfRename(e)
    ensures InStep(Run(w, events))
    decreases |events|
  {
    if events == [] {
    } else {
      assert events[0] in events && forall e | e in events[1..] :: e in events;
      StepKeepsInStep(w, events[0]);
      RunKeepsInStep(Step(w, events[0]), events[1..]);
    }
  }

  lemma {:induction false} StepForgets(w: World, e: Event, agent: string)
    requires agent !in w.known && !OfRename(e) && e != Discover(agent)
    ensures agent !in Step(w, e).known
  {
  }

  lemma {:induction false} ForgottenStaysForgotten(w: World, events: seq<Event>, agent: string)
    requires InStep(w) && agent !in w.known
    requires forall e | e in events :: !OfRename(e) && e != Discover(agent)
    ensures agent !in Run(w, events).known && agent !in Run(w, events).rows
    decreases |events|
  {
    if events == [] {
      assert !Stray(w, agent);
    } else {
      assert events[0] in events && forall e | e in events[1..] :: e in events;
      StepKeepsInStep(w, events[0]);
      StepForgets(w, events[0], agent);
      ForgottenStaysForgotten(Step(w, events[0]), events[1..], agent);
    }
  }

  /** Once a deletion commits, no interleaving brings the agent's row back before
      a request discovers the agent again. */
  lemma {:induction false} NoResurrection(w: World, storeFails: bool, events: seq<Event>)
    requires InStep(w) && w.deletion.Locked? && Step(w, CommitDelete(storeFails)).deletion.Detaching?
    requires forall e | e in events :: !OfRename(e) && e != Discover(w.deletion.agent)
    ensures w.deletion.agent !in Run(Step(w, CommitDelete(storeFails)), events).rows
  {
    StepKeepsInStep(w, CommitDelete(storeFails));
    ForgottenStaysForgotten(Step(w, CommitDelete(storeFails)), events, w.deletion.agent);
  }

  // ---------- what a rename's steps strand ----------

  /** The memory half strands the old name exactly if the store has it or is about to. */
  lemma {:induction false} MemoryHalfStrands(w: World, r: nat, oldName: string, newName: string, a: string)
    requires r !in w.renames && oldName != newName && newName !in w.known
    ensures var w' := Step(w, RenameMemory(r, oldName, newName));
            Stray(w', a) <==> a != newName && (Stray(w, a) || (a == oldName && (a in w.rows || BeingWritten(w, a))))
  {
    SameFlushes(w, Step(w, RenameMemory(r, oldName, newName)), a);
  }

  /** The store half, when the store takes the name, clears the old name's row and strands
      the new name exactly if it has been forgotten meanwhile. */
  lemma {:induction false} StoreHalfStrands(w: World, r: nat, storeFails: bool, a: string)
    requires r in w.renames && !w.renames[r].failed
             && StoreRenames(w, w.renames[r].oldName, w.renames[r].newName, storeFails)
    requires w.renames[r].oldName != w.renames[r].newName
    ensures var rename, w' := w.renames[r], Step(w, RenameStore(r, storeFails));
            Stray(w', a) <==> if a == rename.oldName then a !in w.known && BeingWritten(w, a)
                              else if a == rename.newName then a !in w.known
                              else Stray(w, a)
  {
    SameFlushes(w, Step(w, RenameStore(r, storeFails)), a);
  }

  /** The way back strands the new name exactly if the store has it by then, or is about to. */
  lemma {:induction false} WayBackStrands(w: World, r: nat, a: string)
    requires r in w.renames && w.renames[r].failed && w.renames[r].oldName != w.renames[r].newName
    ensures var rename, w' := w.renames[r], Step(w, RollBack(r));
            Stray(w', a) <==> a != rename.oldName && if a == rename.newName then a in w.rows || BeingWritten(w, a)
                                                     else Stray(w, a)
  {
    SameFlushes(w, Step(w, RollBack(r)), a);
  }

  lemma {:induction false} SameFlushes(w: World, w': World, a: string)
    requires w.flushes == w'.flushes
    ensures BeingWritten(w, a) <==> BeingWritten(w', a)
  {
  }

  // ---------- a whole rename, with anything in between ----------

  /** Nothing is stranded but perhaps one name. */
  ghost predicate InStepBut(w: World, name: string) {
    LocksKept(w) && forall a :: Stray(w, a) ==> a == name
  }

  lemma {:induction false} RunStrandsNoOther(w: World, events: seq<Event>, name: string)
    requires InStepBut(w, name) && forall e | e in events :: !OfRename(e)
    ensures InStepBut(Run(w, events), name) && Run(w, events).renames == w.renames
    decreases |events|
  {
    if events == [] {
    } else {
      var w' := Step(w, events[0]);
      assert events[0] in events && forall e | e in events[1..] :: e in events;
      StepKeepsLocks(w, events[0]);
      forall a | Stray(w', a) ensures a == name {
        OnlyRenamesStrand(w, events[0], a);
      }
      RunStrandsNoOther(w', events[1..], name);
    }
  }

  /** What the rename's last step finds when it leaves rows and memory in step: after a
      store that took the new name, the manager still knows it and nobody is about to write
      the old one; after a store that refused, no row has the new name and none will. */
  ghost predicate Settles(w: World, oldName: string, newName: string, took: bool) {
    if took then newName in w.known && (oldName in w.known || !BeingWritten(w, oldName))
    else newName !in w.rows && !BeingWritten(w, newName)
  }

  /** A rename the store takes: whatever requests, flushes and deletions come between its
      two halves, it ends with rows and memory in step exactly if its last step finds it so. */
  lemma {:induction false} RenameEndsInStep(w: World, r: nat, oldName: string, newName: string, between: seq<Event>)
    requires InStep(w) && r !in w.renames && oldName != newName && newName !in w.known
    requires forall e | e in between :: !OfRename(e)
    requires StoreRenames(Run(Step(w, RenameMemory(r, oldName, newName)), between), oldName, newName, false)
    ensures var last := Run(Step(w, RenameMemory(r, oldName, newName)), between);
            InStep(Step(last, RenameStore(r, false))) <==> Settles(last, oldName, newName, true)
  {
    var first := Step(w, RenameMemory(r, oldName, newName));
    var last := Run(first, between);
    AfterMemoryHalf(w, r, oldName, newName);
    RunStrandsNoOther(first, between, oldName);
    var end := Step(last, RenameStore(r, false));
    StepKeepsLocks(last, RenameStore(r, false));
    StoreHalfStrands(last, r, false, oldName);
    StoreHalfStrands(last, r, false, newName);
    forall a | a != oldName && a != newName ensures !Stray(end, a) {
      StoreHalfStrands(last, r, false, a);
    }
  }

  /** A rename the store refuses: whatever comes before and after the refusal, the way back
      ends in step exactly if it finds no row of the new name, written or to be written. */
  lemma {:induction false} RefusedRenameEndsInStep(w: World, r: nat, oldName: string, newName: string,
                                                   before: seq<Event>, storeFails: bool, after: seq<Event>)
    requires InStep(w) && r !in w.renames && oldName != newName && newName !in w.known
    requires forall e | e in before + after :: !OfRename(e)
    requires !StoreRenames(Run(Step(w, RenameMemory(r, oldName, newName)), before), oldName, newName, storeFails)
    ensures var refused := Step(Run(Step(w, RenameMemory(r, oldName, newName)), before), RenameStore(r, storeFails));
            var last := Run(refused, after);
            InStep(Step(last, RollBack(r))) <==> Settles(last, oldName, newName, false)
  {
    assert forall e | e in before :: e in before + after;
    assert forall e | e in after :: e in before + after;
    var first := Step(w, RenameMemory(r, oldName, newName));
    AfterMemoryHalf(w, r, oldName, newName);
    RunStrandsNoOther(first, before, oldName);
    var refused := Step(Run(first, before), RenameStore(r, storeFails));
    RefusalStrandsNone(Run(first, before), r, storeFails, oldName);
    RunStrandsNoOther(refused, after, oldName);
    var last := Run(refused, after);
    StepKeepsLocks(last, RollBack(r));
    WayBackStrands(last, r, newName);
    forall a | a != newName ensures !Stray(Step(last, RollBack(r)), a) {
      WayBackStrands(last, r, a);
    }
  }

  lemma {:induction false} AfterMemoryHalf(w: World, r: nat, oldName: string, newName: string)
    requires InStep(w) && r !in w.renames && oldName != newName && newName !in w.known
    ensures var first := Step(w, RenameMemory(r, oldName, newName));
            && InStepBut(first, oldName) && r in first.renames
            && first.renames[r] == Renaming(oldName, newName, oldName in w.dirty || oldName !in w.known, false)
  {
    StepKeepsLocks(w, RenameMemory(r, oldName, newName));
    forall a | Stray(Step(w, RenameMemory(r, oldName, newName)), a) ensures a == oldName {
      MemoryHalfStrands(w, r, oldName, newName, a);
    }
  }

  lemma {:induction false} RefusalStrandsNone(w: World, r: nat, storeFails: bool, name: string)
    requires InStepBut(w, name) && r in w.renames && !w.renames[r].failed
             && !StoreRenames(w, w.renames[r].oldName, w.renames[r].newName, storeFails)
    ensures var refused := Step(w, RenameStore(r, storeFails));
            InStepBut(refused, name) && refused.renames == w.renames[r := w.renames[r].(failed := true)]
  {
    var refused := Step(w, RenameStore(r, storeFails));
    forall a ensures Stray(refused, a) <==> Stray(w, a) {
      SameFlushes(w, refused, a);
    }
  }

  // ---------- when a rename is safe ----------

  /** Between a rename's halves: no flush begins, and neither name is deleted or discovered. */
  predicate Undisturbing(e: Event, oldName: string, newName: string) {
    !OfRename(e) && !e.BeginFlush? && !e.CommitDelete? && e != Discover(oldName) && e != Discover(newName)
  }

  ghost predicate Undisturbed(w: World, oldName: string, newName: string) {
    && newName in w.known && oldName !in w.known && newName !in w.rows
    && !BeingWritten(w, oldName) && !BeingWritten(w, newName)
  }

  lemma {:induction false} StaysUndisturbed(w: World, events: seq<Event>, oldName: string, newName: string)
    requires Undisturbed(w, oldName, newName) && forall e | e in events :: Undisturbing(e, oldName, newName)
    ensures Undisturbed(Run(w, events), oldName, newName)
    decreases |events|
  {
    if events == [] {
    } else {
      var w' := Step(w, events[0]);
      assert events[0] in events && forall e | e in events[1..] :: e in events;
      forall a | !BeingWritten(w, a) ensures !BeingWritten(w', a) && (a !in w.rows ==> a !in w'.rows) {
        NoNewWrites(w, events[0], a);
      }
      StaysUndisturbed(w', events[1..], oldName, newName);
    }
  }

  lemma {:induction false} NoNewWrites(w: World, e: Event, a: string)
    requires !BeingWritten(w, a) && !OfRename(e) && !e.BeginFlush?
    ensures !BeingWritten(Step(w, e), a) && (a !in w.rows ==> a !in Step(w, e).rows)
  {
    var w' := Step(w, e);
    if e.WriteAgent? && e.flush in w.flushes && w.flushes[e.flush] != [] {
      assert w.flushes[e.flush][0] != a;
    }
    assert forall g | g in w'.flushes && a in w'.flushes[g] :: g in w.flushes && a in w.flushes[g];
  }

  /** A rename that meets no flush holding the old name, and between whose steps no flush
      begins and neither name is deleted or discovered, ends in step whatever the store says. */
  lemma {:induction false} UndisturbedRename(w: World, r: nat, oldName: string, newName: string, before: seq<Event>,
                                             storeFails: bool, after: seq<Event>)
    requires InStep(w) && r !in w.renames && oldName != newName && newName !in w.known && !BeingWritten(w, oldName)
    requires forall e | e in before + after :: Undisturbing(e, oldName, newName)
    ensures var last := Run(Step(w, RenameMemory(r, oldName, newName)), before);
            var answered := Step(last, RenameStore(r, storeFails));
            if StoreRenames(last, oldName, newName, storeFails) then InStep(answered)
            else InStep(Step(Run(answered, after), RollBack(r)))
  {
    assert forall e | e in before :: e in before + after;
    assert forall e | e in after :: e in before + after;
    var first := Step(w, RenameMemory(r, oldName, newName));
    assert !Stray(w, newName);
    SameFlushes(w, first, oldName);
    SameFlushes(w, first, newName);
    StaysUndisturbed(first, before, oldName, newName);
    var last := Run(first, before);
    var answered := Step(last, RenameStore(r, storeFails));
    AfterMemoryHalf(w, r, oldName, newName);
    RunStrandsNoOther(first, before, oldName);
    if StoreRenames(last, oldName, newName, storeFails) {
      RenameEndsInStep(w, r, oldName, newName, before);
    } else {
      SameFlushes(last, answered, oldName);
      SameFlushes(last, answered, newName);
      StaysUndisturbed(answered, after, oldName, newName);
      RefusedRenameEndsInStep(w, r, oldName, newName, before, storeFails, after);
    }
  }

  /** A run is wherever its steps lead, one after another. */
  lemma {:induction false} RunVisits(worlds: seq<World>, events: seq<Event>)
    requires |worlds| == |events| + 1
    requires forall i | 0 <= i < |events| :: worlds[i + 1] == Step(worlds[i], events[i])
    ensures Run(worlds[0], events) == worlds[|events|]
    decreases |events|
  {
    if events == [] {
    } else {
      RunVisits(worlds[1..], events[1..]);
    }
  }

  /** One saved agent and nothing under way. */
  function Saved(a: string, dirty: bool): World {
    World({a}, if dirty then {a} else {}, {a}, {}, map[], NoDeletion, map[])
  }

  lemma {:induction false} SavedIsInStep(a: string, dirty: bool)
    ensures InStep(Saved(a, dirty))
  {
  }

  /** A flush overtaken by a rename writes the old name back. */
  lemma {:induction false} RenameCanResurrect(a: string, b: string)
    requires a != b
    ensures var end := Run(Saved(a, true), [BeginFlush(0, [a]), RenameMemory(0, a, b),
                                            RenameStore(0, false), WriteAgent(0, true)]);
            InStep(Saved(a, true)) && a in end.rows && a !in end.known && end.renames == map[]
  {
    SavedIsInStep(a, true);
    var w0 := Saved(a, true);
    assert (set x | x in [a]) == {a};
    var w1 := Step(w0, BeginFlush(0, [a]));
    var w2 := Step(w1, RenameMemory(0, a, b));
    var w3 := Step(w2, RenameStore(0, false));
    var w4 := Step(w3, WriteAgent(0, true));
    RunVisits([w0, w1, w2, w3, w4],
              [BeginFlush(0, [a]), RenameMemory(0, a, b), RenameStore(0, false), WriteAgent(0, true)]);
  }

  /** A flush between the halves writes the new name; the store then refuses the rename, and
      the way back leaves that row to nobody. */
  lemma {:induction false} RefusedRenameCanStrand(a: string, b: string)
    requires a != b
    ensures var end := Run(Saved(a, false),
                           [RenameMemory(0, a, b), BeginFlush(0, [b]), WriteAgent(0, true), EndFlush(0),
                            RenameStore(0, false), RollBack(0)]);
            InStep(Saved(a, false)) && b in end.rows && b !in end.known && end.renames == map[] && end.flushes == map[]
  {
    SavedIsInStep(a, false);
    var head := [RenameMemory(0, a, b), BeginFlush(0, [b]), WriteAgent(0, true)];
    var tail := [EndFlush(0), RenameStore(0, false), RollBack(0)];
    FlushBetweenHalves(a, b);
    RefusedWayBack(a, b);
    RunSplits(Saved(a, false), head, tail);
    assert head + tail == [head[0], head[1], head[2], tail[0], tail[1], tail[2]];
  }

  /** The world after the new name was written between the halves. */
  function Overtaken(a: string, b: string): World {
    World({b}, {}, {a, b}, {}, map[0 := []], NoDeletion, map[0 := Renaming(a, b, false, false)])
  }

  lemma {:induction false} FlushBetweenHalves(a: string, b: string)
    requires a != b
    ensures Run(Saved(a, false), [RenameMemory(0, a, b), BeginFlush(0, [b]), WriteAgent(0, true)]) == Overtaken(a, b)
  {
    assert (set x | x in [b]) == {b};
    var w0 := Saved(a, false);
    var w1 := Step(w0, RenameMemory(0, a, b));
    assert w1.dirty == {b};
    var w2 := Step(w1, BeginFlush(0, [b]));
    var w3 := Step(w2, WriteAgent(0, true));
    assert w3 == Overtaken(a, b);
    RunVisits([w0, w1, w2, w3], [RenameMemory(0, a, b), BeginFlush(0, [b]), WriteAgent(0, true)]);
  }

  lemma {:induction false} RefusedWayBack(a: string, b: string)
    requires a != b
    ensures var end := Run(Overtaken(a, b), [EndFlush(0), RenameStore(0, false), RollBack(0)]);
            b in end.rows && b !in end.known && end.renames == map[] && end.flushes == map[]
  {
    var w3 := Overtaken(a, b);
    var w4 := Step(w3, EndFlush(0));
    var w5 := Step(w4, RenameStore(0, false));
    var w6 := Step(w5, RollBack(0));
    assert w4.flushes == map[] && w6.renames == map[];
    RunVisits([w3, w4, w5, w6], [EndFlush(0), RenameStore(0, false), RollBack(0)]);
  }

  lemma {:induction false} RunSplits(w: World, head: seq<Event>, tail: seq<Event>)
    ensures Run(w, head + tail) == Run(Run(w, head), tail)
    decreases |head|
  {
    if head == [] {
      assert head + tail == tail;
    } else {
      assert (head + tail)[1..] == head[1..] + tail;
      RunSplits(Step(w, head[0]), head[1..], tail);
    }
  }

  /** A deletion of the new name between the halves: the store's rename brings its row back. */
  lemma {:induction false} DeletionBetweenHalves(a: string, b: string)
    requires a != b
    ensures var end := Run(Saved(a, false), [RenameMemory(0, a, b), LockForDelete(b), CommitDelete(false),
                                             EndDelete, RenameStore(0, false)]);
            InStep(Saved(a, false)) && b in end.rows && b !in end.known && end.renames == map[]
  {
    SavedIsInStep(a, false);
    var w0 := Saved(a, false);
    var w1 := Step(w0, RenameMemory(0, a, b));
    var w2 := Step(w1, LockForDelete(b));
    var w3 := Step(w2, CommitDelete(false));
    var w4 := Step(w3, EndDelete);
    var w5 := Step(w4, RenameStore(0, false));
    assert w5.renames == map[];
    RunVisits([w0, w1, w2, w3, w4, w5],
              [RenameMemory(0, a, b), LockForDelete(b), CommitDelete(false), EndDelete, RenameStore(0, false)]);
  }

  // ---------- the sequential calls ----------

  datatype DeleteOutcome = Deleted | Protected | NotFound | StoreFailed

  /** The state a snapshot takes and cleans. */
  function Current(s: Settings, m: Memory, agent: string, now: int): AgentState
    requires agent in m.states
  {
    RolledOver(s.addMonth, PolicyFor(s, m, agent), m.states[agent], now)
  }

  function CleanedStates(s: Settings, m: Memory, now: int): map<string, AgentState> {
    map a | a in m.states :: Current(s, m, a, now).(dirty := false)
  }

  function TakenRows(s: Settings, m: Memory, now: int): map<string, AgentRow> {
    map a | a in m.states && Current(s, m, a, now).dirty :: RowOf(PolicyFor(s, m, a), Current(s, m, a, now))
  }

  /** Records as the store keeps them. */
  function StoredRows(taken: map<string, AgentRow>): map<string, AgentRow> {
    map a | a in taken :: Stored(taken[a])
  }

  /** After a flush in which every write succeeded, the next start loads each agent that was
      dirty with its spend, and killed if and only if it was killed, declared or not. */
  lemma {:induction false} FlushedAgentsReload(s: Settings, m: Memory, now: int, rows: map<string, AgentRow>,
                                               agent: string, configured: Option<Policy>, later: int)
    requires agent in m.states && Current(s, m, agent, now).dirty
    ensures var taken := TakenRows(s, m, now);
            forall after | PartWritten(rows, StoredRows(taken), taken.Keys, after) ::
            && agent in after
            && var loaded := LoadedState(s.addMonth, Seeded(s.addMonth, after[agent], configured, later), later);
               && loaded.spentUSD == Current(s, m, agent, now).spentUSD
               && loaded.killed == Current(s, m, agent, now).killed
  {
    AgentLaws.RestartKeepsKill(s.addMonth, configured, PolicyFor(s, m, agent), Current(s, m, agent, now), later);
  }

  predicate RowIs(rows: map<string, AgentRow>, agent: string, row: AgentRow) {
    agent in rows && rows[agent] == row
  }

  /** Every agent is marked to be written, or its row is what would be written. */
  ghost predicate AllSaved(s: Settings, m: Memory, rows: map<string, AgentRow>) {
    forall a | a in m.states :: IsSaved(s, m, rows, a)
  }

  ghost predicate IsSaved(s: Settings, m: Memory, rows: map<string, AgentRow>, agent: string)
    requires agent in m.states
  {
    m.states[agent].dirty || RowIs(rows, agent, Stored(RowOf(PolicyFor(s, m, agent), m.states[agent])))
  }

  /** The row an agent should have once its period has been looked at. */
  function CurrentRow(s: Settings, m: Memory, now: int, agent: string): AgentRow
    requires agent in m.states
  {
    Stored(RowOf(PolicyFor(s, m, agent), Current(s, m, agent, now)))
  }

  /** After a flush, whatever was written, every agent is saved or marked exactly when each
      was written or its row was already what it should be: a dirty agent the flush did not
      reach is left unmarked, and a clean one is never written. */
  lemma {:induction false} FlushSavesAll(s: Settings, m: Memory, now: int, rows: map<string, AgentRow>,
                                         written: set<string>, after: map<string, AgentRow>)
    requires PartWritten(rows, StoredRows(TakenRows(s, m, now)), written, after)
    ensures AllSaved(s, m.(states := CleanedStates(s, m, now)), after)
            <==> forall a | a in m.states :: a in written || RowIs(rows, a, CurrentRow(s, m, now, a))
    ensures forall a | a in written :: a in m.states && Current(s, m, a, now).dirty
  {
    forall a | a in m.states
      ensures IsSaved(s, m.(states := CleanedStates(s, m, now)), after, a)
              <==> a in written || RowIs(rows, a, CurrentRow(s, m, now, a))
    {
      FlushedRow(s, m, now, rows, written, after, a);
    }
  }

  lemma {:induction false} FlushedRow(s: Settings, m: Memory, now: int, rows: map<string, AgentRow>,
                                      written: set<string>, after: map<string, AgentRow>, agent: string)
    requires PartWritten(rows, StoredRows(TakenRows(s, m, now)), written, after) && agent in m.states
    ensures IsSaved(s, m.(states := CleanedStates(s, m, now)), after, agent)
            <==> agent in written || RowIs(rows, agent, CurrentRow(s, m, now, agent))
  {
    assert agent in after <==> agent in rows || agent in written;
    assert CleanedStates(s, m, now)[agent] == Current(s, m, agent, now).(dirty := false);
  }

  /** Every agent is saved or marked after a flush, in whatever order it writes, exactly when
      every row is already what it should be, or every write of a dirty agent succeeds and
      every other row is already what it should be. */
  lemma {:induction false} EveryFlushSavesAll(s: Settings, m: Memory, now: int, rows: map<string, AgentRow>,
                                              succeeds: string -> bool)
    ensures (forall written, after | CanWrite(TakenRows(s, m, now), succeeds, written)
                                     && PartWritten(rows, StoredRows(TakenRows(s, m, now)), written, after) ::
               AllSaved(s, m.(states := CleanedStates(s, m, now)), after))
            <==> AllCurrent(s, m, now, rows, m.states.Keys) || WritesSave(s, m, now, rows, succeeds)
  {
    var taken := TakenRows(s, m, now);
    if AllCurrent(s, m, now, rows, m.states.Keys) || WritesSave(s, m, now, rows, succeeds) {
      forall written, after | CanWrite(taken, succeeds, written) && PartWritten(rows, StoredRows(taken), written, after)
        ensures AllSaved(s, m.(states := CleanedStates(s, m, now)), after)
      {
        FlushSavesAll(s, m, now, rows, written, after);
      }
    } else {
      var all := forall a | a in taken :: succeeds(a);
      var written := if all then taken.Keys else {};
      var after := Written(rows, StoredRows(taken), written);
      assert CanWrite(taken, succeeds, written);
      FlushSavesAll(s, m, now, rows, written, after);
      assert !AllSaved(s, m.(states := CleanedStates(s, m, now)), after);
    }
  }

  ghost predicate AllCurrent(s: Settings, m: Memory, now: int, rows: map<string, AgentRow>, agents: set<string>) {
    forall a | a in agents && a in m.states :: RowIs(rows, a, CurrentRow(s, m, now, a))
  }

  ghost predicate WritesSave(s: Settings, m: Memory, now: int, rows: map<string, AgentRow>, succeeds: string -> bool) {
    && (forall a | a in TakenRows(s, m, now) :: succeeds(a))
    && AllCurrent(s, m, now, rows, m.states.Keys - TakenRows(s, m, now).Keys)
  }

  function Written<R>(rows: map<string, R>, records: map<string, R>, written: set<string>): (after: map<string, R>)
    requires written <= records.Keys
    ensures PartWritten(rows, records, written, after)
  {
    map a | a in rows.Keys + written :: if a in written then records[a] else rows[a]
  }

  /** A dirty agent whose row a failing flush did not reach is clean in memory, and its
      row is what it was. */
  lemma {:induction false} FailedFlushForgets(s: Settings, m: Memory, now: int, rows: map<string, AgentRow>,
                                              written: set<string>, after: map<string, AgentRow>, agent: string)
    requires agent in TakenRows(s, m, now) && agent !in written
    requires PartWritten(rows, StoredRows(TakenRows(s, m, now)), written, after)
    ensures agent in m.states && !CleanedStates(s, m, now)[agent].dirty
    ensures agent in after <==> agent in rows
    ensures agent in rows ==> after[agent] == rows[agent]
  {
  }

  /** One agent that has spent a dollar, and one write that fails: nothing is stored and
      nothing is marked. */
  lemma {:induction false} OneFailedWriteForgets(s: Settings, global: GlobalState, agent: string, now: int)
    ensures var state := NewState(s.addMonth, s.defaultPolicy, now).(spentUSD := 1.0, periodResetsAt := now + 1);
            var m := Memory(map[], map[agent := state], {agent}, global);
            && AllSaved(s, m, map[]) && agent in TakenRows(s, m, now)
            && PartWritten(map[], StoredRows(TakenRows(s, m, now)), {}, map[])
            && !AllSaved(s, m.(states := CleanedStates(s, m, now)), map[])
  {
    var state := NewState(s.addMonth, s.defaultPolicy, now).(spentUSD := 1.0, periodResetsAt := now + 1);
    var m := Memory(map[], map[agent := state], {agent}, global);
    assert Current(s, m, agent, now) == state;
    FailedFlushForgets(s, m, now, map[], {}, map[], agent);
    assert !IsSaved(s, m.(states := CleanedStates(s, m, now)), map[], agent);
  }

  /** One agent's part of a snapshot. */
  method TakeRecord(s: Settings, m: Memory, agent: string, now: int)
    returns (cleaned: AgentState, record: Option<AgentRow>)
    requires agent in m.states
    ensures cleaned == Current(s, m, agent, now).(dirty := false)
    ensures record.Some? <==> Current(s, m, agent, now).dirty
    ensures record.Some? ==> record.value == RowOf(PolicyFor(s, m, agent), Current(s, m, agent, now))
  {
    var policy := PolicyFor(s, m, agent);
    var current := RolledOver(s.addMonth, policy, m.states[agent], now);
    cleaned := current.(dirty := false);
    record := if current.dirty then Some(RowOf(policy, current)) else None;
  }

  method TakeRecords(s: Settings, m: Memory, now: int)
    returns (states: map<string, AgentState>, records: map<string, AgentRow>)
    requires m.known == m.states.Keys
    ensures states == CleanedStates(s, m, now)
    ensures records == TakenRows(s, m, now)
  {
    states, records := m.states, map[];
    var left := m.known;
    while left != {}
      invariant left <= m.known
      invariant PartCleaned(s, m, now, left, states)
      invariant PartTaken(s, m, now, left, records)
      decreases left
    {
      var agent :| agent in left;
      var cleaned, record := TakeRecord(s, m, agent, now);
      if record.Some? {
        records := records[agent := record.value];
      }
      states := states[agent := cleaned];
      left := left - {agent};
    }
  }

  ghost predicate PartCleaned(s: Settings, m: Memory, now: int, left: set<string>, states: map<string, AgentState>) {
    && states.Keys == m.states.Keys
    && forall a | a in states :: states[a] == if a in left then m.states[a] else Current(s, m, a, now).(dirty := false)
  }

  ghost predicate PartTaken(s: Settings, m: Memory, now: int, left: set<string>, records: map<string, AgentRow>) {
    && (forall a :: a in records <==> a in m.states && a !in left && Current(s, m, a, now).dirty)
    && forall a | a in records :: records[a] == RowOf(PolicyFor(s, m, a), Current(s, m, a, now))
  }

  ghost predicate PartWritten<R>(before: map<string, R>, records: map<string, R>, written: set<string>,
                                 rows: map<string, R>)
  {
    && written <= records.Keys
    && rows.Keys == before.Keys + written
    && forall a | a in rows :: if a in written then rows[a] == records[a] else a in before && rows[a] == before[a]
  }

  /** The sets of rows that may be written, by the order in which they are tried: all of
      them when every write succeeds, and otherwise any that can come before a failing one. */
  ghost predicate CanWrite<R>(records: map<string, R>, succeeds: string -> bool, written: set<string>) {
    && written <= records.Keys
    && (forall a | a in written :: succeeds(a))
    && ((forall a | a in records :: succeeds(a)) ==> written == records.Keys)
  }

  /** Writes rows in no particular order until one write fails. */
  method WriteRows<R>(before: map<string, R>, records: map<string, R>, succeeds: string -> bool)
    returns (rows: map<string, R>, ok: bool, ghost written: set<string>)
    ensures ok <==> forall a | a in records :: succeeds(a)
    ensures ok ==> rows == before + records
    ensures ok <==> written == records.Keys
    ensures CanWrite(records, succeeds, written)
    ensures PartWritten(before, records, written, rows)
  {
    rows, written := before, {};
    var left := records.Keys;
    while left != {}
      invariant left <= records.Keys && written == records.Keys - left
      invariant forall a | a in written :: succeeds(a)
      invariant PartWritten(before, records, written, rows)
      decreases left
    {
      var agent :| agent in left;
      assert agent in records && agent !in written;
      if !succeeds(agent) {
        return rows, false, written;
      }
      rows := rows[agent := records[agent]];
      written := written + {agent};
      left := left - {agent};
    }
    ok := true;
  }

  class AgentPersistence {
    const manager: BudgetManager
    const configuredAgents: set<string>
    const tasks: TaskStore.TaskFlusher
    var taskLimits: map<string, real>
    var rows: map<string, AgentRow>

    constructor (manager: BudgetManager, configuredAgents: set<string>, tasks: TaskStore.TaskFlusher,
                 taskLimits: map<string, real>, rows: map<string, AgentRow>)
      ensures this.manager == manager && this.configuredAgents == configuredAgents && this.tasks == tasks
      ensures this.taskLimits == taskLimits && this.rows == rows
    {
      this.manager, this.configuredAgents, this.tasks, this.taskLimits, this.rows :=
        manager, configuredAgents, tasks, taskLimits, rows;
    }

    ghost predicate Valid()
      reads this, manager, tasks
    {
      manager.knownAgents == manager.state.Keys && TaskStore.DirtyOrStored(tasks.tasks, tasks.rows)
    }

    /** Starts lapsed periods again and takes the row of every dirty agent, under one lock. */
    method SnapshotDirtyAgentRecords(now: int) returns (records: map<string, AgentRow>)
      requires Valid()
      modifies manager`state
      ensures Valid()
      ensures manager.state == CleanedStates(manager.settings, old(manager.Model()), now)
      ensures records == TakenRows(manager.settings, old(manager.Model()), now)
    {
      var memory := Memory(manager.agentPolicy, manager.state, manager.knownAgents, manager.globalState);
      var states;
      states, records := TakeRecords(manager.settings, memory, now);
      manager.state := states;
    }

    /** Writes the dirty agent rows, in no particular order, until one write fails, and
        then, if none did, the dirty task rows. Agents whose rows were not written are
        clean in memory all the same; such tasks stay dirty. */
    method Flush(now: int, succeeds: string -> bool, taskSucceeds: nat -> bool)
      returns (ok: bool, ghost written: set<string>)
      requires Valid()
      modifies this`rows, manager`state, tasks
      ensures Valid()
      ensures manager.state == CleanedStates(manager.settings, old(manager.Model()), now)
      ensures var taken := TakenRows(manager.settings, old(manager.Model()), now);
              && (written == taken.Keys <==> forall a | a in taken :: succeeds(a))
              && CanWrite(taken, succeeds, written)
              && PartWritten(old(rows), StoredRows(taken), written, rows)
              && (written != taken.Keys ==> !ok && tasks.tasks == old(tasks.tasks) && tasks.rows == old(tasks.rows))
              && (written == taken.Keys ==> (ok <==> forall t | t in tasks.tasks :: !tasks.tasks[t].dirty))
      ensures tasks.tasks.Keys == old(tasks.tasks).Keys
      ensures forall t | t in tasks.tasks :: tasks.tasks[t] == old(tasks.tasks)[t].(dirty := tasks.tasks[t].dirty)
    {
      var records := SnapshotDirtyAgentRecords(now);
      var after;
      after, ok, written := WriteRows(rows, StoredRows(records), succeeds);
      rows := after;
      if ok {
        ok := tasks.FlushTasks(taskSucceeds);
      }
    }

    /** Forgets one agent in memory, in the store and on its tasks, or changes nothing;
        `flushed` says whether every detached task was written. */
    method DeleteAgent(rawAgent: string, storeFails: bool, taskSucceeds: nat -> bool)
      returns (outcome: DeleteOutcome, flushed: bool)
      requires Valid()
      modifies this`rows, this`taskLimits, manager`agentPolicy, manager`state, manager`knownAgents, tasks
      ensures Valid()
      ensures var agent := Tasks.NormalizeAgent(rawAgent);
              var tracked := agent in old(manager.knownAgents) || agent in old(manager.agentPolicy);
              && (outcome == Deleted
                  <==> TrimSpace(rawAgent) != "" && agent !in configuredAgents && !storeFails
                       && (tracked || agent in old(rows)))
              && (outcome == Protected <==> TrimSpace(rawAgent) != "" && agent in configuredAgents)
              && (outcome == StoreFailed <==> TrimSpace(rawAgent) != "" && agent !in configuredAgents && storeFails)
              && (outcome == Deleted ==>
                    && manager.Model() == old(manager.Model()).(
                         policies := old(manager.agentPolicy) - {agent},
                         states := old(manager.state) - {agent},
                         known := old(manager.knownAgents) - {agent})
                    && rows == old(rows) - {agent} && taskLimits == old(taskLimits) - {agent})
              && (outcome == Deleted ==> tasks.tasks.Keys == old(tasks.tasks).Keys && forall t | t in tasks.tasks ::
                    && tasks.tasks[t]
                       == TaskStore.DetachedBook(old(tasks.tasks), agent)[t].(dirty := tasks.tasks[t].dirty)
                    && tasks.tasks[t].lastAgent != agent)
              && (outcome == Deleted && agent in old(rows) ==>
                    forall t | t in tasks.rows :: tasks.rows[t].lastAgent != agent)
              && (outcome == Deleted ==> (flushed <==> forall t | t in tasks.tasks :: !tasks.tasks[t].dirty))
      ensures outcome != Deleted ==>
                manager.Model() == old(manager.Model()) && rows == old(rows) && taskLimits == old(taskLimits)
                && tasks.tasks == old(tasks.tasks) && tasks.rows == old(tasks.rows)
    {
      flushed := true;
      if TrimSpace(rawAgent) == "" {
        return NotFound, flushed;
      }
      var agent := Tasks.NormalizeAgent(rawAgent);
      if agent in configuredAgents {
        return Protected, flushed;
      }
      var tracked := agent in manager.knownAgents || agent in manager.state || agent in manager.agentPolicy;
      if storeFails {
        return StoreFailed, flushed;
      }
      if agent !in rows && !tracked {
        return NotFound, flushed;
      }
      flushed := DetachTasks(agent, taskSucceeds);
      rows := rows - {agent};
      manager.agentPolicy := manager.agentPolicy - {agent};
      manager.state := manager.state - {agent};
      manager.knownAgents := manager.knownAgents - {agent};
      taskLimits := taskLimits - {agent};
      outcome := Deleted;
    }

    /** Clears the agent from its tasks and flushes them; a stored agent's task rows are
        cleared with its own row. */
    method DetachTasks(agent: string, taskSucceeds: nat -> bool) returns (flushed: bool)
      requires TaskStore.DirtyOrStored(tasks.tasks, tasks.rows) && agent != ""
      modifies tasks
      ensures TaskStore.DirtyOrStored(tasks.tasks, tasks.rows)
      ensures tasks.tasks.Keys == old(tasks.tasks).Keys
      ensures forall t | t in tasks.tasks ::
                && tasks.tasks[t] == TaskStore.DetachedBook(old(tasks.tasks), agent)[t].(dirty := tasks.tasks[t].dirty)
                && tasks.tasks[t].lastAgent != agent
      ensures agent in rows ==> forall t | t in tasks.rows :: tasks.rows[t].lastAgent != agent
      ensures flushed <==> forall t | t in tasks.tasks :: !tasks.tasks[t].dirty
    {
      tasks.DetachAgent(agent, agent in rows);
      flushed := tasks.FlushTasks(taskSucceeds);
    }
  }
}
