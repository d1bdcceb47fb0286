/**
 How settled task totals reach the store while requests keep settling: dirty
 flags, batches in flight and writes that fail (internal/budget/tasks.go).
 */
module TaskStore {
  import opened Text
  import Tasks

  datatype TaskRecord = TaskRecord(
    taskID: string,
    lastAgent: string,
    spentUSD: real,
    limitUSD: real,
    requestCount: int,
    firstSeenAt: int,
    lastSeenAt: int)

  type Rows = map<string, TaskRecord>

  function RecordOf(taskID: string, state: Tasks.TaskState): TaskRecord {
    TaskRecord(taskID, state.lastAgent, state.spentUSD, state.limitUSD, state.requestCount, state.firstSeenAt,
               state.lastSeenAt)
  }

  predicate SameTotals(r: TaskRecord, state: Tasks.TaskState) {
    r.spentUSD == state.spentUSD && r.requestCount == state.requestCount
  }

  /** The store's totals are the task's; a task without a row has spent nothing. */
  predicate StoredTotals(rows: Rows, taskID: string, state: Tasks.TaskState) {
    if taskID in rows then SameTotals(rows[taskID], state)
    else state.spentUSD == 0.0 && state.requestCount == 0
  }

  ghost predicate DirtyOrStored(book: Tasks.Book, rows: Rows) {
    forall t | t in book :: book[t].dirty || StoredTotals(rows, t, book[t])
  }

  function Cleaned(book: Tasks.Book, taskID: string): Tasks.Book
    requires taskID in book
  {
    book[taskID := book[taskID].(dirty := false)]
  }

  function Marked(book: Tasks.Book, taskID: string): Tasks.Book {
    if taskID in book then book[taskID := book[taskID].(dirty := true)] else book
  }

  // ---------- every interleaving ----------

  /** A record taken from memory, on its way to the store; `failed` once its write
      has failed and its dirty flag is not yet put back. */
  datatype Flight = Flight(record: TaskRecord, failed: bool)

  datatype World = World(system: Tasks.System, rows: Rows, flights: seq<Flight>)

  /** One step of some goroutine, ending where it releases the manager's lock or
      where the store answers it. */
  datatype Event =
    | Call(event: Tasks.Event)
    | Take(taskID: string)
    | WriteOk(flight: nat)
    | WriteFail(flight: nat)
    | Remark(flight: nat)
    | Detach(agent: string)

  function Without(flights: seq<Flight>, i: nat): seq<Flight>
    requires i < |flights|
  {
    flights[..i] + flights[i + 1..]
  }

  /** Deleting an agent clears it from its tasks, in memory and in the store. */
  function DetachedBook(book: Tasks.Book, agent: string): Tasks.Book {
    map t | t in book :: if book[t].lastAgent == agent then book[t].(lastAgent := "", dirty := true) else book[t]
  }

  function DetachedRows(rows: Rows, agent: string): Rows {
    map t | t in rows :: if rows[t].lastAgent == agent then rows[t].(lastAgent := "") else rows[t]
  }

  function Step(w: World, e: Event): World {
    var book := w.system.book;
    match e
    case Call(event) => w.(system := Tasks.Step(w.system, event))
    case Take(t) =>
      if t !in book || !book[t].dirty then w
      else w.(system := w.system.(book := Cleaned(book, t)),
              flights := w.flights + [Flight(RecordOf(t, book[t]), false)])
    case WriteOk(i) =>
      if i >= |w.flights| || w.flights[i].failed then w
      else w.(rows := w.rows[w.flights[i].record.taskID := w.flights[i].record], flights := Without(w.flights, i))
    case WriteFail(i) =>
      if i >= |w.flights| then w
      else w.(flights := w.flights[i := w.flights[i].(failed := true)])
    case Remark(i) =>
      if i >= |w.flights| || !w.flights[i].failed then w
      else w.(system := w.system.(book := Marked(book, w.flights[i].record.taskID)), flights := Without(w.flights, i))
    case Detach(agent) =>
      w.(system := w.system.(book := DetachedBook(book, agent)), rows := DetachedRows(w.rows, agent))
  }

  function Run(w: World, events: seq<Event>): World
    decreases |events|
  {
    if events == [] then w else Run(Step(w, events[0]), events[1..])
  }

  predicate InFlight(w: World, taskID: string) {
    exists i | 0 <= i < |w.flights| :: w.flights[i].record.taskID == taskID
  }

  /** No task is taken while an earlier record of it is still on its way. */
  predicate Serial(w: World, events: seq<Event>)
    decreases |events|
  {
    events == []
    || ((events[0].Take? ==> !InFlight(w, events[0].taskID)) && Serial(Step(w, events[0]), events[1..]))
  }

  ghost predicate OneFlightEach(flights: seq<Flight>) {
    forall i, j | 0 <= i < j < |flights| :: flights[i].record.taskID != flights[j].record.taskID
  }

  ghost predicate FlightCarries(flights: seq<Flight>, taskID: string, state: Tasks.TaskState) {
    exists i :: 0 <= i < |flights| && flights[i].record.taskID == taskID && SameTotals(flights[i].record, state)
  }

  /** Every task is dirty, or its current totals are on their way, or they are stored. */
  ghost predicate Safe(w: World) {
    forall t | t in w.system.book ::
      var state := w.system.book[t];
      || state.dirty
      || FlightCarries(w.flights, t, state)
      || (!InFlight(w, t) && StoredTotals(w.rows, t, state))
  }

  ghost predicate Consistent(w: World) {
    && Safe(w)
    && OneFlightEach(w.flights)
    && w.rows.Keys <= w.system.book.Keys
    && (forall i | 0 <= i < |w.flights| :: w.flights[i].record.taskID in w.system.book)
  }

  /** A call keeps a task's totals and flag, or makes the task dirty. */
  lemma CallKeepsOrMarks(s: Tasks.System, e: Tasks.Event, t: string)
    requires t in Tasks.Step(s, e).book
    ensures s.book.Keys <= Tasks.Step(s, e).book.Keys
    ensures var after := Tasks.Step(s, e).book[t];
            if t !in s.book then (after.spentUSD == 0.0 && after.requestCount == 0) || after.dirty
            else after.dirty
                 || (after.spentUSD == s.book[t].spentUSD && after.requestCount == s.book[t].requestCount
                     && !s.book[t].dirty)
  {
  }

  lemma {:induction false} CallKeepsConsistent(w: World, e: Tasks.Event)
    requires Consistent(w)
    ensures Consistent(Step(w, Call(e)))
  {
    var w' := Step(w, Call(e));
    forall t | t in w'.system.book
      ensures w'.system.book[t].dirty
           || FlightCarries(w'.flights, t, w'.system.book[t])
           || (!InFlight(w', t) && StoredTotals(w'.rows, t, w'.system.book[t]))
    {
      CallKeepsOrMarks(w.system, e, t);
      if t in w.system.book && FlightCarries(w.flights, t, w.system.book[t]) && !w'.system.book[t].dirty {
        var i :| 0 <= i < |w.flights| && w.flights[i].record.taskID == t
                 && SameTotals(w.flights[i].record, w.system.book[t]);
        assert SameTotals(w'.flights[i].record, w'.system.book[t]);
      }
    }
    forall i | 0 <= i < |w'.flights|
      ensures w'.flights[i].record.taskID in w'.system.book
    {
      CallGrowsBook(w.system, e);
    }
    CallGrowsBook(w.system, e);
  }

  lemma CallGrowsBook(s: Tasks.System, e: Tasks.Event)
    ensures s.book.Keys <= Tasks.Step(s, e).book.Keys
  {
  }

  lemma {:induction false} TakeKeepsConsistent(w: World, t: string)
    requires Consistent(w) && !InFlight(w, t)
    ensures Consistent(Step(w, Take(t)))
  {
    var w' := Step(w, Take(t));
    if t in w.system.book && w.system.book[t].dirty {
      var n := |w.flights|;
      assert w'.flights[n].record.taskID == t && SameTotals(w'.flights[n].record, w'.system.book[t]);
      forall u | u in w'.system.book && u != t
        ensures w'.system.book[u].dirty
             || FlightCarries(w'.flights, u, w'.system.book[u])
             || (!InFlight(w', u) && StoredTotals(w'.rows, u, w'.system.book[u]))
      {
        CarriesInLonger(w.flights, w'.flights, u, w.system.book[u]);
      }
    }
  }

  lemma CarriesInLonger(a: seq<Flight>, b: seq<Flight>, t: string, state: Tasks.TaskState)
    requires a <= b
    ensures FlightCarries(a, t, state) ==> FlightCarries(b, t, state)
  {
    if FlightCarries(a, t, state) {
      var i :| 0 <= i < |a| && a[i].record.taskID == t && SameTotals(a[i].record, state);
      assert b[i] == a[i];
    }
  }

  /** Removing the flight at `i` leaves the others of every other task. */
  lemma RemoveFlight(w: World, i: nat, t: string, state: Tasks.TaskState)
    requires i < |w.flights| && OneFlightEach(w.flights)
    ensures OneFlightEach(Without(w.flights, i))
    ensures forall j | 0 <= j < |Without(w.flights, i)| ::
              Without(w.flights, i)[j] == w.flights[if j < i then j else j + 1]
    ensures t != w.flights[i].record.taskID && FlightCarries(w.flights, t, state) ==>
              FlightCarries(Without(w.flights, i), t, state)
    ensures forall j | 0 <= j < |Without(w.flights, i)| ::
              Without(w.flights, i)[j].record.taskID != w.flights[i].record.taskID
  {
    var rest := Without(w.flights, i);
    if t != w.flights[i].record.taskID && FlightCarries(w.flights, t, state) {
      var k :| 0 <= k < |w.flights| && w.flights[k].record.taskID == t && SameTotals(w.flights[k].record, state);
      assert rest[if k < i then k else k - 1] == w.flights[k];
    }
  }

  lemma {:induction false} WriteKeepsConsistent(w: World, i: nat)
    requires Consistent(w)
    ensures Consistent(Step(w, WriteOk(i)))
  {
    var w' := Step(w, WriteOk(i));
    if i < |w.flights| && !w.flights[i].failed {
      var u := w.flights[i].record.taskID;
      forall t | t in w'.system.book
        ensures w'.system.book[t].dirty
             || FlightCarries(w'.flights, t, w'.system.book[t])
             || (!InFlight(w', t) && StoredTotals(w'.rows, t, w'.system.book[t]))
      {
        RemoveFlight(w, i, t, w.system.book[t]);
        if t == u {
          assert InFlight(w, t);
        }
      }
      RemoveFlight(w, i, u, w.system.book[u]);
    }
  }

  lemma {:induction false} FailKeepsConsistent(w: World, i: nat)
    requires Consistent(w)
    ensures Consistent(Step(w, WriteFail(i)))
  {
    var w' := Step(w, WriteFail(i));
    if i < |w.flights| {
      assert forall k | 0 <= k < |w.flights| :: w'.flights[k].record == w.flights[k].record;
      forall t | t in w'.system.book
        ensures w'.system.book[t].dirty
             || FlightCarries(w'.flights, t, w'.system.book[t])
             || (!InFlight(w', t) && StoredTotals(w'.rows, t, w'.system.book[t]))
      {
        if FlightCarries(w.flights, t, w.system.book[t]) {
          var k :| 0 <= k < |w.flights| && w.flights[k].record.taskID == t
                   && SameTotals(w.flights[k].record, w.system.book[t]);
          assert w'.flights[k].record == w.flights[k].record;
        }
      }
    }
  }

  lemma {:induction false} RemarkKeepsConsistent(w: World, i: nat)
    requires Consistent(w)
    ensures Consistent(Step(w, Remark(i)))
  {
    var w' := Step(w, Remark(i));
    if i < |w.flights| && w.flights[i].failed {
      var u := w.flights[i].record.taskID;
      forall t | t in w'.system.book
        ensures w'.system.book[t].dirty
             || FlightCarries(w'.flights, t, w'.system.book[t])
             || (!InFlight(w', t) && StoredTotals(w'.rows, t, w'.system.book[t]))
      {
        RemoveFlight(w, i, t, w.system.book[t]);
      }
      RemoveFlight(w, i, u, w.system.book[u]);
    }
  }

  lemma {:induction false} DetachKeepsConsistent(w: World, agent: string)
    requires Consistent(w)
    ensures Consistent(Step(w, Detach(agent)))
  {
    var w' := Step(w, Detach(agent));
    forall t | t in w'.system.book
      ensures w'.system.book[t].dirty
           || FlightCarries(w'.flights, t, w'.system.book[t])
           || (!InFlight(w', t) && StoredTotals(w'.rows, t, w'.system.book[t]))
    {
      if !w'.system.book[t].dirty {
        assert w'.system.book[t] == w.system.book[t];
      }
    }
  }

  /** While no task is taken twice at once, in every interleaving of calls, takes,
      writes, failures and agent deletions every task stays dirty, on its way or stored. */
  lemma {:induction false} SerialRunIsSafe(w: World, events: seq<Event>)
    requires Consistent(w) && Serial(w, events)
    ensures Consistent(Run(w, events))
    ensures Run(w, events).flights == [] ==> DirtyOrStored(Run(w, events).system.book, Run(w, events).rows)
    decreases |events|
  {
    if events == [] {
    } else {
      match events[0] {
        case Call(e) => CallKeepsConsistent(w, e);
        case Take(t) => TakeKeepsConsistent(w, t);
        case WriteOk(i) => WriteKeepsConsistent(w, i);
        case WriteFail(i) => FailKeepsConsistent(w, i);
        case Remark(i) => RemarkKeepsConsistent(w, i);
        case Detach(agent) => DetachKeepsConsistent(w, agent);
      }
      SerialRunIsSafe(Step(w, events[0]), events[1..]);
    }
  }

  function Takes(order: seq<string>): seq<Event> {
    seq(|order|, i requires 0 <= i < |order| => Take(order[i]))
  }

  /** A flusher that starts a batch only when nothing is in flight takes it serially. */
  lemma {:induction false} BatchIsSerial(w: World, order: seq<string>)
    requires forall i, j | 0 <= i < j < |order| :: order[i] != order[j]
    requires forall t | t in order :: !InFlight(w, t)
    ensures Serial(w, Takes(order))
    decreases |order|
  {
    if order == [] {
    } else {
      var w' := Step(w, Take(order[0]));
      assert Takes(order)[1..] == Takes(order[1..]);
      forall t | t in order[1..]
        ensures !InFlight(w', t)
      {
        assert t in order;
      }
      BatchIsSerial(w', order[1..]);
    }
  }

  // ---------- two writes of one task at once ----------

  /** The flushers finish what they took: writes land or fail, and flags are put back. */
  predicate Finishing(events: seq<Event>) {
    forall e | e in events :: e.WriteOk? || e.WriteFail? || e.Remark?
  }

  predicate IsFlightOf(f: Flight, t: string) {
    f.record.taskID == t
  }

  /** A write of the task has failed and its flag is still to be put back. */
  ghost predicate FailedFlight(w: World, t: string) {
    exists f :: f in w.flights && IsFlightOf(f, t) && f.failed
  }

  ghost predicate AllCarry(w: World, t: string) {
    t in w.system.book && forall f :: f in w.flights && IsFlightOf(f, t) ==> SameTotals(f.record, w.system.book[t])
  }

  /** Whatever lands last, the task cannot end up clean with other totals stored. */
  ghost predicate SureToStore(w: World, t: string) {
    && t in w.system.book
    && (w.system.book[t].dirty
        || FailedFlight(w, t)
        || (AllCarry(w, t) && (InFlight(w, t) || StoredTotals(w.rows, t, w.system.book[t]))))
  }

  ghost predicate DirtyOrStoredTask(w: World, t: string) {
    t in w.system.book && (w.system.book[t].dirty || StoredTotals(w.rows, t, w.system.book[t]))
  }

  lemma {:induction false} WithoutKeeps(flights: seq<Flight>, i: nat, f: Flight)
    requires i < |flights|
    ensures f in Without(flights, i) ==> f in flights
    ensures f in flights && f != flights[i] ==> f in Without(flights, i)
  {
    assert flights == flights[..i] + [flights[i]] + flights[i + 1..];
  }

  lemma {:induction false} InFlightIsAFlight(w: World, t: string)
    ensures InFlight(w, t) <==> exists f :: f in w.flights && IsFlightOf(f, t)
  {
    if InFlight(w, t) {
      var i :| 0 <= i < |w.flights| && w.flights[i].record.taskID == t;
      assert w.flights[i] in w.flights && IsFlightOf(w.flights[i], t);
    }
    if f :| f in w.flights && IsFlightOf(f, t) {
      var i :| 0 <= i < |w.flights| && w.flights[i] == f;
    }
  }

  lemma {:induction false} WriteStaysSure(w: World, i: nat, t: string)
    requires SureToStore(w, t)
    ensures SureToStore(Step(w, WriteOk(i)), t)
  {
    var w' := Step(w, WriteOk(i));
    if w' != w && !w.system.book[t].dirty {
      forall f ensures f in w'.flights ==> f in w.flights {
        WithoutKeeps(w.flights, i, f);
      }
      if f :| f in w.flights && IsFlightOf(f, t) && f.failed {
        WithoutKeeps(w.flights, i, f);
        assert FailedFlight(w', t);
      } else if IsFlightOf(w.flights[i], t) {
        assert SameTotals(w.flights[i].record, w.system.book[t]);
      } else if InFlight(w, t) {
        InFlightIsAFlight(w, t);
        var g :| g in w.flights && IsFlightOf(g, t);
        WithoutKeeps(w.flights, i, g);
        InFlightIsAFlight(w', t);
      }
    }
  }

  lemma {:induction false} FailStaysSure(w: World, i: nat, t: string)
    requires SureToStore(w, t)
    ensures SureToStore(Step(w, WriteFail(i)), t)
  {
    var w' := Step(w, WriteFail(i));
    if i < |w.flights| && !w.system.book[t].dirty {
      assert w'.flights[i] in w'.flights;
      if IsFlightOf(w.flights[i], t) {
        assert IsFlightOf(w'.flights[i], t) && w'.flights[i].failed;
      } else if f :| f in w.flights && IsFlightOf(f, t) && f.failed {
        var j :| 0 <= j < |w.flights| && w.flights[j] == f;
        assert w'.flights[j] == f;
        assert FailedFlight(w', t);
      } else {
        SameFlightsOf(w, w', i, t);
      }
    }
  }

  lemma {:induction false} SameFlightsOf(w: World, w': World, i: nat, t: string)
    requires i < |w.flights| && !IsFlightOf(w.flights[i], t)
    requires |w'.flights| == |w.flights| && !IsFlightOf(w'.flights[i], t)
    requires forall j :: 0 <= j < |w.flights| && j != i ==> w'.flights[j] == w.flights[j]
    ensures forall f :: IsFlightOf(f, t) ==> (f in w.flights <==> f in w'.flights)
    ensures InFlight(w, t) <==> InFlight(w', t)
  {
    forall f | IsFlightOf(f, t) ensures f in w.flights <==> f in w'.flights {
      if f in w.flights {
        var j :| 0 <= j < |w.flights| && w.flights[j] == f;
        assert w'.flights[j] == f;
      }
      if f in w'.flights {
        var j :| 0 <= j < |w'.flights| && w'.flights[j] == f;
        assert w.flights[j] == f;
      }
    }
    InFlightIsAFlight(w, t);
    InFlightIsAFlight(w', t);
  }

  lemma {:induction false} RemarkStaysSure(w: World, i: nat, t: string)
    requires SureToStore(w, t)
    ensures SureToStore(Step(w, Remark(i)), t)
  {
    var w' := Step(w, Remark(i));
    if w' != w && !w'.system.book[t].dirty {
      assert !IsFlightOf(w.flights[i], t);
      forall f ensures f in w'.flights ==> f in w.flights {
        WithoutKeeps(w.flights, i, f);
      }
      if f :| f in w.flights && IsFlightOf(f, t) && f.failed {
        WithoutKeeps(w.flights, i, f);
        assert FailedFlight(w', t);
      } else if InFlight(w, t) {
        InFlightIsAFlight(w, t);
        var g :| g in w.flights && IsFlightOf(g, t);
        WithoutKeeps(w.flights, i, g);
        InFlightIsAFlight(w', t);
      }
    }
  }

  lemma {:induction false} FinishingStaysSure(w: World, events: seq<Event>, t: string)
    requires SureToStore(w, t) && Finishing(events)
    ensures SureToStore(Run(w, events), t)
    decreases |events|
  {
    if events == [] {
    } else {
      assert events[0] in events && forall e | e in events[1..] :: e in events;
      match events[0] {
        case WriteOk(i) => WriteStaysSure(w, i, t);
        case WriteFail(i) => FailStaysSure(w, i, t);
        case Remark(i) => RemarkStaysSure(w, i, t);
      }
      FinishingStaysSure(Step(w, events[0]), events[1..], t);
    }
  }

  /** The record a task ends with when the flushers finish so that this flight lands last. */
  datatype Last = NoFlight | Lands(i: nat)

  ghost predicate SameRow(before: Rows, after: Rows, t: string) {
    (t in after <==> t in before) && (t in before ==> after[t] == before[t])
  }

  ghost predicate CanLand(w: World, t: string, last: Last) {
    match last
    case NoFlight => !InFlight(w, t)
    case Lands(i) => i < |w.flights| && IsFlightOf(w.flights[i], t)
  }

  /** Any flight of a clean task with no failed write can be the one whose record stays,
      and with none in flight the row can stay what it is. */
  lemma {:induction false} StaleRecordCanLandLast(w: World, t: string, last: Last) returns (events: seq<Event>)
    requires t in w.system.book && !w.system.book[t].dirty && !FailedFlight(w, t) && CanLand(w, t, last)
    ensures Finishing(events) && Run(w, events).flights == []
    ensures t in Run(w, events).system.book && Run(w, events).system.book[t] == w.system.book[t]
    ensures last.NoFlight? ==> SameRow(w.rows, Run(w, events).rows, t)
    ensures last.Lands? ==> t in Run(w, events).rows && Run(w, events).rows[t] == w.flights[last.i].record
    decreases |w.flights|
  {
    if w.flights == [] {
      events := [];
    } else if last.Lands? && |w.flights| == 1 {
      assert w.flights[0] in w.flights;
      events := [WriteOk(0)];
      assert events[1..] == [];
      assert Run(w, events) == Step(w, WriteOk(0));
    } else {
      var k := if last == Lands(0) then 1 else 0;
      var e := if w.flights[k].failed then Remark(k) else WriteOk(k);
      var w' := Step(w, e);
      var last' := if last.NoFlight? then NoFlight else Lands(if last.i < k then last.i else last.i - 1);
      assert w.flights[k] in w.flights;
      ShedKeeps(w, k, t, last, last');
      var rest := StaleRecordCanLandLast(w', t, last');
      events := [e] + rest;
      assert events[1..] == rest;
    }
  }

  /** Finishing one other flight leaves the clean task, and the flight that is to land last. */
  lemma {:induction false} ShedKeeps(w: World, k: nat, t: string, last: Last, last': Last)
    requires t in w.system.book && !w.system.book[t].dirty && !FailedFlight(w, t) && CanLand(w, t, last)
    requires k < |w.flights| && last != Lands(k)
    requires last' == if last.NoFlight? then NoFlight else Lands(if last.i < k then last.i else last.i - 1)
    ensures var w' := Step(w, if w.flights[k].failed then Remark(k) else WriteOk(k));
            && |w'.flights| == |w.flights| - 1
            && t in w'.system.book && w'.system.book[t] == w.system.book[t]
            && !FailedFlight(w', t) && CanLand(w', t, last')
            && (last.NoFlight? ==> SameRow(w.rows, w'.rows, t))
            && (last.Lands? ==> w'.flights[last'.i] == w.flights[last.i])
  {
    var f := w.flights[k];
    assert f in w.flights;
    var w' := Step(w, if f.failed then Remark(k) else WriteOk(k));
    forall g ensures g in w'.flights ==> g in w.flights {
      WithoutKeeps(w.flights, k, g);
    }
    if last.NoFlight? {
      assert f.record.taskID != t;
      InFlightIsAFlight(w, t);
      InFlightIsAFlight(w', t);
    }
  }

  /** However the flushers finish, a clean task ends dirty or with its totals stored,
      exactly when a write of it has already failed, or every record of it in flight
      carries them and, with none in flight, they are stored already. */
  lemma {:induction false} EveryOrderStores(w: World, t: string)
    requires t in w.system.book && !w.system.book[t].dirty
    ensures (forall events | Finishing(events) && Run(w, events).flights == [] :: DirtyOrStoredTask(Run(w, events), t))
            <==> FailedFlight(w, t) || (AllCarry(w, t) && (InFlight(w, t) || StoredTotals(w.rows, t, w.system.book[t])))
  {
    if SureToStore(w, t) {
      forall events | Finishing(events) && Run(w, events).flights == []
        ensures DirtyOrStoredTask(Run(w, events), t)
      {
        FinishingStaysSure(w, events, t);
        InFlightIsAFlight(Run(w, events), t);
      }
    } else if !AllCarry(w, t) {
      var f :| f in w.flights && IsFlightOf(f, t) && !SameTotals(f.record, w.system.book[t]);
      var i :| 0 <= i < |w.flights| && w.flights[i] == f;
      var events := StaleRecordCanLandLast(w, t, Lands(i));
      assert !DirtyOrStoredTask(Run(w, events), t);
    } else {
      var events := StaleRecordCanLandLast(w, t, NoFlight);
      assert !DirtyOrStoredTask(Run(w, events), t);
    }
  }

  /** Two flushers may hold the flush lock at once, and then the older of two
      records of a task can land last: the newer total is neither stored nor dirty. */
  lemma TwoFlushersLoseATotal()
    ensures var limits := Tasks.Limits(0.0, map[]);
            var reserve := Call(Tasks.Reserve("t", "a", 0.0, limits, 1));
            var events := [reserve, reserve,
                           Call(Tasks.Settle(0, 1.0, 2)), Take("t"),
                           Call(Tasks.Settle(1, 1.0, 3)), Take("t"),
                           WriteOk(1), WriteOk(0)];
            var end := Run(World(Tasks.System(map[], map[], 0), map[], []), events);
            && end.flights == [] && "t" in end.system.book
            && end.system.book["t"].spentUSD == 2.0 && !end.system.book["t"].dirty
            && "t" in end.rows && end.rows["t"].spentUSD == 1.0
  {
    var limits := Tasks.Limits(0.0, map[]);
    var reserve := Call(Tasks.Reserve("t", "a", 0.0, limits, 1));
    LosingRun("t", "a", reserve);
  }

  lemma {:induction false} LosingRun(t: string, a: string, reserve: Event)
    requires |t| == 1 && 'a' <= t[0] <= 'z' && |a| == 1 && 'a' <= a[0] <= 'z'
    requires reserve == Call(Tasks.Reserve(t, a, 0.0, Tasks.Limits(0.0, map[]), 1))
    ensures var events := [reserve, reserve,
                           Call(Tasks.Settle(0, 1.0, 2)), Take(t),
                           Call(Tasks.Settle(1, 1.0, 3)), Take(t),
                           WriteOk(1), WriteOk(0)];
            var end := Run(World(Tasks.System(map[], map[], 0), map[], []), events);
            && end.flights == [] && t in end.system.book
            && end.system.book[t].spentUSD == 2.0 && !end.system.book[t].dirty
            && t in end.rows && end.rows[t].spentUSD == 1.0
  {
    TrimPlain(t);
    TrimPlain(a);
    var hold := Tasks.Hold(t, a, 0.0);
    var w0 := World(Tasks.System(map[], map[], 0), map[], []);
    var w1 := Step(w0, reserve);
    assert w1.system.holds == map[0 := hold] && w1.system.issued == 1;
    var w2 := Step(w1, reserve);
    assert w2.system.holds == map[0 := hold, 1 := hold];
    assert w2.system.book[t].spentUSD == 0.0;
    var settle0, settle1 := Call(Tasks.Settle(0, 1.0, 2)), Call(Tasks.Settle(1, 1.0, 3));
    var w3 := Step(w2, settle0);
    assert w3.system.book[t].spentUSD == 1.0 && w3.system.book[t].dirty;
    var w4 := Step(w3, Take(t));
    assert w4.flights == [Flight(RecordOf(t, w3.system.book[t]), false)];
    assert w4.system.holds == map[1 := hold];
    var tail := [settle1, Take(t), WriteOk(1), WriteOk(0)];
    OlderWriteLandsLast(w4, t, hold);
    RunVisits([w0, w1, w2, w3, w4], [reserve, reserve, settle0, Take(t)]);
    assert [reserve, reserve, settle0, Take(t)] + tail
           == [reserve, reserve, settle0, Take(t), settle1, Take(t), WriteOk(1), WriteOk(0)];
    RunSplits(w0, [reserve, reserve, settle0, Take(t)], tail);
  }

  /** With one record in flight, a settlement and a second flush whose write lands first. */
  lemma {:induction false} OlderWriteLandsLast(w: World, t: string, hold: Tasks.Hold)
    requires w.system.holds == map[1 := hold] && hold.taskID == t && hold.estimatedUSD == 0.0
    requires t in w.system.book && w.system.book[t].spentUSD == 1.0 && !w.system.book[t].dirty
    requires |w.flights| == 1 && !w.flights[0].failed && w.flights[0].record.taskID == t
             && w.flights[0].record.spentUSD == 1.0
    ensures var end := Run(w, [Call(Tasks.Settle(1, 1.0, 3)), Take(t), WriteOk(1), WriteOk(0)]);
            && end.flights == [] && t in end.system.book
            && end.system.book[t].spentUSD == 2.0 && !end.system.book[t].dirty
            && t in end.rows && end.rows[t].spentUSD == 1.0
  {
    var settle := Call(Tasks.Settle(1, 1.0, 3));
    var w5 := Step(w, settle);
    assert w5.system.book[t].spentUSD == 2.0 && w5.system.book[t].dirty;
    var w6 := Step(w5, Take(t));
    assert |w6.flights| == 2 && w6.flights[0] == w.flights[0];
    var w7 := Step(w6, WriteOk(1));
    assert w7.flights == [w.flights[0]];
    var w8 := Step(w7, WriteOk(0));
    RunVisits([w, w5, w6, w7, w8], [settle, Take(t), WriteOk(1), WriteOk(0)]);
  }

  lemma {:induction false} RunSplits(w: World, head: seq<Event>, tail: seq<Event>)
    ensures Run(w, head + tail) == Run(Run(w, head), tail)
    decreases |head|
  {
    if head == [] {
      assert head + tail == tail;
    } else {
      assert (head + tail)[1..] == head[1..] + tail;
      RunSplits(Step(w, head[0]), head[1..], tail);
    }
  }

  /** A run is wherever its steps lead, one after another. */
  lemma {:induction false} RunVisits(worlds: seq<World>, events: seq<Event>)
    requires |worlds| == |events| + 1
    requires forall i | 0 <= i < |events| :: worlds[i + 1] == Step(worlds[i], events[i])
    ensures Run(worlds[0], events) == worlds[|events|]
    decreases |events|
  {
    if events == [] {
    } else {
      RunVisits(worlds[1..], events[1..]);
    }
  }

  // ---------- one flush, and loading ----------

  /** The rows as a fresh manager reads them; nothing is held and nothing dirty. */
  function Loaded(rows: Rows): Tasks.Book {
    map t | t in rows ::
      Tasks.TaskState(rows[t].spentUSD, 0.0, rows[t].limitUSD, rows[t].requestCount, 0, rows[t].lastAgent,
                      rows[t].firstSeenAt, rows[t].lastSeenAt, false)
  }

  /** A stored record loads back as the task it was taken from, with nothing held. */
  lemma {:induction false} RecordLoadsBack(taskID: string, state: Tasks.TaskState)
    ensures Loaded(map[taskID := RecordOf(taskID, state)])
            == map[taskID := state.(reservedUSD := 0.0, inFlight := 0, dirty := false)]
  {
  }

  /** Detaching an agent clears its name from the tasks it used last, which it marks, and from
      their rows, and touches nothing else of them and no other task. */
  lemma {:induction false} DetachMeans(book: Tasks.Book, rows: Rows, agent: string)
    ensures DetachedBook(book, agent).Keys == book.Keys && DetachedRows(rows, agent).Keys == rows.Keys
    ensures forall t | t in book ::
              DetachedBook(book, agent)[t]
              == if book[t].lastAgent != agent then book[t] else book[t].(lastAgent := "", dirty := true)
    ensures forall t | t in rows ::
              DetachedRows(rows, agent)[t] == if rows[t].lastAgent != agent then rows[t] else rows[t].(lastAgent := "")
  {
  }

  /** A restart keeps the totals of every clean task, whatever was reserved on it. */
  lemma RestartKeepsTotals(w: World, t: string)
    requires Consistent(w) && w.flights == [] && t in w.system.book && !w.system.book[t].dirty
    ensures var before, after := w.system.book[t], Tasks.StateOf(Loaded(w.rows), t, 0);
            && after.spentUSD == before.spentUSD && after.requestCount == before.requestCount
            && after.reservedUSD == 0.0 && after.inFlight == 0
    ensures Tasks.Accounted(Tasks.System(Loaded(w.rows), map[], 0))
    ensures Consistent(World(Tasks.System(Loaded(w.rows), map[], 0), w.rows, []))
  {
  }

  /** The manager's tasks with the store they are written to. */
  class TaskFlusher {
    var tasks: Tasks.Book
    var rows: Rows

    constructor (rows: Rows)
      ensures this.rows == rows && tasks == Loaded(rows)
      ensures DirtyOrStored(tasks, this.rows)
    {
      this.rows := rows;
      tasks := Loaded(rows);
    }

    method TakeDirtyTaskRecord(taskID: string) returns (record: Option<TaskRecord>)
      modifies this`tasks
      ensures record.Some? <==> taskID in old(tasks) && old(tasks)[taskID].dirty
      ensures record.None? ==> tasks == old(tasks)
      ensures record.Some? ==>
                record.value == RecordOf(taskID, old(tasks)[taskID]) && tasks == Cleaned(old(tasks), taskID)
    {
      if taskID !in tasks || !tasks[taskID].dirty {
        return None;
      }
      record := Some(RecordOf(taskID, tasks[taskID]));
      tasks := tasks[taskID := tasks[taskID].(dirty := false)];
    }

    /** Takes every dirty record at once, in no particular order. */
    method SnapshotDirtyTaskRecords() returns (records: seq<TaskRecord>)
      modifies this`tasks
      ensures tasks.Keys == old(tasks).Keys
      ensures forall t | t in tasks :: tasks[t] == old(tasks)[t].(dirty := false)
      ensures forall r | r in records ::
                r.taskID in old(tasks) && old(tasks)[r.taskID].dirty && r == RecordOf(r.taskID, old(tasks)[r.taskID])
      ensures forall t | t in old(tasks) && old(tasks)[t].dirty :: RecordOf(t, old(tasks)[t]) in records
      ensures forall i, j | 0 <= i < j < |records| :: records[i].taskID != records[j].taskID
    {
      records := [];
      var left := tasks.Keys;
      while left != {}
        invariant left <= tasks.Keys && tasks.Keys == old(tasks).Keys
        invariant forall t | t in left :: tasks[t] == old(tasks)[t]
        invariant forall t | t in tasks && t !in left :: tasks[t] == old(tasks)[t].(dirty := false)
        invariant forall r | r in records ::
                    r.taskID in old(tasks) && r.taskID !in left && old(tasks)[r.taskID].dirty
                    && r == RecordOf(r.taskID, old(tasks)[r.taskID])
        invariant forall t | t in old(tasks) && t !in left && old(tasks)[t].dirty ::
                    RecordOf(t, old(tasks)[t]) in records
        invariant forall i, j | 0 <= i < j < |records| :: records[i].taskID != records[j].taskID
        decreases |left|
      {
        var t :| t in left;
        if tasks[t].dirty {
          assert forall r | r in records :: r.taskID != t;
          records := records + [RecordOf(t, tasks[t])];
          tasks := tasks[t := tasks[t].(dirty := false)];
        }
        left := left - {t};
      }
    }

    /** Writes one record; a write that fails puts the task's dirty flag back. */
    method StoreTaskRecord(record: TaskRecord, succeeds: bool) returns (ok: bool)
      modifies this
      ensures ok == succeeds
      ensures rows == if succeeds then old(rows)[record.taskID := record] else old(rows)
      ensures tasks == if succeeds then old(tasks) else Marked(old(tasks), record.taskID)
    {
      if !succeeds {
        if record.taskID in tasks {
          tasks := tasks[record.taskID := tasks[record.taskID].(dirty := true)];
        }
        return false;
      }
      rows := rows[record.taskID := record];
      return true;
    }

    /** Writes every dirty total; `succeeds(k)` says whether the k-th write does. One
        failure does not stop the batch, and afterwards each task is dirty or stored. */
    method FlushTasks(succeeds: nat -> bool) returns (ok: bool)
      requires DirtyOrStored(tasks, rows)
      modifies this
      ensures DirtyOrStored(tasks, rows)
      ensures tasks.Keys == old(tasks).Keys
      ensures forall t | t in tasks :: tasks[t] == old(tasks)[t].(dirty := tasks[t].dirty)
      ensures forall t | t in tasks && tasks[t].dirty :: old(tasks)[t].dirty
      ensures forall t | t in tasks && old(tasks)[t].dirty && !tasks[t].dirty ::
                t in rows && rows[t] == RecordOf(t, old(tasks)[t])
      ensures forall t | t in rows ::
                (t in old(rows) && rows[t] == old(rows)[t]) || (t in tasks && rows[t] == RecordOf(t, old(tasks)[t]))
      ensures ok <==> forall t | t in tasks :: !tasks[t].dirty
    {
      ok := true;
      var records := SnapshotDirtyTaskRecords();
      ghost var start := Disk(tasks, rows);
      for k := 0 to |records|
        invariant Disk(tasks, rows) == Batch(start, records, succeeds, k)
        invariant ok <==> forall i | 0 <= i < k :: succeeds(i)
      {
        var stored := StoreTaskRecord(records[k], succeeds(k));
        if !stored {
          ok := false;
        }
      }
      FlushOutcome(old(tasks), old(rows), start, records, succeeds);
      forall t | t in rows
        ensures (t in old(rows) && rows[t] == old(rows)[t]) || (t in tasks && rows[t] == RecordOf(t, old(tasks)[t]))
      {
        BatchRows(start, records, succeeds, |records|, t);
      }
    }

    /** Clears a deleted agent from its tasks, and from the store's rows if it had a row. */
    method DetachAgent(agent: string, stored: bool)
      requires DirtyOrStored(tasks, rows)
      modifies this
      ensures tasks == DetachedBook(old(tasks), agent)
      ensures rows == if stored then DetachedRows(old(rows), agent) else old(rows)
      ensures DirtyOrStored(tasks, rows)
    {
      tasks := DetachedBook(tasks, agent);
      if stored {
        rows := DetachedRows(rows, agent);
      }
    }
  }

  // ---------- what a batch of writes leaves ----------

  datatype Disk = Disk(book: Tasks.Book, rows: Rows)

  /** The tasks and rows after the first `k` writes of a batch. */
  function Batch(start: Disk, records: seq<TaskRecord>, succeeds: nat -> bool, k: nat): Disk
    requires k <= |records|
  {
    if k == 0 then start
    else
      var before, r := Batch(start, records, succeeds, k - 1), records[k - 1];
      if succeeds(k - 1) then before.(rows := before.rows[r.taskID := r])
      else before.(book := Marked(before.book, r.taskID))
  }

  /** The record's task and row are as its write left them. */
  ghost predicate Written(start: Disk, end: Disk, r: TaskRecord, succeeded: bool) {
    if succeeded then
      && r.taskID in end.rows && end.rows[r.taskID] == r
      && (r.taskID in start.book ==> r.taskID in end.book && end.book[r.taskID] == start.book[r.taskID])
    else
      && SameRow(start.rows, end.rows, r.taskID)
      && (r.taskID in start.book ==> r.taskID in end.book && end.book[r.taskID] == start.book[r.taskID].(dirty := true))
  }

  ghost predicate NotAmong(records: seq<TaskRecord>, k: nat, t: string)
    requires k <= |records|
  {
    forall i | 0 <= i < k :: records[i].taskID != t
  }

  lemma {:induction false} BatchKeeps(start: Disk, records: seq<TaskRecord>, succeeds: nat -> bool, k: nat, t: string)
    requires k <= |records|
    ensures var end := Batch(start, records, succeeds, k);
            && end.book.Keys == start.book.Keys
            && (NotAmong(records, k, t) ==>
                  SameRow(start.rows, end.rows, t) && (t in start.book ==> end.book[t] == start.book[t]))
  {
    if k == 0 {
    } else {
      BatchKeeps(start, records, succeeds, k - 1, t);
    }
  }

  lemma {:induction false} BatchRows(start: Disk, records: seq<TaskRecord>, succeeds: nat -> bool, k: nat, t: string)
    requires k <= |records|
    ensures var end := Batch(start, records, succeeds, k);
            t in end.rows ==>
              (t in start.rows && end.rows[t] == start.rows[t]) || (end.rows[t] in records && end.rows[t].taskID == t)
  {
    if k == 0 {
    } else {
      BatchRows(start, records, succeeds, k - 1, t);
    }
  }

  ghost predicate OneRecordEach(records: seq<TaskRecord>) {
    forall i, j | 0 <= i < j < |records| :: records[i].taskID != records[j].taskID
  }

  lemma {:induction false} BatchWrites(start: Disk, records: seq<TaskRecord>, succeeds: nat -> bool, k: nat, i: nat)
    requires i < k <= |records| && OneRecordEach(records)
    ensures Written(start, Batch(start, records, succeeds, k), records[i], succeeds(i))
  {
    if i < k - 1 {
      BatchWrites(start, records, succeeds, k - 1, i);
      BatchKeeps(start, records, succeeds, k - 1, records[i].taskID);
    } else {
      BatchKeeps(start, records, succeeds, i, records[i].taskID);
    }
  }

  /** The book a snapshot leaves, and the records it took, are those of `book`. */
  ghost predicate Snapshot(book: Tasks.Book, start: Disk, records: seq<TaskRecord>) {
    && start.book.Keys == book.Keys
    && (forall t | t in book :: start.book[t] == book[t].(dirty := false))
    && (forall r | r in records :: r.taskID in book && book[r.taskID].dirty && r == RecordOf(r.taskID, book[r.taskID]))
    && (forall t | t in book && book[t].dirty :: RecordOf(t, book[t]) in records)
    && OneRecordEach(records)
  }

  ghost predicate FlushedTask(book: Tasks.Book, end: Disk, t: string)
    requires t in book && t in end.book
  {
    && end.book[t] == book[t].(dirty := end.book[t].dirty)
    && (end.book[t].dirty ==> book[t].dirty)
    && (end.book[t].dirty || StoredTotals(end.rows, t, end.book[t]))
    && (book[t].dirty && !end.book[t].dirty ==> t in end.rows && end.rows[t] == RecordOf(t, book[t]))
  }

  lemma {:induction false} FlushedOne(book: Tasks.Book, rows: Rows, start: Disk, records: seq<TaskRecord>,
                                      succeeds: nat -> bool, t: string)
    requires DirtyOrStored(book, rows) && start.rows == rows && Snapshot(book, start, records) && t in book
    ensures var end := Batch(start, records, succeeds, |records|);
            && t in end.book && FlushedTask(book, end, t)
            && (end.book[t].dirty ==> exists i :: 0 <= i < |records| && !succeeds(i))
  {
    var end := Batch(start, records, succeeds, |records|);
    BatchKeeps(start, records, succeeds, |records|, t);
    if book[t].dirty {
      var i :| 0 <= i < |records| && records[i] == RecordOf(t, book[t]);
      BatchWrites(start, records, succeeds, |records|, i);
    } else {
      assert forall i | 0 <= i < |records| :: records[i] in records;
      assert NotAmong(records, |records|, t);
    }
  }

  /** After a flush every task is dirty or stored, and all are stored exactly when every write succeeded. */
  lemma {:induction false} FlushOutcome(book: Tasks.Book, rows: Rows, start: Disk, records: seq<TaskRecord>,
                                        succeeds: nat -> bool)
    requires DirtyOrStored(book, rows) && start.rows == rows && Snapshot(book, start, records)
    ensures var end := Batch(start, records, succeeds, |records|);
            && end.book.Keys == book.Keys
            && (forall t | t in book :: FlushedTask(book, end, t))
            && ((forall i | 0 <= i < |records| :: succeeds(i)) <==> forall t | t in book :: !end.book[t].dirty)
  {
    var end := Batch(start, records, succeeds, |records|);
    BatchKeeps(start, records, succeeds, |records|, "");
    forall t | t in book
      ensures FlushedTask(book, end, t)
      ensures end.book[t].dirty ==> exists i :: 0 <= i < |records| && !succeeds(i)
    {
      FlushedOne(book, rows, start, records, succeeds, t);
    }
    if i :| 0 <= i < |records| && !succeeds(i) {
      BatchWrites(start, records, succeeds, |records|, i);
      assert records[i] in records;
      assert end.book[records[i].taskID].dirty;
    }
  }
}
