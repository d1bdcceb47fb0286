/**
 The buffered writer between the cost sink and the store: a full buffer drops a record
 and a failed save loses one (internal/storage/writer.go).
 */
module CostWriter {
  import opened Billing
  import opened Governor
  import opened Money
  import opened Text

  /** The writer, with the records it stored and those it dropped or failed to save. */
  datatype Writer = Writer(
    capacity: nat,
    buffer: seq<CostRecord>,
    saving: Option<CostRecord>,
    stored: seq<CostRecord>,
    lost: seq<CostRecord>)

  /** A record handed over, the worker taking the next one, and its save coming back. */
  datatype Step = Hand(record: CostRecord) | Take | Save(ok: bool)

  function NewWriter(bufferSize: int): (w: Writer)
    ensures w.capacity >= 1
  {
    Writer(if bufferSize < 1 then 1 else bufferSize, [], None, [], [])
  }

  function Next(w: Writer, step: Step): Writer {
    match step
    case Hand(record) =>
      if |w.buffer| < w.capacity then w.(buffer := w.buffer + [record]) else w.(lost := w.lost + [record])
    case Take =>
      if w.saving.Some? || w.buffer == [] then w
      else w.(saving := Some(w.buffer[0]), buffer := w.buffer[1..])
    case Save(ok) =>
      if w.saving.None? then w
      else if ok then w.(saving := None, stored := w.stored + [w.saving.value])
      else w.(saving := None, lost := w.lost + [w.saving.value])
  }

  function Work(w: Writer, steps: seq<Step>): Writer
    decreases |steps|
  {
    if steps == [] then w else Work(Next(w, steps[0]), steps[1..])
  }

  /** The records handed over, in order. */
  function Handed(steps: seq<Step>): seq<CostRecord> {
    if steps == [] then []
    else (if steps[0].Hand? then [steps[0].record] else []) + Handed(steps[1..])
  }

  /** Nothing is buffered or being saved, as after the writer was closed. */
  predicate Drained(w: Writer) {
    w.buffer == [] && w.saving.None?
  }

  // ---------- no cost is stored twice or out of nothing ----------

  function InHand(w: Writer): seq<CostRecord> {
    if w.saving.Some? then [w.saving.value] else []
  }

  /** What the records that reached the writer cost, wherever they are now. */
  function Held(w: Writer, a: Account): real {
    Raw(w.stored, a) + Raw(w.lost, a) + Raw(w.buffer, a) + Raw(InHand(w), a)
  }

  lemma {:induction false} RawSnoc(records: seq<CostRecord>, r: CostRecord, a: Account)
    ensures Raw(records + [r], a) == Raw(records, a) + Raw([r], a)
  {
    RawConcat(records, [r], a);
  }

  lemma {:induction false} NextKeepsCosts(w: Writer, step: Step, a: Account)
    ensures Held(Next(w, step), a) == Held(w, a) + (if step.Hand? then Raw([step.record], a) else 0.0)
  {
    match step
    case Hand(record) =>
      RawSnoc(w.buffer, record, a);
      RawSnoc(w.lost, record, a);
    case Take =>
      if w.buffer != [] {
        assert w.buffer == [w.buffer[0]] + w.buffer[1..];
        RawConcat([w.buffer[0]], w.buffer[1..], a);
      }
    case Save(_) =>
      if w.saving.Some? {
        RawSnoc(w.stored, w.saving.value, a);
        RawSnoc(w.lost, w.saving.value, a);
      }
  }

  /** Through any steps, what was stored, lost, buffered and is being saved costs together
      what was handed over. */
  lemma {:induction false} WorkKeepsCosts(w: Writer, steps: seq<Step>, a: Account)
    ensures Held(Work(w, steps), a) == Held(w, a) + Raw(Handed(steps), a)
    decreases |steps|
  {
    if steps == [] {
    } else {
      NextKeepsCosts(w, steps[0], a);
      WorkKeepsCosts(Next(w, steps[0]), steps[1..], a);
      RawConcat(if steps[0].Hand? then [steps[0].record] else [], Handed(steps[1..]), a);
    }
  }

  ghost predicate HasOnly(w: Writer, records: set<CostRecord>) {
    && (forall r | r in w.stored :: r in records) && (forall r | r in w.lost :: r in records)
    && (forall r | r in w.buffer :: r in records) && (w.saving.Some? ==> w.saving.value in records)
  }

  lemma {:induction false} WorkAddsOnlyHanded(w: Writer, steps: seq<Step>, records: set<CostRecord>)
    requires HasOnly(w, records) && forall r | r in Handed(steps) :: r in records
    ensures HasOnly(Work(w, steps), records)
    decreases |steps|
  {
    if steps == [] {
    } else {
      assert steps[0].Hand? ==> steps[0].record in Handed(steps);
      assert forall r | r in Handed(steps[1..]) :: r in Handed(steps);
      NextAddsOnlyHanded(w, steps[0], records);
      WorkAddsOnlyHanded(Next(w, steps[0]), steps[1..], records);
    }
  }

  lemma {:induction false} NextAddsOnlyHanded(w: Writer, step: Step, records: set<CostRecord>)
    requires HasOnly(w, records) && (step.Hand? ==> step.record in records)
    ensures HasOnly(Next(w, step), records)
  {
    if step.Take? && w.buffer != [] {
      assert w.buffer[0] in w.buffer && forall r | r in w.buffer[1..] :: r in w.buffer;
    }
  }

  /** Once the writer has drained, what it stored and what it lost cost what it was handed,
      and everything it lost was handed over. */
  lemma {:induction false} StoredAndLost(bufferSize: int, steps: seq<Step>, a: Account)
    requires Drained(Work(NewWriter(bufferSize), steps))
    ensures var end := Work(NewWriter(bufferSize), steps);
            && Raw(Handed(steps), a) == Raw(end.stored, a) + Raw(end.lost, a)
            && forall r | r in end.lost :: r in Handed(steps)
  {
    WorkKeepsCosts(NewWriter(bufferSize), steps, a);
    WorkAddsOnlyHanded(NewWriter(bufferSize), steps, set r | r in Handed(steps));
  }

  lemma {:induction false} RawOfNonNegative(records: seq<CostRecord>, a: Account)
    requires forall r | r in records :: r.costUSD >= 0.0
    ensures Raw(records, a) >= 0.0
    ensures Raw(records, a) == 0.0 <==> forall r | r in records && Counts(a, r) :: r.costUSD == 0.0
  {
    RawIsBilled(records, a);
    BilledNothing(records, a);
  }

  lemma {:induction false} StoredShare(prices: Prices, bufferSize: int, steps: seq<Step>, a: Account)
    requires Validated(prices) && forall r | r in Handed(steps) :: PricedBy(prices, r)
    requires Drained(Work(NewWriter(bufferSize), steps))
    ensures var writer := Work(NewWriter(bufferSize), steps);
            && Raw(writer.stored, a) <= Raw(Handed(steps), a)
            && (Raw(writer.stored, a) == Raw(Handed(steps), a)
                <==> forall r | r in writer.lost && Counts(a, r) :: r.costUSD == 0.0)
  {
    var writer := Work(NewWriter(bufferSize), steps);
    StoredAndLost(bufferSize, steps, a);
    forall r | r in writer.lost ensures r.costUSD >= 0.0 {
      assert r in Handed(steps);
      PriceNonNegative(prices, r.model, r.inputTokens, r.outputTokens, r.costUSD);
    }
    RawOfNonNegative(writer.lost, a);
  }

  lemma {:induction false} HandedIsSinkGrowth(
      s: Settings, prices: Prices, l: Ledger, events: seq<Event>, a: Account, handed: seq<CostRecord>)
    requires Quiescent(l) && forall e | e in events && e.BeginE? :: PricedBy(prices, e.record)
    requires handed == Added(l.sink, Run(s, l, events).sink)
    ensures forall r | r in handed :: PricedBy(prices, r)
    ensures Raw(handed, a) == Raw(Run(s, l, events).sink, a) - Raw(l.sink, a)
  {
    assert Added(l.sink, l.sink) == [];
    RunStaysPriced(s, prices, l, events, l.sink);
    RunExtends(s, l, events);
    assert Run(s, l, events).sink == l.sink + handed;
    RawConcat(l.sink, handed, a);
  }

  /** With a validated price table, once billing has stopped and the writer has drained, the
      costs in the store never exceed what the budgets grew by, and add up to exactly that
      when and only when no record dropped or failed had cost anything. */
  lemma {:induction false} StoreMatchesBudgets(
      s: Settings, prices: Prices, l: Ledger, events: seq<Event>, a: Account, bufferSize: int, steps: seq<Step>)
    requires JobsOk(l) && Quiescent(l) && Quiescent(Run(s, l, events)) && a != OfTask("")
    requires Validated(prices) && forall e | e in events && e.BeginE? :: PricedBy(prices, e.record)
    requires if a.OfTask? then Orderly(s, l, events) else NoRollover(s, l, events)
    requires Handed(steps) == Added(l.sink, Run(s, l, events).sink) && Drained(Work(NewWriter(bufferSize), steps))
    ensures var end, writer := Run(s, l, events), Work(NewWriter(bufferSize), steps);
            var growth := if a.OfTask? then TaskSpend(end, a.taskID) - TaskSpend(l, a.taskID)
                          else Deposited(end, a) - Deposited(l, a);
            && Raw(writer.stored, a) <= growth
            && (Raw(writer.stored, a) == growth <==> forall r | r in writer.lost && Counts(a, r) :: r.costUSD == 0.0)
  {
    SinkMatchesBudgets(s, prices, l, events, a);
    HandedIsSinkGrowth(s, prices, l, events, a, Handed(steps));
    StoredShare(prices, bufferSize, steps, a);
  }

  /** A full buffer drops a billed record: the store never has its cost. */
  lemma {:induction false} FullBufferDrops(x: CostRecord, y: CostRecord)
    ensures var end := Work(NewWriter(1), [Hand(x), Hand(y), Take, Save(true)]);
            Drained(end) && end.stored == [x] && end.lost == [y]
  {
    var w0 := NewWriter(1);
    var w1 := Next(w0, Hand(x));
    var w2 := Next(w1, Hand(y));
    var w3 := Next(w2, Take);
    var w4 := Next(w3, Save(true));
    var steps := [Hand(x), Hand(y), Take, Save(true)];
    assert steps[1..] == [Hand(y), Take, Save(true)];
    assert steps[1..][1..] == [Take, Save(true)];
    assert Work(w2, [Take, Save(true)]) == w4 by {
      assert [Take, Save(true)][1..] == [Save(true)] && [Save(true)][1..] == [];
      assert Work(w3, [Save(true)]) == w4;
    }
    assert Work(w1, [Hand(y), Take, Save(true)]) == w4;
  }
}
