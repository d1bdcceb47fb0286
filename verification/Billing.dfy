/**
 Where a request's money goes: the gate that admits it, the body that bills it once
 and the three places each cost is added to (internal/proxy/proxy.go,
 internal/proxy/provider_routing.go, internal/pricing/pricing.go).
 */
module Billing {
  import opened Dollars
  import opened Text
  import opened Agents
  import opened Governor
  import DecisionLaws
  import Sse
  import SpendLaws
  import Tasks

  // ---------- prices ----------

  /** The price per million input and output tokens of a model the table knows. */
  type Prices = string -> Option<(real, real)>

  function Tokens(n: int): real {
    (if n < 0 then 0 else n) as real / 1_000_000.0
  }

  function Cost(prices: Prices, model: string, inputTokens: int, outputTokens: int): real {
    match prices(model)
    case None => 0.0
    case Some((input, output)) => Tokens(inputTokens) * input + Tokens(outputTokens) * output
  }

  /** The dollars are what the table charges: a million times them is each count, none negative,
      at its own price; a model the table does not know is free. */
  ghost predicate PricedAt(prices: Prices, model: string, inputTokens: int, outputTokens: int, costUSD: real) {
    match prices(model)
    case None => costUSD == 0.0
    case Some((input, output)) =>
      costUSD * 1_000_000.0
      == (if inputTokens >= 0 then inputTokens else 0) as real * input
         + (if outputTokens >= 0 then outputTokens else 0) as real * output
  }

  lemma {:induction false} CostIsPriced(prices: Prices, model: string, inputTokens: int, outputTokens: int)
    ensures PricedAt(prices, model, inputTokens, outputTokens, Cost(prices, model, inputTokens, outputTokens))
  {
    if prices(model).Some? {
      var (input, output) := prices(model).value;
      MillionTimes(if inputTokens >= 0 then inputTokens else 0, input);
      MillionTimes(if outputTokens >= 0 then outputTokens else 0, output);
    }
  }

  lemma MillionTimes(tokens: int, price: real)
    ensures (tokens as real / 1_000_000.0) * price * 1_000_000.0 == tokens as real * price
  {
    var q := tokens as real / 1_000_000.0;
    assert q * 1_000_000.0 == tokens as real;
    assert q * price * 1_000_000.0 == (q * 1_000_000.0) * price;
  }

  /** With no negative price in the table no request has a negative cost, whatever tokens are reported. */
  lemma PriceNonNegative(prices: Prices, model: string, inputTokens: int, outputTokens: int, costUSD: real)
    requires PricedAt(prices, model, inputTokens, outputTokens, costUSD)
    requires prices(model).Some? ==> prices(model).value.0 >= 0.0 && prices(model).value.1 >= 0.0
    ensures costUSD >= 0.0
  {
    if prices(model).Some? {
      ProductNonNegative((if inputTokens >= 0 then inputTokens else 0) as real, prices(model).value.0);
      ProductNonNegative((if outputTokens >= 0 then outputTokens else 0) as real, prices(model).value.1);
    }
  }

  lemma ProductNonNegative(a: real, b: real)
    requires a >= 0.0 && b >= 0.0
    ensures a * b >= 0.0
  {
  }

  /** The usage of a body that is not streamed: its usage field, or an estimate from its length. */
  function ResponseUsage(d: Sse.Decoder, body: string): (usage: Sse.Usage)
    ensures d.usage(body).Some? ==>
              (usage.inputTokens, usage.outputTokens) == d.usage(body).value && !usage.estimated
    ensures d.usage(body).None? ==>
              usage.inputTokens == usage.outputTokens && Sse.IsEstimate(|body|, usage.inputTokens) && usage.estimated
  {
    match d.usage(body)
    case Some((input, output)) => Sse.Usage(input, output, false)
    case None => Sse.Usage(Sse.EstimateTokens(|body|), Sse.EstimateTokens(|body|), true)
  }

  // ---------- one response ----------

  datatype CostRecord = CostRecord(
    agent: string,
    taskID: string,
    model: string,
    inputTokens: int,
    outputTokens: int,
    costUSD: real)

  datatype Meta = Meta(agent: string, model: string, taskID: string)

  class CostSink {
    var records: seq<CostRecord>

    constructor ()
      ensures records == []
    {
      records := [];
    }

    method Enqueue(record: CostRecord)
      modifies this
      ensures records == old(records) + [record]
    {
      records := records + [record];
    }
  }

  /** The record is the request's bill: who and what it names, what was used, and its price. */
  ghost predicate IsBill(prices: Prices, meta: Meta, usage: Sse.Usage, record: CostRecord) {
    && record.agent == meta.agent && record.taskID == meta.taskID && record.model == meta.model
    && record.inputTokens == usage.inputTokens && record.outputTokens == usage.outputTokens
    && PricedAt(prices, record.model, record.inputTokens, record.outputTokens, record.costUSD)
  }

  function RecordFor(prices: Prices, meta: Meta, usage: Sse.Usage): (record: CostRecord)
    ensures IsBill(prices, meta, usage, record)
  {
    CostIsPriced(prices, meta.model, usage.inputTokens, usage.outputTokens);
    CostRecord(meta.agent, meta.taskID, meta.model, usage.inputTokens, usage.outputTokens,
               Cost(prices, meta.model, usage.inputTokens, usage.outputTokens))
  }

  /** The cost was added to what the agent and all agents had spent, and to nobody else's. */
  ghost predicate Charged(s: Settings, agent: string, costUSD: real, now: int, before: Memory, after: Memory) {
    && agent in after.states
    && after.states[agent].spentUSD == DecisionLaws.AgentSpent(before, agent, now) + Max(costUSD, 0.0)
    && after.global.spentUSD == DecisionLaws.GlobalSpentAt(s, before, now) + Max(costUSD, 0.0)
    && forall a | a != agent && a in before.states :: a in after.states && after.states[a] == before.states[a]
  }

  /** The agent's budget and the sink took the same record, once. */
  ghost predicate BilledOnce(s: Settings, record: CostRecord, now: int, before: Memory, after: Memory,
                             sinkBefore: seq<CostRecord>, sinkAfter: seq<CostRecord>) {
    && after == RecordedMemory(s, before, Tasks.NormalizeAgent(record.agent), record.costUSD, now)
    && Charged(s, Tasks.NormalizeAgent(record.agent), record.costUSD, now, before, after)
    && sinkAfter == sinkBefore + [record]
  }

  /** One bill more is in the sink. */
  ghost predicate Enqueued(prices: Prices, meta: Meta, usage: Sse.Usage, before: seq<CostRecord>,
                           after: seq<CostRecord>)
  {
    |after| == |before| + 1 && after[..|before|] == before && IsBill(prices, meta, usage, after[|before|])
  }

  /** The tasks after a hold was settled at a cost, or released, unless it was already gone. */
  function HoldDropped(before: Tasks.Book, hold: Tasks.Hold, done: bool, costUSD: real, billed: bool,
                       now: int): Tasks.Book
  {
    if done then before else Tasks.Settled(before, hold, costUSD, billed, now)
  }

  /** Bills one request: its agent and the cross-agent total, its task, and the sink. */
  method Bill(manager: BudgetManager, reservation: Tasks.TaskReservation?, sink: CostSink, prices: Prices, meta: Meta,
              usage: Sse.Usage, now: int)
    modifies manager, sink
    modifies if reservation == null then {} else {reservation}
    modifies if reservation == null then {} else {reservation.manager}
    ensures var record := RecordFor(prices, meta, usage);
            && BilledOnce(manager.settings, record, now, old(manager.Model()), manager.Model(), old(sink.records),
                          sink.records)
            && Enqueued(prices, meta, usage, old(sink.records), sink.records)
            && (reservation != null ==> reservation.done)
            && (reservation != null ==>
                  reservation.manager.tasks
                  == HoldDropped(old(reservation.manager.tasks), reservation.hold, old(reservation.done),
                                 record.costUSD, true, now))
  {
    var cost := Cost(prices, meta.model, usage.inputTokens, usage.outputTokens);
    ghost var agent := Tasks.NormalizeAgent(meta.agent);
    DecisionLaws.ManagerRecords(manager.settings, manager.Model(), agent,
                                PolicyFor(manager.settings, manager.Model(), agent), cost, now);
    var _ := manager.RecordSpend(meta.agent, cost, now);
    if reservation != null {
      reservation.Settle(cost, now);
    }
    sink.Enqueue(CostRecord(meta.agent, meta.taskID, meta.model, usage.inputTokens, usage.outputTokens, cost));
  }

  /** A response body that bills its request when it ends or is closed. */
  class BudgetTrackingBody {
    const manager: BudgetManager
    const reservation: Tasks.TaskReservation?
    const sink: CostSink
    const accumulator: Sse.SSEAccumulator
    const prices: Prices
    const meta: Meta
    const statusCode: int
    const streaming: bool
    var buffer: string
    var finalized: bool

    constructor (manager: BudgetManager, reservation: Tasks.TaskReservation?, sink: CostSink, decoder: Sse.Decoder,
                 prices: Prices, meta: Meta, statusCode: int, streaming: bool)
      ensures this.manager == manager && this.reservation == reservation && this.sink == sink
      ensures this.prices == prices && this.meta == meta && this.statusCode == statusCode && this.streaming == streaming
      ensures fresh(accumulator) && accumulator.decoder == decoder && accumulator.Model() == Sse.START
      ensures buffer == "" && !finalized
    {
      this.manager, this.reservation, this.sink, this.prices := manager, reservation, sink, prices;
      this.meta, this.statusCode, this.streaming := meta, statusCode, streaming;
      accumulator := new Sse.SSEAccumulator(decoder);
      buffer, finalized := "", false;
    }

    predicate Billable() {
      200 <= statusCode < 400 && meta.model != ""
    }

    ghost function CurrentUsage(): Sse.Usage
      reads this, accumulator
    {
      if streaming then Sse.AccumulatedUsage(accumulator.decoder, accumulator.Model())
      else ResponseUsage(accumulator.decoder, buffer)
    }

    /** The usage once one more piece has arrived. */
    ghost function UsageAfter(payload: string): Sse.Usage
      reads this, accumulator
    {
      if streaming
      then Sse.AccumulatedUsage(accumulator.decoder, Sse.Feed(accumulator.decoder, accumulator.Model(), payload))
      else ResponseUsage(accumulator.decoder, buffer + payload)
    }

    /** Takes in what the upstream delivered; `eof` ends the body. */
    method Read(payload: string, eof: bool, now: int)
      modifies this, accumulator, manager, sink
      modifies if reservation == null then {} else {reservation}
      modifies if reservation == null then {} else {reservation.manager}
      ensures !eof || old(finalized) ==> manager.Model() == old(manager.Model()) && sink.records == old(sink.records)
      ensures finalized == (old(finalized) || eof)
      ensures !eof && streaming ==>
                accumulator.Model() == Sse.Feed(accumulator.decoder, old(accumulator.Model()), payload)
      ensures !eof && !streaming ==> buffer == old(buffer) + payload
      ensures eof && !old(finalized) && Billable() ==>
                var record := RecordFor(prices, meta, old(UsageAfter(payload)));
                && BilledOnce(manager.settings, record, now, old(manager.Model()), manager.Model(), old(sink.records),
                              sink.records)
                && (reservation != null ==> reservation.done)
                && (reservation != null ==>
                      reservation.manager.tasks
                      == HoldDropped(old(reservation.manager.tasks), reservation.hold, old(reservation.done),
                                     record.costUSD, true, now))
      ensures eof && !Billable() ==> manager.Model() == old(manager.Model()) && sink.records == old(sink.records)
      ensures (!eof || old(finalized)) && reservation != null ==>
                reservation.done == old(reservation.done) && reservation.manager.tasks == old(reservation.manager.tasks)
      ensures eof && !old(finalized) && !Billable() && reservation != null ==> reservation.done
      ensures eof && !old(finalized) && !Billable() && reservation != null ==>
                reservation.manager.tasks
                == HoldDropped(old(reservation.manager.tasks), reservation.hold, old(reservation.done), 0.0, false, now)
    {
      if payload != "" {
        if streaming {
          accumulator.Write(payload);
        } else {
          buffer := buffer + payload;
        }
      } else {
        assert buffer + payload == buffer;
      }
      if eof {
        Finalize(now);
      }
    }

    method Close(now: int)
      modifies this, accumulator, manager, sink
      modifies if reservation == null then {} else {reservation}
      modifies if reservation == null then {} else {reservation.manager}
      ensures finalized
      ensures old(finalized) || !Billable() ==>
                manager.Model() == old(manager.Model()) && sink.records == old(sink.records)
      ensures old(finalized) && reservation != null ==>
                reservation.done == old(reservation.done) && reservation.manager.tasks == old(reservation.manager.tasks)
      ensures !old(finalized) && reservation != null ==> reservation.done
      ensures !old(finalized) && Billable() ==>
                var record := RecordFor(prices, meta, old(CurrentUsage()));
                && BilledOnce(manager.settings, record, now, old(manager.Model()), manager.Model(), old(sink.records),
                              sink.records)
                && (reservation != null ==>
                      reservation.manager.tasks
                      == HoldDropped(old(reservation.manager.tasks), reservation.hold, old(reservation.done),
                                     record.costUSD, true, now))
      ensures !old(finalized) && !Billable() && reservation != null ==>
                reservation.manager.tasks
                == HoldDropped(old(reservation.manager.tasks), reservation.hold, old(reservation.done), 0.0, false, now)
    {
      Finalize(now);
    }

    /** Reads a body whose end is not seen: nothing is billed yet. */
    method ReadPieces(pieces: seq<string>, now: int)
      modifies this, accumulator, manager, sink
      modifies if reservation == null then {} else {reservation}
      modifies if reservation == null then {} else {reservation.manager}
      ensures finalized == old(finalized) && manager.Model() == old(manager.Model())
              && sink.records == old(sink.records)
      ensures reservation != null ==>
                reservation.done == old(reservation.done) && reservation.manager.tasks == old(reservation.manager.tasks)
      ensures streaming ==>
                accumulator.Model() == Sse.Feed(accumulator.decoder, old(accumulator.Model()), Sse.Flatten(pieces))
      ensures !streaming ==> buffer == old(buffer) + Sse.Flatten(pieces)
      decreases |pieces|
    {
      if pieces == [] {
        assert buffer + "" == buffer;
        return;
      }
      ghost var before, held := accumulator.Model(), buffer;
      Read(pieces[0], false, now);
      if streaming {
        Sse.FeedConcat(accumulator.decoder, before, pieces[0], Sse.Flatten(pieces[1..]));
      } else {
        assert held + (pieces[0] + Sse.Flatten(pieces[1..])) == (held + pieces[0]) + Sse.Flatten(pieces[1..]);
      }
      ReadPieces(pieces[1..], now);
    }

    /** The first call bills the request to its agent, its task and the sink, or
        drops the hold when there is nothing to bill. Later calls do nothing. */
    method Finalize(now: int)
      modifies this, accumulator, manager, sink
      modifies if reservation == null then {} else {reservation}
      modifies if reservation == null then {} else {reservation.manager}
      ensures finalized
      ensures old(finalized) || !Billable() ==>
                manager.Model() == old(manager.Model()) && sink.records == old(sink.records)
      ensures old(finalized) && reservation != null ==>
                reservation.done == old(reservation.done) && reservation.manager.tasks == old(reservation.manager.tasks)
      ensures !old(finalized) && Billable() ==>
                var record := RecordFor(prices, meta, old(CurrentUsage()));
                && BilledOnce(manager.settings, record, now, old(manager.Model()), manager.Model(), old(sink.records),
                              sink.records)
                && Enqueued(prices, meta, old(CurrentUsage()), old(sink.records), sink.records)
                && (reservation != null ==> reservation.done)
                && (reservation != null ==>
                      reservation.manager.tasks
                      == HoldDropped(old(reservation.manager.tasks), reservation.hold, old(reservation.done),
                                     record.costUSD, true, now))
      ensures !old(finalized) && !Billable() && reservation != null ==> reservation.done
      ensures !old(finalized) && !Billable() && reservation != null ==>
                reservation.manager.tasks
                == HoldDropped(old(reservation.manager.tasks), reservation.hold, old(reservation.done), 0.0, false, now)
      ensures |sink.records| == |old(sink.records)|
                                + if !old(finalized) && 200 <= statusCode <= 399 && meta.model != "" then 1 else 0
    {
      if finalized {
        return;
      }
      finalized := true;
      if statusCode < 200 || statusCode >= 400 || meta.model == "" {
        if reservation != null {
          reservation.Release(now);
        }
        return;
      }
      var usage;
      if streaming {
        usage := accumulator.FinalUsage();
      } else {
        usage := ResponseUsage(accumulator.decoder, buffer);
      }
      Bill(manager, reservation, sink, prices, meta, usage, now);
    }
  }

  /** The second path that bills: a translated response, read whole. It bills only
      success statuses below 300, and only what it can translate; a hold it does not
      settle is left to the request's deferred release. */
  method BillTranslated(manager: BudgetManager, reservation: Tasks.TaskReservation?, sink: CostSink,
                        decoder: Sse.Decoder, prices: Prices, meta: Meta, statusCode: int, body: string,
                        translates: bool, now: int)
    returns (billed: bool)
    modifies manager, sink
    modifies if reservation == null then {} else {reservation}
    modifies if reservation == null then {} else {reservation.manager}
    ensures billed == (200 <= statusCode < 300 && translates)
    ensures !billed ==> manager.Model() == old(manager.Model()) && sink.records == old(sink.records)
    ensures !billed && reservation != null ==>
              reservation.done == old(reservation.done) && reservation.manager.tasks == old(reservation.manager.tasks)
    ensures billed ==>
              var record := RecordFor(prices, meta, ResponseUsage(decoder, body));
              && BilledOnce(manager.settings, record, now, old(manager.Model()), manager.Model(), old(sink.records),
                            sink.records)
              && Enqueued(prices, meta, ResponseUsage(decoder, body), old(sink.records), sink.records)
              && (reservation != null ==> reservation.done)
              && (reservation != null ==>
                    reservation.manager.tasks
                    == HoldDropped(old(reservation.manager.tasks), reservation.hold, old(reservation.done),
                                   record.costUSD, true, now))
  {
    if statusCode < 200 || statusCode >= 300 || !translates {
      return false;
    }
    Bill(manager, reservation, sink, prices, meta, ResponseUsage(decoder, body), now);
    return true;
  }

  // ---------- the gate ----------

  /** What rewriting the request for a cheaper model came to. */
  datatype Rewrite = RewriteFailed | Unchanged | RewrittenTo(model: string)

  datatype Admission = Forward(model: string) | Refuse(status: int)

  /** A request as the gate reads it, with what a rewrite of it would come to. */
  datatype Request = Request(
    agent: string,
    model: string,
    bodyBytes: nat,
    rawTaskID: string,
    emergency: bool,
    rewrite: Rewrite)
  {
    function Agent(): string {
      Tasks.NormalizeAgent(agent)
    }

    function TaskID(): string {
      TrimSpace(rawTaskID)
    }
  }

  /** The gate's answer before any task cap is looked at. */
  function AgentAdmission(decision: Decision, model: string, rewrite: Rewrite): Admission {
    match decision.action
    case Kill => Refuse(429)
    case Reject => Refuse(429)
    case Downgrade =>
      (match rewrite
       case RewriteFailed => Refuse(500)
       case RewrittenTo(cheaper) => Forward(cheaper)
       case Unchanged => if decision.over then Refuse(429) else Forward(model))
    case _ => Forward(model)
  }

  /** The budget check of a request, at the price of the model it asks for. */
  function CheckOf(s: Settings, prices: Prices, m: Memory, r: Request, now: int): CheckResult {
    CheckedMemory(s, m, r.Agent(), Cost(prices, r.model, r.bodyBytes / 4, 0), now)
  }

  function AllowedBy(s: Settings, prices: Prices, m: Memory, r: Request, now: int): Admission {
    AgentAdmission(CheckOf(s, prices, m, r, now).decision, r.model, r.rewrite)
  }

  /** What a forwarded request holds of its task: the price of the model that is sent. */
  function HoldFor(prices: Prices, r: Request, model: string): Tasks.Hold {
    Tasks.Hold(r.TaskID(), r.Agent(), NonNegative(Cost(prices, model, r.bodyBytes / 4, 0)))
  }

  predicate CapRefuses(prices: Prices, limits: Tasks.Limits, book: Tasks.Book, r: Request, model: string, now: int) {
    r.TaskID() != "" && Tasks.Refused(book, HoldFor(prices, r, model), Tasks.TaskLimit(limits, r.Agent()), now)
  }

  /** The gate's answer to a request. */
  function Answer(s: Settings, prices: Prices, m: Memory, limits: Tasks.Limits, book: Tasks.Book, r: Request,
                  now: int): Admission
  {
    if r.emergency then Refuse(503)
    else
      var allowed := AllowedBy(s, prices, m, r, now);
      if allowed.Forward? && CapRefuses(prices, limits, book, r, allowed.model, now) then Refuse(429) else allowed
  }

  function MemoryAfter(s: Settings, prices: Prices, m: Memory, r: Request, now: int): Memory {
    if r.emergency then m else CheckOf(s, prices, m, r, now).memory
  }

  /** The tasks after the answer: an attempt at a hold, for a budgeted request the agent's check let on. */
  function BookAfter(s: Settings, prices: Prices, m: Memory, limits: Tasks.Limits, book: Tasks.Book, r: Request,
                     now: int): Tasks.Book
  {
    var allowed := AllowedBy(s, prices, m, r, now);
    if r.emergency || allowed.Refuse? || r.TaskID() == "" then book
    else Tasks.Reserved(book, HoldFor(prices, r, allowed.model), Tasks.TaskLimit(limits, r.Agent()), now)
  }

  /** The answer does what the check decided: a kill or a rejection is answered 429; a downgrade
      goes on as the cheaper model, or unchanged while within the limit; the rest as asked. */
  ghost predicate Obeys(d: Decision, r: Request, admission: Admission) {
    && (!SpendLaws.Forwards(d) ==> admission == Refuse(429))
    && (d.action == Downgrade && r.rewrite == RewriteFailed ==> admission == Refuse(500))
    && (d.action == Downgrade && r.rewrite == Unchanged && d.over ==> admission == Refuse(429))
    && (admission.Forward? ==>
          admission.model == if d.action == Downgrade && r.rewrite.RewrittenTo? then r.rewrite.model else r.model)
  }

  /** The answer obeys the check made at the price of a quarter of the body, rounded down, as
      input of the model asked for. */
  ghost predicate ObeysCheck(s: Settings, prices: Prices, m: Memory, r: Request, now: int, admission: Admission) {
    forall usd | PricedAt(prices, r.model, r.bodyBytes / 4, 0, usd) ::
      Obeys(CheckedMemory(s, m, r.Agent(), usd, now).decision, r, admission)
  }

  lemma {:induction false} PricedOnce(prices: Prices, model: string, inputTokens: int, outputTokens: int, usd: real)
    requires PricedAt(prices, model, inputTokens, outputTokens, usd)
    ensures usd == Cost(prices, model, inputTokens, outputTokens)
  {
    CostIsPriced(prices, model, inputTokens, outputTokens);
  }

  lemma {:induction false} AnswerObeys(s: Settings, prices: Prices, m: Memory, limits: Tasks.Limits, book: Tasks.Book,
                                       r: Request, now: int)
    requires !r.emergency
    ensures ObeysCheck(s, prices, m, r, now, Answer(s, prices, m, limits, book, r, now))
  {
    forall usd | PricedAt(prices, r.model, r.bodyBytes / 4, 0, usd)
      ensures Obeys(CheckedMemory(s, m, r.Agent(), usd, now).decision, r, Answer(s, prices, m, limits, book, r, now))
    {
      PricedOnce(prices, r.model, r.bodyBytes / 4, 0, usd);
    }
  }

  class Gate {
    const manager: BudgetManager
    const tasks: Tasks.TaskManager
    const prices: Prices

    constructor (manager: BudgetManager, tasks: Tasks.TaskManager, prices: Prices)
      ensures this.manager == manager && this.tasks == tasks && this.prices == prices
    {
      this.manager, this.tasks, this.prices := manager, tasks, prices;
    }

    /** The agent's own answer: its budget is checked at the price of the model asked for. */
    method CheckAgent(r: Request, now: int) returns (admission: Admission)
      modifies manager
      ensures manager.Model() == CheckOf(manager.settings, prices, old(manager.Model()), r, now).memory
      ensures admission == AllowedBy(manager.settings, prices, old(manager.Model()), r, now)
    {
      var estimatedCost := Cost(prices, r.model, r.bodyBytes / 4, 0);
      var decision, _, _ := manager.CheckBudgetDetailed(r.agent, estimatedCost, now);
      if decision.action == Kill || decision.action == Reject {
        return Refuse(429);
      }
      if decision.action == Downgrade {
        if r.rewrite == RewriteFailed {
          return Refuse(500);
        }
        if r.rewrite.RewrittenTo? {
          return Forward(r.rewrite.model);
        }
        if decision.over {
          return Refuse(429);
        }
      }
      return Forward(r.model);
    }

    /** The task's answer: a hold of the price of the model that is sent, or none if
        the cap leaves no room for it. */
    method HoldTask(r: Request, sent: string, now: int) returns (reservation: Tasks.TaskReservation?)
      requires r.TaskID() != ""
      modifies tasks
      ensures tasks.tasks
              == Tasks.Reserved(old(tasks.tasks), HoldFor(prices, r, sent),
                                Tasks.TaskLimit(old(tasks.CurrentLimits()), r.Agent()), now)
      ensures reservation == null <==> CapRefuses(prices, old(tasks.CurrentLimits()), old(tasks.tasks), r, sent, now)
      ensures reservation != null ==>
                fresh(reservation) && reservation.hold == HoldFor(prices, r, sent) && reservation.manager == tasks
                && !reservation.done
    {
      var decision;
      TrimTwice(r.rawTaskID);
      decision, reservation := tasks.ReserveTask(r.agent, r.TaskID(), Cost(prices, sent, r.bodyBytes / 4, 0), now);
    }

    /** Admits one request. A hold is taken only for a request that is forwarded, and
        only when it names a task; its estimate is priced for the model that is sent. */
    method Admit(r: Request, now: int) returns (admission: Admission, reservation: Tasks.TaskReservation?)
      modifies manager, tasks
      ensures admission == Answer(manager.settings, prices, old(manager.Model()), old(tasks.CurrentLimits()),
                                  old(tasks.tasks), r, now)
      ensures !r.emergency ==> ObeysCheck(manager.settings, prices, old(manager.Model()), r, now, admission)
      ensures manager.Model() == MemoryAfter(manager.settings, prices, old(manager.Model()), r, now)
      ensures tasks.tasks == BookAfter(manager.settings, prices, old(manager.Model()), old(tasks.CurrentLimits()),
                                       old(tasks.tasks), r, now)
      ensures reservation != null <==> admission.Forward? && r.TaskID() != ""
      ensures reservation != null ==>
                fresh(reservation) && reservation.hold == HoldFor(prices, r, admission.model)
                && reservation.manager == tasks && !reservation.done
    {
      if r.emergency {
        return Refuse(503), null;
      }
      AnswerObeys(manager.settings, prices, manager.Model(), tasks.CurrentLimits(), tasks.tasks, r, now);
      admission := CheckAgent(r, now);
      reservation := null;
      if admission.Forward? && r.TaskID() != "" {
        reservation := HoldTask(r, admission.model, now);
        if reservation == null {
          admission := Refuse(429);
        }
      }
    }

    /** From the admitted request to the end of its handling: the response, if there is
        one, is read and closed, and the deferred release comes last. */
    method Relay(reservation: Tasks.TaskReservation?, sink: CostSink, decoder: Sse.Decoder, meta: Meta,
                 upstream: Upstream, now: int)
      modifies manager, sink
      modifies if reservation == null then {} else {reservation}
      modifies if reservation == null then {} else {reservation.manager}
      ensures reservation != null ==> reservation.done
      ensures var billed := Bills(upstream, meta);
              var record := RecordFor(prices, meta, UsageOf(decoder, upstream));
              && (billed ==> Enqueued(prices, meta, UsageOf(decoder, upstream), old(sink.records), sink.records))
              && (billed ==> BilledOnce(manager.settings, record, now, old(manager.Model()), manager.Model(),
                                        old(sink.records), sink.records))
              && (!billed ==> manager.Model() == old(manager.Model()) && sink.records == old(sink.records))
              && (reservation != null ==>
                    reservation.manager.tasks
                    == HoldDropped(old(reservation.manager.tasks), reservation.hold, old(reservation.done),
                                   if billed then record.costUSD else 0.0, billed, now))
    {
      if upstream.Response? {
        var body := new BudgetTrackingBody(manager, reservation, sink, decoder, prices, meta, upstream.status,
                                           upstream.streaming);
        body.ReadPieces(upstream.pieces, now);
        assert "" + Sse.Flatten(upstream.pieces) == Sse.Flatten(upstream.pieces);
        body.Close(now);
      }
      if reservation != null {
        reservation.Release(now);
      }
    }

    /** One request from end to end: refused ones cost nothing, forwarded ones leave no hold
        behind and are billed once, if at all, to agent, task and sink. */
    method Serve(r: Request, sink: CostSink, decoder: Sse.Decoder, upstream: Upstream, now: int)
      returns (admission: Admission)
      modifies manager, tasks, sink
      ensures admission == Answer(manager.settings, prices, old(manager.Model()), old(tasks.CurrentLimits()),
                                  old(tasks.tasks), r, now)
      ensures !r.emergency ==> ObeysCheck(manager.settings, prices, old(manager.Model()), r, now, admission)
      ensures admission.Refuse? ==>
                && sink.records == old(sink.records)
                && manager.Model() == MemoryAfter(manager.settings, prices, old(manager.Model()), r, now)
                && tasks.tasks == BookAfter(manager.settings, prices, old(manager.Model()),
                                            old(tasks.CurrentLimits()), old(tasks.tasks), r, now)
      ensures admission.Forward? ==>
                var meta := Meta(r.agent, admission.model, r.TaskID());
                var checked := MemoryAfter(manager.settings, prices, old(manager.Model()), r, now);
                if Bills(upstream, meta) then
                  && Enqueued(prices, meta, UsageOf(decoder, upstream), old(sink.records), sink.records)
                  && BilledOnce(manager.settings, RecordFor(prices, meta, UsageOf(decoder, upstream)), now, checked,
                                manager.Model(), old(sink.records), sink.records)
                else sink.records == old(sink.records) && manager.Model() == checked
      ensures |sink.records|
              == |old(sink.records)|
                 + if admission.Forward? && admission.model != "" && upstream.Response?
                      && 200 <= upstream.status <= 399 then 1 else 0
      ensures admission.Forward? ==>
                var meta := Meta(r.agent, admission.model, r.TaskID());
                var cost := if Bills(upstream, meta) then RecordFor(prices, meta, UsageOf(decoder, upstream)).costUSD
                            else 0.0;
                var held := BookAfter(manager.settings, prices, old(manager.Model()), old(tasks.CurrentLimits()),
                                      old(tasks.tasks), r, now);
                tasks.tasks == if r.TaskID() == "" then held
                               else HoldDropped(held, HoldFor(prices, r, admission.model), false, cost,
                                                Bills(upstream, meta), now)
    {
      var reservation;
      admission, reservation := Admit(r, now);
      if admission.Forward? {
        Relay(reservation, sink, decoder, Meta(r.agent, admission.model, r.TaskID()), upstream, now);
      }
    }
  }

  lemma TrimTwice(s: string)
    ensures TrimSpace(TrimSpace(s)) == TrimSpace(s)
  {
    TrimSpaceIsTight(s);
  }

  // ---------- one request from end to end ----------

  /** What the provider answers: nothing, or a response in pieces. */
  datatype Upstream = Unreachable | Response(status: int, streaming: bool, pieces: seq<string>)

  predicate Bills(upstream: Upstream, meta: Meta) {
    upstream.Response? && 200 <= upstream.status < 400 && meta.model != ""
  }

  function UsageOf(d: Sse.Decoder, upstream: Upstream): Sse.Usage {
    if upstream.Response? && upstream.streaming
    then Sse.AccumulatedUsage(d, Sse.Feed(d, Sse.START, Sse.Flatten(upstream.pieces)))
    else ResponseUsage(d, if upstream.Response? then Sse.Flatten(upstream.pieces) else "")
  }

  /** A streamed response is billed what its lines tell, however it was cut, or one token each way;
      one read whole, what its usage field says, or a token each way for every four bytes. */
  lemma {:induction false} UpstreamTells(d: Sse.Decoder, status: int, streaming: bool, pieces: seq<string>)
    ensures var usage, body := UsageOf(d, Response(status, streaming, pieces)), Sse.Flatten(pieces);
            if streaming then Sse.Tells(d, Split(body, '\n'), Sse.Usage(1, 1, true), usage)
            else if d.usage(body).Some? then
              (usage.inputTokens, usage.outputTokens, usage.estimated)
              == (d.usage(body).value.0, d.usage(body).value.1, false)
            else usage.inputTokens == usage.outputTokens && Sse.IsEstimate(|body|, usage.inputTokens) && usage.estimated
  {
    if streaming {
      Sse.ChunkingIrrelevant(d, Sse.START, pieces);
      Sse.StreamTells(d, pieces);
    }
  }

  /** An admitted request leaves nothing held: whatever its response was, the task has what
      it had reserved and in flight before, and its spend has grown by what was billed. */
  lemma {:induction false} NoHoldLeaks(book: Tasks.Book, hold: Tasks.Hold, limit: real, costUSD: real, billed: bool,
                                       now: int)
    requires hold.estimatedUSD >= 0.0 && !Tasks.Refused(book, hold, limit, now)
    requires var state := Tasks.StateOf(book, hold.taskID, now);
             state.reservedUSD >= 0.0 && state.inFlight >= 0 && (state.inFlight == 0 ==> state.reservedUSD == 0.0)
    ensures var before := Tasks.StateOf(book, hold.taskID, now);
            var after := HoldDropped(Tasks.Reserved(book, hold, limit, now), hold, false, costUSD, billed, now);
            && hold.taskID in after
            && after[hold.taskID].reservedUSD == before.reservedUSD && after[hold.taskID].inFlight == before.inFlight
            && after[hold.taskID].spentUSD == before.spentUSD + (if billed then NonNegative(costUSD) else 0.0)
            && forall t :: t != hold.taskID ==> (t in after <==> t in book) && (t in book ==> after[t] == book[t])
  {
  }
}
