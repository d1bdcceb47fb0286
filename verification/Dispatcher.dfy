/**
 The alert dispatcher: a bounded queue filled by callers that never wait, drained by
 workers that retry, and counters that must balance (internal/alert/dispatcher.go).
 */
module Dispatcher {
  // ---------- one delivery ----------

  const MAX_RETRIES := 3
  const MAX_BACKOFF := 8_000_000_000

  /** What one HTTP attempt comes back with. */
  datatype Reply = BuildFailed | TransportFailed(canceled: bool) | Answered(status: int) {
    predicate Accepted() {
      Answered? && 200 <= status < 300
    }

    predicate Retryable() {
      match this
      case BuildFailed => false
      case TransportFailed(canceled) => !canceled
      case Answered(status) => status == 408 || status == 429 || status >= 500
    }
  }

  /** What a delivery meets: the reply to each attempt, whether the dispatcher was
      cancelled by the end of it, and whether the wait after it ran its full time. */
  datatype Weather = Weather(reply: nat -> Reply, cancelledBy: nat -> bool, waited: nat -> bool)

  /** No attempt follows attempt k. */
  predicate Last(w: Weather, k: nat) {
    || w.reply(k).Accepted()
    || w.cancelledBy(k)
    || !w.reply(k).Retryable()
    || k > MAX_RETRIES
    || !w.waited(k)
  }

  /** Another attempt can help and may be made: the service timed out, was busy or failed, or
      could not be reached for a reason other than being given up. */
  ghost predicate GoesOn(w: Weather, k: nat) {
    && !w.cancelledBy(k) && w.waited(k)
    && match w.reply(k)
       case BuildFailed => false
       case TransportFailed(canceled) => !canceled
       case Answered(status) => status == 408 || status == 429 || 500 <= status
  }

  class Counters {
    var delivered: nat
    var failed: nat
    var retries: nat

    /** Sends one alert, retrying while that can help; the outcome is counted once. */
    method Deliver(w: Weather) returns (attempts: nat)
      modifies this
      ensures 1 <= attempts <= 4
      ensures Last(w, attempts) && forall k :: 1 <= k < attempts ==> !Last(w, k)
      ensures forall k :: 1 <= k < attempts ==> GoesOn(w, k)
      ensures attempts <= 3 ==> !GoesOn(w, attempts)
      ensures retries == old(retries) + attempts - 1
      ensures if w.reply(attempts).Answered? && 200 <= w.reply(attempts).status <= 299
              then delivered == old(delivered) + 1 && failed == old(failed)
              else delivered == old(delivered) && failed == old(failed) + 1
    {
      assert forall k: nat :: Last(w, k) <==> !GoesOn(w, k) || k > MAX_RETRIES;
      attempts := 0;
      var attempt := 0;
      while attempt <= MAX_RETRIES
        invariant 0 <= attempt <= MAX_RETRIES + 1 && attempts == attempt
        invariant forall k :: 1 <= k < attempts ==> !Last(w, k)
        invariant attempts > 0 ==>
                    !w.reply(attempts).Accepted() && !w.cancelledBy(attempts) && w.reply(attempts).Retryable()
        invariant delivered == old(delivered) && failed == old(failed)
        invariant retries == old(retries) + if attempts == 0 then 0 else attempts - 1
      {
        if attempt > 0 {
          if !w.waited(attempt) {
            break;
          }
          assert !Last(w, attempt);
          retries := retries + 1;
        }
        attempts := attempts + 1;
        if w.reply(attempts).Accepted() {
          delivered := delivered + 1;
          return;
        }
        if w.cancelledBy(attempts) || !w.reply(attempts).Retryable() {
          break;
        }
        attempt := attempt + 1;
      }
      failed := failed + 1;
    }
  }

  // ---------- the delay before a retry ----------

  const TWO_62 := 0x4000_0000_0000_0000
  const TWO_63 := 0x8000_0000_0000_0000
  const TWO_64 := 0x1_0000_0000_0000_0000

  /** A 64-bit duration after doubling, wrapped as the machine wraps it. */
  function Doubled(delay: int): int {
    var d := 2 * delay;
    if d >= TWO_63 then d - TWO_64 else if d < -TWO_63 then d + TWO_64 else d
  }

  function Pow2(n: nat): (p: nat)
    ensures p >= 1
  {
    if n == 0 then 1 else 2 * Pow2(n - 1)
  }

  function Doublings(delay: int, n: nat): int {
    if n == 0 then delay else Doubled(Doublings(delay, n - 1))
  }

  /** The exponential delay the retries are meant to use. */
  function Exponential(base: nat, attempt: nat): nat
    requires attempt >= 1
  {
    var d := base * Pow2(attempt - 1);
    if d > 8_000_000_000 then 8_000_000_000 else d
  }

  /** The delay in wrapped arithmetic: the cap if any doubling reached it. */
  ghost function WrappedDelay(base: int, attempt: nat): int
    requires attempt >= 1
  {
    if exists i :: 1 <= i < attempt && Doublings(base, i) >= MAX_BACKOFF then MAX_BACKOFF
    else if Doublings(base, attempt - 1) > MAX_BACKOFF then MAX_BACKOFF
    else Doublings(base, attempt - 1)
  }

  method Backoff(base: int, attempt: nat) returns (delay: int)
    requires 0 < base < TWO_63 && attempt >= 1
    ensures delay == WrappedDelay(base, attempt)
  {
    delay := base;
    var i := 1;
    while i < attempt
      invariant 1 <= i <= attempt
      invariant delay == Doublings(base, i - 1)
      invariant forall j :: 1 <= j < i ==> Doublings(base, j) < MAX_BACKOFF
    {
      delay := Doubled(delay);
      if delay >= MAX_BACKOFF {
        assert Doublings(base, i) >= MAX_BACKOFF;
        return MAX_BACKOFF;
      }
      i := i + 1;
    }
    if delay > MAX_BACKOFF {
      return MAX_BACKOFF;
    }
  }

  /** A base whose first doubling does not wrap never wraps before the cap. */
  lemma {:induction false} DoublingsAreExact(base: nat, n: nat)
    requires 0 < base < TWO_62
    requires forall i :: 1 <= i < n ==> Doublings(base, i) < MAX_BACKOFF
    ensures Doublings(base, n) == base * Pow2(n) < TWO_63
  {
    if n == 0 {
    } else {
      DoublingsAreExact(base, n - 1);
    }
  }

  lemma {:induction false} PowersGrow(base: nat, i: nat, n: nat)
    requires i <= n
    ensures base * Pow2(i) <= base * Pow2(n)
  {
    if i == n {
    } else {
      PowersGrow(base, i, n - 1);
    }
  }

  lemma {:induction false} SmallBaseBacksOff(base: nat, attempt: nat)
    requires 0 < base < TWO_62 && attempt >= 1
    ensures WrappedDelay(base, attempt) == Exponential(base, attempt)
  {
    if exists i :: 1 <= i < attempt && Doublings(base, i) >= MAX_BACKOFF {
      var i := FirstAtCap(base, attempt);
      DoublingsAreExact(base, i);
      PowersGrow(base, i, attempt - 1);
    } else {
      DoublingsAreExact(base, attempt - 1);
    }
  }

  lemma {:induction false} FirstAtCap(base: nat, attempt: nat) returns (i: nat)
    requires exists i :: 1 <= i < attempt && Doublings(base, i) >= MAX_BACKOFF
    ensures 1 <= i < attempt && Doublings(base, i) >= MAX_BACKOFF
    ensures forall j :: 1 <= j < i ==> Doublings(base, j) < MAX_BACKOFF
  {
    i := 1;
    while Doublings(base, i) < MAX_BACKOFF
      invariant 1 <= i < attempt
      invariant forall j :: 1 <= j < i ==> Doublings(base, j) < MAX_BACKOFF
      decreases attempt - i
    {
      i := i + 1;
    }
  }

  /** The retry schedule is the capped exponential exactly for the bases below 2^62
      nanoseconds; from there the first doubling wraps to a negative delay. */
  lemma {:induction false} ScheduleIsExponential(base: nat)
    requires 0 < base < TWO_63
    ensures (forall attempt ::
               1 <= attempt <= 3 ==> WrappedDelay(base, attempt) == Exponential(base, attempt))
            <==> base < TWO_62
  {
    if base < TWO_62 {
      forall attempt | 1 <= attempt <= 3 ensures WrappedDelay(base, attempt) == Exponential(base, attempt) {
        SmallBaseBacksOff(base, attempt);
      }
    } else {
      assert Doublings(base, 0) == base && Doublings(base, 1) == 2 * base - TWO_64 < 0;
      assert WrappedDelay(base, 2) < 0;
    }
  }

  /** The base the program uses, half a second, is far below that. */
  lemma {:induction false} DefaultSchedule()
    ensures WrappedDelay(500_000_000, 1) == 500_000_000
    ensures WrappedDelay(500_000_000, 2) == 1_000_000_000
    ensures WrappedDelay(500_000_000, 3) == 2_000_000_000
  {
    SmallBaseBacksOff(500_000_000, 1);
    SmallBaseBacksOff(500_000_000, 2);
    SmallBaseBacksOff(500_000_000, 3);
    assert Pow2(1) == 2 && Pow2(2) == 4;
  }

  /** With a base of 2^62 nanoseconds the second retry would wait a negative time. */
  lemma {:induction false} HugeBaseWraps()
    ensures WrappedDelay(TWO_62, 2) == -TWO_63
  {
    assert Doublings(TWO_62, 0) == TWO_62 && Doublings(TWO_62, 1) == -TWO_63;
  }

  // ---------- the queue and its counters ----------

  /** Where a caller is inside `enqueue`. */
  datatype Caller<Job> =
    | Resting
    | Admitted(job: Job)  // saw an open dispatcher
    | Pending(job: Job)   // counted itself pending
    | Sent                // its job is in the queue, not yet counted as enqueued
    | Full                // found the queue full, still counted pending
    | Refused             // its drop is not yet counted

  /** Where a worker is in its loop. */
  datatype Worker<Job> = Waiting | Delivering(job: Job) | Counted | Exited

  /** The dispatcher, with the history of its jobs: `calls` enqueue calls begun,
      `unencodable` alerts counted as failed without ever being enqueued,
      `accepted` jobs in the order they entered the queue, `taken` in the order
      workers took them, `finished` those whose outcome was counted. */
  datatype State<!Job> = State(
    capacity: nat, closed: bool, cancelled: bool,
    queue: seq<Job>, callers: seq<Caller<Job>>, workers: seq<Worker<Job>>,
    pending: int, enqueued: nat, delivered: nat, failed: nat, dropped: nat, unencodable: nat,
    calls: nat, accepted: seq<Job>, taken: seq<Job>, finished: multiset<Job>)

  datatype Event<Job> =
    | Call(i: nat, job: Job)
    | Advance(i: nat)
    | Take(j: nat)
    | Finish(j: nat, ok: bool)
    | Settle(j: nat)
    | Exit(j: nat)
    | Unencodable
    | Close
    | Cancel

  /** The next step of a call that has begun, at the granularity of its atomic operations. */
  function Advanced<Job>(s: State<Job>, i: nat): State<Job>
    requires i < |s.callers|
  {
    match s.callers[i]
    case Resting => s
    case Admitted(job) => s.(callers := s.callers[i := Pending(job)], pending := s.pending + 1)
    case Pending(job) =>
      if |s.queue| < s.capacity
      then s.(callers := s.callers[i := Sent], queue := s.queue + [job], accepted := s.accepted + [job])
      else s.(callers := s.callers[i := Full])
    case Sent => s.(callers := s.callers[i := Resting], enqueued := s.enqueued + 1)
    case Full => s.(callers := s.callers[i := Refused], pending := s.pending - 1)
    case Refused => s.(callers := s.callers[i := Resting], dropped := s.dropped + 1)
  }

  /** One step; an event that cannot happen here changes nothing. */
  function Step<Job>(s: State<Job>, e: Event<Job>): State<Job> {
    match e
    case Call(i, job) =>
      if i < |s.callers| && s.callers[i].Resting?
      then s.(callers := s.callers[i := if s.closed then Refused else Admitted(job)], calls := s.calls + 1)
      else s
    case Advance(i) => if i < |s.callers| then Advanced(s, i) else s
    case Take(j) =>
      if j < |s.workers| && s.workers[j].Waiting? && s.queue != []
      then s.(workers := s.workers[j := Delivering(s.queue[0])], queue := s.queue[1..], taken := s.taken + [s.queue[0]])
      else s
    case Finish(j, ok) =>
      if j < |s.workers| && s.workers[j].Delivering?
      then s.(workers := s.workers[j := Counted], finished := s.finished + multiset{s.workers[j].job},
              delivered := if ok then s.delivered + 1 else s.delivered,
              failed := if ok then s.failed else s.failed + 1)
      else s
    case Settle(j) =>
      if j < |s.workers| && s.workers[j].Counted?
      then s.(workers := s.workers[j := Waiting], pending := s.pending - 1)
      else s
    case Exit(j) =>
      if j < |s.workers| && s.workers[j].Waiting? && s.cancelled
      then s.(workers := s.workers[j := Exited])
      else s
    case Unencodable => s.(failed := s.failed + 1, unencodable := s.unencodable + 1)
    case Close => s.(closed := true)
    case Cancel => s.(cancelled := s.cancelled || s.closed)
  }

  function Run<Job>(s: State<Job>, events: seq<Event<Job>>): State<Job>
    decreases |events|
  {
    if events == [] then s else Run(Step(s, events[0]), events[1..])
  }

  function Fresh<Job>(capacity: nat, callers: nat, workers: nat): State<Job> {
    State(capacity, false, false, [], seq(callers, _ => Resting), seq(workers, _ => Waiting), 0, 0, 0, 0, 0, 0, 0, [],
          [], multiset{})
  }

  // ---------- what is in flight ----------

  function Tally<T>(s: seq<T>, p: T -> bool): nat {
    if s == [] then 0 else (if p(s[0]) then 1 else 0) + Tally(s[1..], p)
  }

  lemma {:induction false} TallyUpdate<T>(s: seq<T>, i: nat, x: T, p: T -> bool)
    requires i < |s|
    ensures Tally(s[i := x], p) == Tally(s, p) - (if p(s[i]) then 1 else 0) + (if p(x) then 1 else 0)
  {
    var t := s[i := x];
    if i == 0 {
      assert t[1..] == s[1..];
    } else {
      assert t[1..] == s[1..][i - 1 := x];
      TallyUpdate(s[1..], i - 1, x, p);
    }
  }

  lemma {:induction false} TallyZero<T>(s: seq<T>, p: T -> bool)
    ensures Tally(s, p) == 0 <==> forall i :: 0 <= i < |s| ==> !p(s[i])
  {
    if s == [] {
    } else {
      TallyZero(s[1..], p);
      if forall i :: 0 <= i < |s[1..]| ==> !p(s[1..][i]) {
        if !p(s[0]) {
          assert forall i :: 1 <= i < |s| ==> s[i] == s[1..][i - 1];
        }
      } else {
        var i :| 0 <= i < |s[1..]| && p(s[1..][i]);
        assert p(s[i + 1]);
      }
    }
  }

  function InHand<Job>(workers: seq<Worker<Job>>): multiset<Job> {
    if workers == [] then multiset{} else Holding(workers[0]) + InHand(workers[1..])
  }

  function Holding<Job>(w: Worker<Job>): multiset<Job> {
    if w.Delivering? then multiset{w.job} else multiset{}
  }

  lemma {:induction false} InHandUpdate<Job>(s: seq<Worker<Job>>, i: nat, w: Worker<Job>)
    requires i < |s|
    ensures InHand(s[i := w]) + Holding(s[i]) == InHand(s) + Holding(w)
  {
    var t := s[i := w];
    if i == 0 {
      assert t[1..] == s[1..];
      assert (Holding(w) + InHand(s[1..])) + Holding(s[0]) == (Holding(s[0]) + InHand(s[1..])) + Holding(w);
    } else {
      assert t[1..] == s[1..][i - 1 := w];
      InHandUpdate(s[1..], i - 1, w);
      assert t[0] == s[0] && s[1..][i - 1] == s[i];
      Exchange(Holding(s[0]), InHand(s[1..]), InHand(t[1..]), Holding(s[i]), Holding(w));
    }
  }

  lemma Exchange<T>(head: multiset<T>, rest: multiset<T>, changed: multiset<T>, was: multiset<T>, now: multiset<T>)
    requires changed + was == rest + now
    ensures (head + changed) + was == (head + rest) + now
  {
    assert (head + changed) + was == head + (changed + was);
    assert (head + rest) + now == head + (rest + now);
  }

  /** Callers counted pending whose job is not in the queue. */
  function Hesitating<Job>(): Caller<Job> -> bool {
    (c: Caller<Job>) => c.Pending? || c.Full?
  }

  /** Callers whose job is in the queue and not yet counted. */
  function Uncounted<Job>(): Caller<Job> -> bool {
    (c: Caller<Job>) => c.Sent?
  }

  function Busy<Job>(): Caller<Job> -> bool {
    (c: Caller<Job>) => !c.Resting?
  }

  /** Callers that may still put a job in the queue. */
  function MaySend<Job>(): Caller<Job> -> bool {
    (c: Caller<Job>) => c.Admitted? || c.Pending?
  }

  /** Workers that counted an outcome and have not yet taken it off `pending`. */
  function Closing<Job>(): Worker<Job> -> bool {
    (w: Worker<Job>) => w.Counted?
  }

  /** What holds at every moment: jobs leave the queue in the order they entered, none
      is lost or delivered twice, and each counter is off by exactly what is in flight. */
  ghost predicate Balanced<Job>(s: State<Job>) {
    JobsKept(s) && CountersKept(s)
  }

  ghost predicate JobsKept<Job>(s: State<Job>) {
    && |s.queue| <= s.capacity
    && s.accepted == s.taken + s.queue
    && multiset(s.taken) == s.finished + InHand(s.workers)
    && |s.finished| + s.unencodable == s.delivered + s.failed
  }

  ghost predicate CountersKept<Job>(s: State<Job>) {
    && s.enqueued + Tally(s.callers, Uncounted()) == |s.accepted|
    && s.pending == |s.queue| + |InHand(s.workers)| + Tally(s.callers, Hesitating()) + Tally(s.workers, Closing())
    && s.calls == s.enqueued + s.dropped + Tally(s.callers, Busy())
  }

  lemma {:induction false} FreshIsBalanced<Job>(capacity: nat, callers: nat, workers: nat)
    ensures Balanced(Fresh<Job>(capacity, callers, workers))
  {
    var s := Fresh<Job>(capacity, callers, workers);
    TallyZero(s.callers, Uncounted());
    TallyZero(s.callers, Hesitating());
    TallyZero(s.callers, Busy());
    TallyZero(s.workers, Closing());
    NothingInHand(s.workers);
  }

  lemma {:induction false} NothingInHand<Job>(workers: seq<Worker<Job>>)
    requires forall j :: 0 <= j < |workers| ==> !workers[j].Delivering?
    ensures InHand(workers) == multiset{}
  {
    if workers == [] {
    } else {
      NothingInHand(workers[1..]);
    }
  }

  lemma {:induction false} CallerTallies<Job>(s: seq<Caller<Job>>, i: nat, c: Caller<Job>)
    requires i < |s|
    ensures Tally(s[i := c], Uncounted())
            == Tally(s, Uncounted()) - (if s[i].Sent? then 1 else 0) + (if c.Sent? then 1 else 0)
    ensures Tally(s[i := c], Hesitating()) == Tally(s, Hesitating())
              - (if s[i].Pending? || s[i].Full? then 1 else 0) + (if c.Pending? || c.Full? then 1 else 0)
    ensures Tally(s[i := c], Busy())
            == Tally(s, Busy()) - (if s[i].Resting? then 0 else 1) + (if c.Resting? then 0 else 1)
    ensures Tally(s[i := c], MaySend()) == Tally(s, MaySend())
              - (if s[i].Admitted? || s[i].Pending? then 1 else 0) + (if c.Admitted? || c.Pending? then 1 else 0)
  {
    TallyUpdate(s, i, c, Uncounted());
    TallyUpdate(s, i, c, Hesitating());
    TallyUpdate(s, i, c, Busy());
    TallyUpdate(s, i, c, MaySend());
  }

  lemma {:induction false} SendKeepsBalance<Job>(s: State<Job>, i: nat)
    requires Balanced(s) && i < |s.callers| && s.callers[i].Pending? && |s.queue| < s.capacity
    ensures Balanced(Advanced(s, i))
  {
    var job := s.callers[i].job;
    CallerTallies(s.callers, i, Sent);
    assert s.accepted + [job] == s.taken + (s.queue + [job]);
  }

  /** A caller's move that leaves the queue alone changes the counters by what it holds. */
  lemma {:induction false} CallerMoves<Job>(s: State<Job>, i: nat)
    requires Balanced(s) && i < |s.callers|
    requires !s.callers[i].Pending? || |s.queue| == s.capacity
    ensures Balanced(Advanced(s, i))
  {
    var t := Advanced(s, i);
    if t != s {
      CallerTallies(s.callers, i, t.callers[i]);
      assert JobsKept(t);
    }
  }

  lemma {:induction false} AdvanceKeepsBalance<Job>(s: State<Job>, i: nat)
    requires Balanced(s) && i < |s.callers|
    ensures Balanced(Advanced(s, i))
  {
    if s.callers[i].Pending? && |s.queue| < s.capacity {
      SendKeepsBalance(s, i);
    } else {
      CallerMoves(s, i);
    }
  }

  lemma {:induction false} TakeKeepsBalance<Job>(s: State<Job>, j: nat)
    requires Balanced(s)
    ensures Balanced(Step(s, Take(j)))
  {
    if j < |s.workers| && s.workers[j].Waiting? && s.queue != [] {
      var job := s.queue[0];
      InHandUpdate(s.workers, j, Delivering(job));
      TallyUpdate(s.workers, j, Delivering(job), Closing());
      assert InHand(s.workers[j := Delivering(job)]) == InHand(s.workers) + multiset{job};
      TakenInOrder(s.taken, s.queue);
    }
  }

  lemma {:induction false} TakenInOrder<Job>(taken: seq<Job>, queue: seq<Job>)
    requires queue != []
    ensures (taken + [queue[0]]) + queue[1..] == taken + queue
    ensures multiset(taken + [queue[0]]) == multiset(taken) + multiset{queue[0]}
  {
    assert [queue[0]] + queue[1..] == queue;
  }

  /** What a worker's place in its loop adds to `pending`. */
  function Weight<Job>(w: Worker<Job>): nat {
    if w.Delivering? || w.Counted? then 1 else 0
  }

  lemma {:induction false} WorkerMoves<Job>(s: State<Job>, j: nat, w: Worker<Job>, finished: multiset<Job>,
                                            delivered: nat, failed: nat)
    requires Balanced(s) && j < |s.workers|
    requires finished + Holding(w) == s.finished + Holding(s.workers[j])
             && |finished| + s.unencodable == delivered + failed
    ensures Balanced(s.(workers := s.workers[j := w], finished := finished, delivered := delivered, failed := failed,
                        pending := s.pending - Weight(s.workers[j]) + Weight(w)))
  {
    InHandUpdate(s.workers, j, w);
    TallyUpdate(s.workers, j, w, Closing());
    Cancels(s.finished, finished, InHand(s.workers), InHand(s.workers[j := w]), Holding(s.workers[j]), Holding(w));
  }

  lemma {:induction false} FinishKeepsBalance<Job>(s: State<Job>, j: nat, ok: bool)
    requires Balanced(s)
    ensures Balanced(Step(s, Finish(j, ok)))
  {
    var t := Step(s, Finish(j, ok));
    if t != s {
      WorkerMoves(s, j, Counted, t.finished, t.delivered, t.failed);
    }
  }

  lemma {:induction false} SettleKeepsBalance<Job>(s: State<Job>, j: nat)
    requires Balanced(s)
    ensures Balanced(Step(s, Settle(j)))
  {
    if Step(s, Settle(j)) != s {
      WorkerMoves(s, j, Waiting, s.finished, s.delivered, s.failed);
    }
  }

  lemma {:induction false} ExitKeepsBalance<Job>(s: State<Job>, j: nat)
    requires Balanced(s)
    ensures Balanced(Step(s, Exit(j)))
  {
    if Step(s, Exit(j)) != s {
      WorkerMoves(s, j, Exited, s.finished, s.delivered, s.failed);
    }
  }

  /** What a worker puts down is what is added to the finished jobs. */
  lemma Cancels<T>(done: multiset<T>, done': multiset<T>, hand: multiset<T>, hand': multiset<T>, before: multiset<T>,
                   after: multiset<T>)
    requires done' + after == done + before && hand' + before == hand + after
    ensures done' + hand' == done + hand
    ensures |hand'| + |before| == |hand| + |after|
  {
    assert |hand' + before| == |hand + after|;
    assert (done' + hand') + (after + before) == (done' + after) + (hand' + before);
    assert (done + hand) + (after + before) == (done + before) + (hand + after);
    assert ((done' + hand') + (after + before)) - (after + before) == done' + hand';
    assert ((done + hand) + (after + before)) - (after + before) == done + hand;
  }

  lemma {:induction false} StepKeepsBalance<Job>(s: State<Job>, e: Event<Job>)
    requires Balanced(s)
    ensures Balanced(Step(s, e))
  {
    match e
    case Call(i, job) =>
      if i < |s.callers| && s.callers[i].Resting? {
        CallerTallies(s.callers, i, Step(s, e).callers[i]);
      }
    case Advance(i) => if i < |s.callers| { AdvanceKeepsBalance(s, i); }
    case Take(j) => TakeKeepsBalance(s, j);
    case Finish(j, ok) => FinishKeepsBalance(s, j, ok);
    case Settle(j) => SettleKeepsBalance(s, j);
    case Exit(j) => ExitKeepsBalance(s, j);
    case Unencodable =>
    case Close =>
    case Cancel =>
  }

  /** The books balance at every moment of every run. */
  lemma {:induction false} RunKeepsBalance<Job>(s: State<Job>, events: seq<Event<Job>>)
    requires Balanced(s)
    ensures Balanced(Run(s, events))
    decreases |events|
  {
    if events == [] {
    } else {
      StepKeepsBalance(s, events[0]);
      RunKeepsBalance(Step(s, events[0]), events[1..]);
    }
  }

  /** No call is half done and no worker is between counting and settling. */
  ghost predicate Quiet<Job>(s: State<Job>) {
    && (forall i :: 0 <= i < |s.callers| ==> !s.callers[i].Sent? && !Hesitating()(s.callers[i]))
    && (forall j :: 0 <= j < |s.workers| ==> !s.workers[j].Counted?)
  }

  /** The published counters add up exactly at the quiet moments; at any other moment
      the accepted alerts, with those that could not be encoded, are fewer than delivered,
      failed and pending together. */
  lemma {:induction false} CountersAddUp<Job>(capacity: nat, callers: nat, workers: nat, events: seq<Event<Job>>)
    ensures var s := Run(Fresh(capacity, callers, workers), events);
            && s.enqueued + s.unencodable <= s.delivered + s.failed + s.pending
            && (s.enqueued + s.unencodable == s.delivered + s.failed + s.pending <==> Quiet(s))
            && (Quiet(s) ==> s.pending == |s.queue| + |InHand(s.workers)|)
  {
    var s := Run(Fresh(capacity, callers, workers), events);
    FreshIsBalanced<Job>(capacity, callers, workers);
    RunKeepsBalance(Fresh(capacity, callers, workers), events);
    assert |s.accepted| == |multiset(s.taken)| + |s.queue|;
    TallyZero(s.callers, Uncounted());
    TallyZero(s.callers, Hesitating());
    TallyZero(s.workers, Closing());
  }

  // ---------- closing ----------

  /** How many jobs have entered the queue or still may once the dispatcher is closed. */
  ghost function Committed<Job>(s: State<Job>): nat {
    |s.accepted| + Tally(s.callers, MaySend())
  }

  lemma {:induction false} ClosedStep<Job>(s: State<Job>, e: Event<Job>)
    requires s.closed
    ensures Step(s, e).closed && Committed(Step(s, e)) <= Committed(s)
    ensures Step(s, e).calls > s.calls ==> e.Call? && Step(s, e).callers[e.i].Refused?
  {
    match e
    case Call(i, job) =>
      if i < |s.callers| && s.callers[i].Resting? {
        CallerTallies(s.callers, i, Refused);
      }
    case Advance(i) =>
      if i < |s.callers| {
        assert s.callers[i := s.callers[i]] == s.callers;
        CallerTallies(s.callers, i, Advanced(s, i).callers[i]);
      }
    case _ =>
  }

  /** After Close, only calls that had already passed its check can still be accepted. */
  lemma {:induction false} ClosedAcceptsNoMore<Job>(s: State<Job>, events: seq<Event<Job>>)
    requires s.closed
    ensures |Run(s, events).accepted| <= |s.accepted| + Tally(s.callers, MaySend())
    decreases |events|
  {
    if events == [] {
    } else {
      ClosedStep(s, events[0]);
      ClosedAcceptsNoMore(Step(s, events[0]), events[1..]);
    }
  }

  ghost predicate WorkersGone<Job>(s: State<Job>) {
    forall j :: 0 <= j < |s.workers| ==> s.workers[j].Exited?
  }

  /** Once the workers are gone, whatever is queued stays queued for ever. */
  lemma {:induction false} LeftoversStay<Job>(s: State<Job>, events: seq<Event<Job>>)
    requires WorkersGone(s)
    ensures WorkersGone(Run(s, events)) && s.queue <= Run(s, events).queue
    decreases |events|
  {
    if events == [] {
    } else {
      LeftoversStay(Step(s, events[0]), events[1..]);
    }
  }

  /** So a Drain that starts after Close can return exactly when nothing was left in the
      queue and no call is half way: with a leftover, `pending` never reaches zero. */
  lemma {:induction false} DrainAfterClose<Job>(s: State<Job>, events: seq<Event<Job>>)
    requires Balanced(s) && WorkersGone(s)
    ensures s.pending == 0 <==> s.queue == [] && Tally(s.callers, Hesitating()) == 0
    ensures s.queue != [] ==> Run(s, events).pending > 0
  {
    LeftoversStay(s, events);
    RunKeepsBalance(s, events);
    NothingInHand(s.workers);
    TallyZero(s.workers, Closing());
  }
}
