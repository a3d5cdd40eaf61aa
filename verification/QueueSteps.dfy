/** The event-loop version of the queue, one function per stretch of code that
    runs without interruption: what `flush`, the suspended `drain`, the retry
    timer, `takeAll`, `restore`, `stop` and `pause` do to the queue's fields. */
module QueueSteps {
  import opened Utf8
  import opened Json
  import opened Chunker
  import opened Packing
  import opened History
  import opened Delivery
  import opened KeyHistory
  import opened Overflow

  datatype Options = Options(config: Config, autoFlush: bool, errorFlushThreshold: int)

  /** What was waiting when `flush` was called, and the promise it returned. */
  datatype Call = Call(promise: nat, items: seq<Item>, chunks: seq<Chunk>, mark: nat)

  datatype FlushResult = FlushResult(accepted: nat, deliveredItems: nat, retrying: nat, dropped: nat)

  datatype Queue = Queue(
    core: State,
    pendingBytes: int,
    overflow: Counts,
    delivered: nat,
    draining: bool,
    running: Option<nat>,     // the promise stored in `running`
    promises: nat,            // promises made so far; the latest belongs to the latest drain
    rerun: bool,
    forceNext: bool,
    drainBytes: int,          // byte limit of the latest drain
    result: FlushResult,      // of the latest drain
    timer: Option<int>,       // time for which the retry timer is armed
    stopped: bool,
    paused: bool,
    // History
    calls: seq<Call>,
    reported: nat,            // overflowed items reported so far
    gap: bool,                // waiting chunks may be without a timer
    since: State)             // when the latest drain started

  const EMPTY_QUEUE: Queue :=
    Queue(INIT, 0, Counts(0, 0, 0), 0, false, None, 0, false, false, 0, FlushResult(0, 0, 0, 0), None, false, false, [], 0, false, INIT)

  /** Readings that a stretch of code takes from its surroundings. */
  datatype Reading = Reading(now: int, env: Envelope)

  /** The batch id has never been used. */
  ghost predicate FreshBatch(keys: set<Text>, batchId: Text) { forall i: nat :: IdempotencyKey(batchId, i) !in keys }

  ghost predicate Timely(q: Queue, r: Reading)
  {
    q.core.clock <= r.now && (q.core.pending.Count() > 0 ==> FreshBatch(q.core.keys, r.env.batchId))
  }

  function CutOf(q: Queue, maxBytes: int, r: Reading, o: Options): seq<Chunk>
  {
    Cut(q.core.pending, r.env, Limits(maxBytes, o.config.limits.maxItems))
  }

  function Tally(c: Counts): nat { c.errors + c.traces + c.events }

  function Dropping(c: Counts, d: Counts): Counts { Counts(c.errors + d.errors, c.traces + d.traces, c.events + d.events) }

  // ---------------------------------------------------------------------
  // flush and drain
  // ---------------------------------------------------------------------

  /** The head of the drain loop: report the overflow, collect due retries and
      cut what is pending. */
  function StartPass(q: Queue, r: Reading, o: Options): Queue
  {
    q.(rerun := false, forceNext := false,
       reported := q.reported + Tally(q.overflow), overflow := Counts(0, 0, 0), pendingBytes := 0,
       core := BeginStep(q.core, q.forceNext, CutOf(q, q.drainBytes, r, o), r.now).(clock := r.now))
  }

  function Earliest(chunks: seq<Chunk>): (t: int)
    requires chunks != []
    ensures forall c | c in chunks :: t <= c.nextAttemptAt
    ensures exists c :: c in chunks && t == c.nextAttemptAt
  {
    var last := chunks[|chunks|-1];
    assert last in chunks;
    if |chunks| == 1 then last.nextAttemptAt
    else
      assert chunks == chunks[..|chunks|-1] + [last];
      Min(Earliest(chunks[..|chunks|-1]), last.nextAttemptAt)
  }

  function ScheduleRetry(q: Queue): Queue
  {
    if q.stopped || q.core.retry == [] then q
    else
      var next := Earliest(q.core.retry);
      if q.timer.Some? && q.timer.value <= next then q else q.(timer := Some(next))
  }

  /** The drain loop is left. */
  function Finish(q: Queue): Queue
  {
    ScheduleRetry(q.(draining := false, gap := q.gap && q.stopped))
  }

  /** The drain runs on until it has sent a chunk or is finished. */
  function SendNext(q: Queue, r: Reading, o: Options): Queue
  {
    if q.core.work != [] then q.(core := LaunchStep(q.core, r.now).(clock := r.now)) else Finish(q)
  }

  /** A drain begins. */
  function Entered(q: Queue, maxBytes: Option<int>, o: Options): Queue
  {
    var bytes := if maxBytes.Some? then maxBytes.value else o.config.limits.maxBytes;
    q.(draining := true, drainBytes := bytes, result := FlushResult(0, 0, 0, 0), since := q.core)
  }

  function StartDrain(q: Queue, maxBytes: Option<int>, r: Reading, o: Options): Queue
  {
    SendNext(StartPass(Entered(q, maxBytes, o), r, o), r, o)
  }

  /** The chunks that a flush would send again. */
  function Owed(q: Queue, force: bool, now: int): seq<Chunk> { Due(q.core.retry, force, now) }

  function Recorded(q: Queue, promise: nat, force: bool, now: int): Queue
  {
    q.(calls := q.calls + [Call(promise, q.core.pending.Flat(), Owed(q, force, now), |q.core.log|)],
       core := q.core.(clock := now))
  }

  /** A flush that is going to start a drain. */
  function Flushing(q: Queue, force: bool, now: int): Queue
  {
    Recorded(q, q.promises, force, now).(forceNext := force, promises := q.promises + 1)
  }

  function Flush(q: Queue, force: bool, maxBytes: Option<int>, r: Reading, o: Options): Queue
  {
    if q.paused then q
    else if q.draining && q.running.Some? then
      Recorded(q, q.running.value, force, r.now).(rerun := true, forceNext := q.forceNext || force)
    else
      StartDrain(Flushing(q, force, r.now), maxBytes, r, o).(running := Some(q.promises))
  }

  /** What `flush` returns: a result at once while paused, a promise otherwise. */
  function FlushPromise(q: Queue): Option<nat>
  {
    if q.paused then None
    else if q.draining && q.running.Some? then q.running
    else Some(q.promises)
  }

  /** The reply to the chunk in flight: the rest of `sendOne`. */
  function Answered(q: Queue, reply: Reply, delay: int, now: int, o: Options): Queue
    requires Aloft(q.core)
  {
    AnsweredTo(q, AnswerStep(q.core, reply, delay, now, o.config).(clock := now), reply, o)
  }

  /** The counters when a reply takes the machine to `core`. */
  function AnsweredTo(q: Queue, core: State, reply: Reply, o: Options): Queue
    requires Aloft(q.core)
  {
    var n, evictions := Tally(q.core.work[0].counts), |core.evicted| - |q.core.evicted|;
    q.(core := core, delivered := if reply.Ok? then q.delivered + n else q.delivered,
       result :=
         if reply.Ok? then q.result.(accepted := q.result.accepted + 1, deliveredItems := q.result.deliveredItems + n)
         else if Retried(q.core, reply, o.config) then
           q.result.(retrying := q.result.retrying + 1, dropped := q.result.dropped + Max(0, evictions))
         else q.result.(dropped := q.result.dropped + 1))
  }

  /** The drain resumes after `sendOne`. */
  function Continue(q: Queue, r: Reading, o: Options): Queue
  {
    if q.core.work == [] && q.rerun then SendNext(StartPass(q, r, o), r, o) else SendNext(q.(core := q.core.(clock := r.now)), r, o)
  }

  /** The `finally` callback of a finished promise. */
  function Settle(q: Queue, promise: nat): Queue { if q.running == Some(promise) then q.(running := None) else q }

  // ---------------------------------------------------------------------
  // The other entry points
  // ---------------------------------------------------------------------

  function MustFlush(q: Queue, o: Options): bool
  {
    o.autoFlush && !q.stopped &&
    (q.core.pending.Count() >= o.config.limits.maxItems || q.pendingBytes >= o.config.limits.maxBytes ||
     |q.core.pending.errors| >= o.errorFlushThreshold)
  }

  function Stored(q: Queue, item: Item, now: int, o: Options): Queue
  {
    var g := Push(q.core.pending, item);
    q.(core := AcceptStep(q.core, item, o.config).(clock := now),
       pendingBytes := q.pendingBytes + item.bytes - SumBytes(Dropped(g, o.config.maxQueueItems)),
       overflow := Dropping(q.overflow, DropCounts(g, o.config.maxQueueItems)))
  }

  function Enqueue(q: Queue, item: Item, r: Reading, o: Options): Queue
  {
    var s := Stored(q, item, r.now, o);
    if MustFlush(s, o) then Flush(s, false, None, r, o) else s
  }

  function TimerFires(q: Queue, r: Reading, o: Options): Queue
  {
    Flush(q.(timer := None, gap := q.gap || q.paused), false, None, r, o)
  }

  function Start(q: Queue): Queue { q.(stopped := false) }

  function Stop(q: Queue): Queue { q.(stopped := true, timer := None, gap := true) }

  function Pause(q: Queue): Queue { q.(paused := true) }

  function Resume(q: Queue, r: Reading, o: Options): Queue { Flush(q.(paused := false), true, None, r, o) }

  function TakeEverything(q: Queue, maxBytes: int, r: Reading, o: Options): Queue
  {
    q.(core := TakeAllStep(q.core, CutOf(q, maxBytes, r, o)).(clock := r.now), pendingBytes := 0, timer := None)
  }

  /** What `takeAll` hands out. */
  function TakenChunks(q: Queue, maxBytes: int, r: Reading, o: Options): seq<Chunk>
  {
    q.core.retry + CutOf(q, maxBytes, r, o)
  }

  function Restored(q: Queue, items: Groups<Item>, chunks: seq<Chunk>, now: int, o: Options): Queue
  {
    var g := Merged(items, q.core.pending);
    q.(core := RestoreStep(q.core, items, chunks, o.config).(clock := now),
       pendingBytes := q.pendingBytes + PendingBytes(items) - SumBytes(Dropped(g, o.config.maxQueueItems)),
       overflow := Dropping(q.overflow, DropCounts(g, o.config.maxQueueItems)), gap := q.gap || chunks != [])
  }

  // ---------------------------------------------------------------------
  // Runs
  // ---------------------------------------------------------------------

  datatype Event =
    | Enqueues(item: Item)
    | Flushes(force: bool, maxBytes: Option<int>)
    | Answers(reply: Reply, jitter: real)
    | Continues
    | Settles(promise: nat)
    | Fires
    | Starts
    | Stops
    | Pauses
    | Resumes
    | Takes(limit: int)
    | Restores(items: Groups<Item>, chunks: seq<Chunk>)

  /** When an event can happen. */
  ghost predicate Possible(q: Queue, e: Event, r: Reading, o: Options)
  {
    Timely(q, r) &&
    match e
    case Answers(reply, jitter) => q.draining && Enabled(q.core, Answer(reply, jitter), r.now, o.config)
    case Continues => q.draining && !q.core.flying
    case Settles(p) => p < q.promises && !(q.draining && p == q.promises - 1)
    case Fires => q.timer.Some? && q.timer.value <= r.now
    case Restores(items, chunks) => Enabled(q.core, Step.Restore(items, chunks), r.now, o.config)
    case Enqueues(item) => FreshBatch(q.core.keys, r.env.batchId)
    case _ => true
  }

  function Next(q: Queue, e: Event, r: Reading, o: Options): Queue
    requires e.Answers? ==> Aloft(q.core)
  {
    match e
    case Enqueues(item) => Enqueue(q, item, r, o)
    case Flushes(force, maxBytes) => Flush(q, force, maxBytes, r, o)
    case Answers(reply, jitter) => Answered(q, reply, DelayOf(q.core.work[0], reply, jitter, o.config.policy), r.now, o)
    case Continues => Continue(q, r, o)
    case Settles(p) => Settle(q, p)
    case Fires => TimerFires(q, r, o)
    case Starts => Start(q)
    case Stops => Stop(q)
    case Pauses => Pause(q)
    case Resumes => Resume(q, r, o)
    case Takes(maxBytes) => TakeEverything(q, maxBytes, r, o)
    case Restores(items, chunks) => Restored(q, items, chunks, r.now, o)
  }

  datatype Happening = Happening(event: Event, reading: Reading)

  ghost function Run(run: seq<Happening>, o: Options): Option<Queue>
  {
    if run == [] then Some(EMPTY_QUEUE)
    else
      match Run(run[..|run|-1], o)
      case None => None
      case Some(q) =>
        var h := run[|run|-1];
        if Possible(q, h.event, h.reading, o) then Some(Next(q, h.event, h.reading, o)) else None
  }
}
