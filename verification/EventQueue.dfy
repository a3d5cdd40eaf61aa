/** The delivery queue as the event-loop code keeps it: fields that its methods
    update in place, and the locals of the suspended drain. `model` is the state
    of `QueueSteps.Queue` that the fields stand for; every method takes it where
    the corresponding function says. */
module EventQueue {
  import opened Json
  import opened Chunker
  import opened Packing
  import opened History
  import opened Delivery
  import opened KeyHistory
  import opened Overflow
  import opened QueueSteps
  import opened Truncation
  import opened ShutdownLaws
  import opened Snapshots
  import Counters
  import Normalize

  /** What the queue keeps in its fields, and what of a state they stand for. */
  datatype Fields = Fields(
    pending: Groups<Item>,
    pendingBytes: int,
    retry: seq<Chunk>,
    overflow: Counts,
    delivered: nat,
    running: Option<nat>,
    promises: nat,
    draining: bool,
    rerun: bool,
    forceNext: bool,
    timer: Option<int>,
    stopped: bool,
    paused: bool,
    drainBytes: int,
    result: FlushResult,
    work: seq<Chunk>,
    flying: bool)

  function FieldsOf(q: Queue): Fields
  {
    Fields(q.core.pending, q.pendingBytes, q.core.retry, q.overflow, q.delivered, q.running, q.promises, q.draining, q.rerun,
           q.forceNext, q.timer, q.stopped, q.paused, q.drainBytes, q.result, q.core.work, q.core.flying)
  }

  /** What the outside answers to the n-th request: the reply, the random number
      for the wait, how long it took, and what the next cut reads. */
  datatype World = World(reply: nat -> Reply, jitter: nat -> real, latency: nat -> nat, env: nat -> Envelope)

  datatype ShutdownResult = ShutdownResult(deliveredItems: int, undeliveredItems: nat)

  /** The fields once the bound is enforced. */
  function Bounded(f: Fields, max: int): Fields
  {
    f.(pending := Kept(f.pending, max), overflow := Dropping(f.overflow, DropCounts(f.pending, max)),
       pendingBytes := f.pendingBytes - SumBytes(Dropped(f.pending, max)))
  }

  function CountOf(kind: Kind, n: nat): Counts
  {
    match kind
    case Errors => Counts(n, 0, 0)
    case Traces => Counts(0, n, 0)
    case Events => Counts(0, 0, n)
  }

  lemma TakeMore(list: seq<Item>, n: nat)
    requires n < |list|
    ensures SumBytes(list[..n + 1]) == SumBytes(list[..n]) + list[n].bytes && list[n..][1..] == list[n + 1..]
  {
    assert list[..n + 1][..n] == list[..n];
  }

  lemma NothingToCut(g: Groups<Item>, env: Envelope, limits: Limits)
    requires g.Count() == 0
    ensures Cut(g, env, limits) == [] && g == EMPTY
  {
  }

  lemma NoBytes(g: Groups<Item>)
    requires g.Count() == 0
    ensures PendingBytes(g) == 0 && g == EMPTY && WellKinded(g)
  {
  }

  /** What the head of the drain loop leaves in the fields. */
  lemma PassFields(q: Queue, r: Reading, o: Options)
    ensures FieldsOf(StartPass(q, r, o)) ==
            FieldsOf(q).(pending := EMPTY, pendingBytes := 0, overflow := Counts(0, 0, 0), rerun := false, forceNext := false,
                         retry := NotDue(q.core.retry, q.forceNext, r.now),
                         work := Due(q.core.retry, q.forceNext, r.now) + CutOf(q, q.drainBytes, r, o))
  {
  }

  lemma FlushJoins(q: Queue, force: bool, r: Reading, o: Options)
    requires !q.paused && q.draining && q.running.Some?
    ensures FieldsOf(QueueSteps.Flush(q, force, None, r, o)) == FieldsOf(q).(rerun := true, forceNext := q.forceNext || force)
  {
  }

  /** The byte limit of a flush that joins a drain is ignored. */
  lemma FlushJoinsAny(q: Queue, force: bool, maxBytes: Option<int>, r: Reading, o: Options)
    requires !q.paused && q.draining && q.running.Some?
    ensures QueueSteps.Flush(q, force, maxBytes, r, o) == QueueSteps.Flush(q, force, None, r, o)
  {
  }

  lemma AnswerCore(c: State, reply: Reply, delay: int, now: int, cfg: Config)
    requires Aloft(c)
    ensures var t, all := AnswerStep(c, reply, delay, now, cfg), c.retry + [c.work[0].(nextAttemptAt := now + delay)];
            && t.pending == c.pending && t.work == c.work[1..] && !t.flying
            && t.retry == (if Retried(c, reply, cfg) then all[Excess(all)..] else c.retry)
            && (Retried(c, reply, cfg) ==> |t.evicted| - |c.evicted| == Excess(all))
  {
  }

  /** The fields once a reply to `c` is recorded. */
  function Concluded(f: Fields, c: Chunk, reply: Reply, delay: int, now: int, cfg: Config): Fields
  {
    if reply.Ok? then
      f.(delivered := f.delivered + Tally(c.counts),
         result := f.result.(accepted := f.result.accepted + 1, deliveredItems := f.result.deliveredItems + Tally(c.counts)))
    else if IsPermanent(reply) || c.attempts >= cfg.policy.maxAttempts then
      f.(result := f.result.(dropped := f.result.dropped + 1))
    else KeptForRetry(f, c.(nextAttemptAt := now + delay))
  }

  function KeptForRetry(f: Fields, c: Chunk): Fields
  {
    var all := f.retry + [c];
    f.(retry := all[Excess(all)..],
       result := f.result.(retrying := f.result.retrying + 1, dropped := f.result.dropped + Excess(all)))
  }

  lemma AnsweredFields(q: Queue, reply: Reply, delay: int, now: int, o: Options)
    requires Aloft(q.core)
    ensures FieldsOf(Answered(q, reply, delay, now, o)) ==
            Concluded(FieldsOf(q).(work := q.core.work[1..], flying := false), q.core.work[0], reply, delay, now, o.config)
  {
    AnswerCore(q.core, reply, delay, now, o.config);
    AnsweredToFields(q, AnswerStep(q.core, reply, delay, now, o.config).(clock := now), reply, delay, now, o);
  }

  lemma AnsweredToFields(q: Queue, t: State, reply: Reply, delay: int, now: int, o: Options)
    requires Aloft(q.core) && t.pending == q.core.pending && t.work == q.core.work[1..] && !t.flying
    requires var all := q.core.retry + [q.core.work[0].(nextAttemptAt := now + delay)];
             && t.retry == (if Retried(q.core, reply, o.config) then all[Excess(all)..] else q.core.retry)
             && (Retried(q.core, reply, o.config) ==> |t.evicted| - |q.core.evicted| == Excess(all))
    ensures FieldsOf(AnsweredTo(q, t, reply, o)) ==
            Concluded(FieldsOf(q).(work := q.core.work[1..], flying := false), q.core.work[0], reply, delay, now, o.config)
  {
  }

  lemma SendFields(q: Queue, r: Reading, o: Options)
    ensures FieldsOf(SendNext(q, r, o)) ==
            if q.core.work != [] then
              FieldsOf(q).(work := [q.core.work[0].(attempts := q.core.work[0].attempts + 1)] + q.core.work[1..], flying := true)
            else FieldsOf(q).(draining := false, timer := Scheduled(q.timer, q.stopped, q.core.retry))
  {
  }

  /** For when the retry timer is armed after `scheduleRetry`. */
  function Scheduled(timer: Option<int>, stopped: bool, retry: seq<Chunk>): Option<int>
  {
    if stopped || retry == [] || (timer.Some? && timer.value <= Earliest(retry)) then timer else Some(Earliest(retry))
  }

  lemma TakeFields(q: Queue, maxBytes: int, r: Reading, o: Options)
    ensures FieldsOf(TakeEverything(q, maxBytes, r, o)) ==
            FieldsOf(q).(pending := EMPTY, pendingBytes := 0, retry := [], timer := None)
  {
  }

  lemma StoredFields(q: Queue, item: Item, now: int, o: Options)
    ensures FieldsOf(Stored(q, item, now, o)) ==
            Bounded(FieldsOf(q).(pending := Push(q.core.pending, item), pendingBytes := q.pendingBytes + item.bytes),
                    o.config.maxQueueItems)
  {
  }

  lemma StoredBytes(g: Groups<Item>, item: Item, max: int)
    ensures PendingBytes(Kept(Push(g, item), max)) == PendingBytes(g) + item.bytes - SumBytes(Dropped(Push(g, item), max))
  {
    Counters.PushBytes(g, item);
    OverflowBytes(Push(g, item), max);
  }

  lemma StoredKinds(g: Groups<Item>, item: Item, max: int)
    requires WellKinded(g)
    ensures WellKinded(Kept(Push(g, item), max))
  {
    KeptWellKinded(Push(g, item), max);
  }

  /** The fields once a snapshot is merged in and the bound enforced. */
  function RestoredInto(f: Fields, s: Snapshot, now: int, max: int): Fields
  {
    var items := ReviveAll(s.pending);
    Bounded(f.(pending := Merged(items, f.pending), pendingBytes := f.pendingBytes + PendingBytes(items),
               retry := f.retry + ReviveChunks(s.retry, now)), max)
  }

  lemma RestoredFields(q: Queue, s: Snapshot, now: int, o: Options)
    requires s.version == VERSION
    ensures FieldsOf(RestoredFrom(q, Some(s), now, o)) == RestoredInto(FieldsOf(q), s, now, o.config.maxQueueItems)
  {
  }

  lemma RestoredValid(f: Fields, s: Snapshot, now: int, max: int)
    requires WellKinded(f.pending) && f.pendingBytes == PendingBytes(f.pending)
    ensures var g := RestoredInto(f, s, now, max); WellKinded(g.pending) && g.pendingBytes == PendingBytes(g.pending)
  {
    MergedKept(ReviveAll(s.pending), f.pending, max);
    RestoredKinds(ReviveAll(s.pending), f.pending, max);
  }

  lemma RestoredKinds(items: Groups<Item>, pending: Groups<Item>, max: int)
    requires WellKinded(items) && WellKinded(pending)
    ensures WellKinded(Kept(Merged(items, pending), max))
  {
    KeptWellKinded(Merged(items, pending), max);
  }

  lemma FlushStarts(q: Queue, force: bool, maxBytes: Option<int>, r: Reading, o: Options)
    requires !q.paused && !(q.draining && q.running.Some?)
    ensures QueueSteps.Flush(q, force, maxBytes, r, o) ==
            StartDrain(Flushing(q, force, r.now), maxBytes, r, o).(running := Some(q.promises))
  {
  }

  lemma Shifted(g: Groups<Item>, kind: Kind, n: nat)
    requires n <= |g.Of(kind)|
    ensures g.With(kind, g.Of(kind)[0..]) == g
    ensures g.With(kind, g.Of(kind)[n..]).Of(kind) == g.Of(kind)[n..]
    ensures n < |g.Of(kind)| ==>
              g.With(kind, g.Of(kind)[n..]).With(kind, g.Of(kind)[n..][1..]) == g.With(kind, g.Of(kind)[n + 1..])
  {
    if n < |g.Of(kind)| { assert g.Of(kind)[n..][1..] == g.Of(kind)[n + 1..]; }
  }

  lemma MoreDropped(c: Counts, kind: Kind, n: nat)
    ensures Dropping(Dropping(c, CountOf(kind, n)), CountOf(kind, 1)) == Dropping(c, CountOf(kind, n + 1))
  {
  }

  lemma DropNone(g: Groups<Item>, max: int)
    requires g.Count() <= max
    ensures Kept(g, max) == g && SumBytes(Dropped(g, max)) == 0 && DropCounts(g, max) == Counts(0, 0, 0)
  {
    assert |Dropped(g, max)| == 0;
  }

  lemma DropAll(o: Counts, c: Counts)
    ensures Dropping(Dropping(Dropping(o, CountOf(Events, c.events)), CountOf(Traces, c.traces)), CountOf(Errors, c.errors))
            == Dropping(o, c)
    ensures Dropping(o, Counts(0, 0, 0)) == o
  {
  }

  lemma SumOfDropped(g: Groups<Item>, max: int)
    ensures var c := DropCounts(g, max);
            SumBytes(Dropped(g, max)) ==
            SumBytes(g.events[..c.events]) + SumBytes(g.traces[..c.traces]) + SumBytes(g.errors[..c.errors])
  {
    var c := DropCounts(g, max);
    SumBytesAppend(g.events[..c.events] + g.traces[..c.traces], g.errors[..c.errors]);
    SumBytesAppend(g.events[..c.events], g.traces[..c.traces]);
  }

  /** `Math.min` over the retry times. */
  method FirstDue(chunks: seq<Chunk>) returns (next: int)
    requires chunks != []
    ensures next == Earliest(chunks)
  {
    var i := 1;
    next := chunks[0].nextAttemptAt;
    assert chunks[..1] == [chunks[0]];
    while i < |chunks|
      invariant 1 <= i <= |chunks| && next == Earliest(chunks[..i])
    {
      assert chunks[..i + 1][..i] == chunks[..i];
      next := Min(next, chunks[i].nextAttemptAt);
      i := i + 1;
    }
    assert chunks[..i] == chunks;
  }

  method BytesOf(items: seq<Item>) returns (bytes: int)
    ensures bytes == SumBytes(items)
  {
    bytes := 0;
    var i := 0;
    while i < |items|
      invariant i <= |items| && bytes == SumBytes(items[..i])
    {
      assert items[..i + 1][..i] == items[..i];
      bytes := bytes + items[i].bytes;
      i := i + 1;
    }
    assert items[..i] == items;
  }

  class DeliveryQueue {
    const opts: Options

    var pending: Groups<Item>
    var pendingBytes: int
    var retry: seq<Chunk>
    var overflow: Counts
    var delivered: nat
    var running: Option<nat>
    var promises: nat
    var draining: bool
    var rerun: bool
    var forceNext: bool
    var timer: Option<int>
    var stopped: bool
    var paused: bool

    // Locals of the drain
    var drainBytes: int
    var result: FlushResult
    var work: seq<Chunk>
    var flying: bool

    ghost var model: Queue

    /** The fields, together. */
    ghost function View(): Fields
      reads this
    {
      Fields(pending, pendingBytes, retry, overflow, delivered, running, promises, draining, rerun, forceNext, timer,
             stopped, paused, drainBytes, result, work, flying)
    }

    ghost predicate Valid()
      reads this
    {
      View() == FieldsOf(model) && WellKinded(pending) && pendingBytes == PendingBytes(pending)
    }

    constructor (opts: Options)
      ensures Valid() && model == EMPTY_QUEUE && this.opts == opts
    {
      this.opts := opts;
      pending, pendingBytes, retry, overflow, delivered := Groups([], [], []), 0, [], Counts(0, 0, 0), 0;
      running, promises, draining, rerun, forceNext := None, 0, false, false, false;
      timer, stopped, paused := None, false, false;
      drainBytes, result, work, flying := 0, FlushResult(0, 0, 0, 0), [], false;
      model := EMPTY_QUEUE;
    }

    // -------------------------------------------------------------------
    // Bound
    // -------------------------------------------------------------------

    /** The inner loop of `enforceBound`: shift items of a kind off. */
    method Shed(kind: Kind, excess: int) returns (left: int)
      modifies this`pending, this`pendingBytes, this`overflow
      ensures var list := old(pending).Of(kind);
              var n := Clamp(excess, 0, |list|);
              && pending == old(pending).With(kind, list[n..])
              && pendingBytes == old(pendingBytes) - SumBytes(list[..n])
              && overflow == Dropping(old(overflow), CountOf(kind, n))
              && left == excess - n
    {
      left := excess;
      ghost var start, bytes, counts := pending, pendingBytes, overflow;
      ghost var list, n, gone := pending.Of(kind), 0, 0;
      Shifted(start, kind, 0);
      while left > 0 && pending.Of(kind) != []
        invariant 0 <= n <= |list| && left == excess - n && (n == 0 || left >= 0)
        invariant pending == start.With(kind, list[n..]) && pending.Of(kind) == list[n..]
        invariant pendingBytes == bytes - gone && gone == SumBytes(list[..n])
        invariant overflow == Dropping(counts, CountOf(kind, n))
        decreases |list| - n
      {
        TakeMore(list, n);
        Shifted(start, kind, n);
        MoreDropped(counts, kind, n);
        var dropped := pending.Of(kind)[0];
        pending := pending.With(kind, pending.Of(kind)[1..]);
        pendingBytes := pendingBytes - dropped.bytes;
        overflow := Dropping(overflow, CountOf(kind, 1));
        left, n, gone := left - 1, n + 1, gone + dropped.bytes;
      }
    }

    method EnforceBound()
      modifies this`pending, this`pendingBytes, this`overflow
      ensures View() == Bounded(old(View()), opts.config.maxQueueItems)
    {
      ghost var g, max := pending, opts.config.maxQueueItems;
      var excess := pending.Count() - opts.config.maxQueueItems;
      if excess <= 0 {
        DropNone(g, max);
        DropAll(overflow, Counts(0, 0, 0));
        return;
      }
      ghost var c := DropCounts(g, max);
      excess := ShedAll(excess);
      SumOfDropped(g, max);
      DropAll(old(overflow), c);
    }

    method ShedAll(excess: int) returns (left: int)
      requires excess == pending.Count() - opts.config.maxQueueItems > 0
      modifies this`pending, this`pendingBytes, this`overflow
      ensures var g, c := old(pending), DropCounts(old(pending), opts.config.maxQueueItems);
              && pending == Groups(g.errors[c.errors..], g.traces[c.traces..], g.events[c.events..])
              && pendingBytes == old(pendingBytes) - (SumBytes(g.events[..c.events]) + SumBytes(g.traces[..c.traces])
                                                      + SumBytes(g.errors[..c.errors]))
              && overflow == Dropping(Dropping(Dropping(old(overflow), CountOf(Events, c.events)), CountOf(Traces, c.traces)),
                                      CountOf(Errors, c.errors))
    {
      ghost var g, c := pending, DropCounts(pending, opts.config.maxQueueItems);
      left := Shed(Events, excess);
      assert pending == Groups(g.errors, g.traces, g.events[c.events..]);
      left := Shed(Traces, left);
      assert pending == Groups(g.errors, g.traces[c.traces..], g.events[c.events..]);
      left := Shed(Errors, left);
    }

    // -------------------------------------------------------------------
    // The drain
    // -------------------------------------------------------------------

    /** Take the chunks that are due out of the retry list. */
    method TakeDue(force: bool, now: int) returns (due: seq<Chunk>)
      modifies this`retry
      ensures due == Due(old(retry), force, now) && retry == NotDue(old(retry), force, now)
    {
      due := [];
      var i, rest := 0, [];
      while i < |retry|
        invariant i <= |retry| && retry == old(retry)
        invariant due == Due(retry[..i], force, now) && rest == NotDue(retry[..i], force, now)
      {
        var c := retry[i];
        assert retry[..i + 1][..i] == retry[..i];
        if force || c.nextAttemptAt <= now { due := due + [c]; } else { rest := rest + [c]; }
        i := i + 1;
      }
      assert retry[..i] == retry;
      retry := rest;
    }

    /** Move every pending item into chunks. */
    method CutPending(maxBytes: int, r: Reading) returns (chunks: seq<Chunk>)
      requires WellKinded(pending) && pendingBytes == PendingBytes(pending)
      modifies this`pending, this`pendingBytes
      ensures chunks == Cut(old(pending), r.env, Limits(maxBytes, opts.config.limits.maxItems))
      ensures pending == EMPTY && pendingBytes == 0
    {
      if pending.Count() == 0 {
        NothingToCut(pending, r.env, Limits(maxBytes, opts.config.limits.maxItems));
        NoBytes(pending);
        return [];
      }
      var groups := pending;
      pending, pendingBytes := Groups([], [], []), 0;
      chunks := BuildChunks(groups, r.env, Limits(maxBytes, opts.config.limits.maxItems));
    }

    /** The head of the drain loop: collect due retries and cut what is pending. */
    method Collect(r: Reading)
      requires WellKinded(pending) && pendingBytes == PendingBytes(pending)
      modifies this`rerun, this`forceNext, this`overflow, this`retry, this`pending, this`pendingBytes, this`work
      ensures var f := old(View());
              View() == f.(pending := EMPTY, pendingBytes := 0, overflow := Counts(0, 0, 0), rerun := false, forceNext := false,
                           retry := NotDue(f.retry, f.forceNext, r.now),
                           work := Due(f.retry, f.forceNext, r.now)
                                   + Cut(f.pending, r.env, Limits(f.drainBytes, opts.config.limits.maxItems)))
    {
      ReportOverflow();
      var due := CollectDue(r.now);
      var cut := CutPending(drainBytes, r);
      work := due + cut;
    }

    method CollectDue(now: int) returns (due: seq<Chunk>)
      modifies this`rerun, this`forceNext, this`retry
      ensures var f := old(View());
              && due == Due(f.retry, f.forceNext, now)
              && View() == f.(rerun := false, forceNext := false, retry := NotDue(f.retry, f.forceNext, now))
    {
      rerun := false;
      var force := forceNext;
      forceNext := false;
      due := TakeDue(force, now);
    }

    /** The report goes to `onDiagnostic`. */
    method ReportOverflow()
      modifies this`overflow
      ensures View() == old(View()).(overflow := Counts(0, 0, 0))
    {
      overflow := Counts(0, 0, 0);
    }

    method Pass(r: Reading)
      requires Valid()
      modifies this
      ensures Valid() && model == StartPass(old(model), r, opts)
    {
      PassFields(model, r, opts);
      Collect(r);
      NoBytes(pending);
      model := StartPass(model, r, opts);
    }

    method ScheduleRetryTimer()
      modifies this`timer
      ensures timer == Scheduled(old(timer), stopped, retry)
    {
      if stopped || retry == [] { return; }
      var next := FirstDue(retry);
      if timer.Some? && timer.value <= next { return; }
      timer := Some(next);
    }

    method SendOrLeave() returns (sent: Option<Chunk>)
      modifies this`work, this`flying, this`draining, this`timer
      ensures var f := old(View());
              View() ==
              if f.work != [] then
                f.(work := [f.work[0].(attempts := f.work[0].attempts + 1)] + f.work[1..], flying := true)
              else f.(draining := false, timer := Scheduled(f.timer, f.stopped, f.retry))
      ensures sent == if old(work) == [] then None else Some(work[0])
    {
      if work == [] {
        draining := false;
        ScheduleRetryTimer();
        return None;
      }
      var c := work[0].(attempts := work[0].attempts + 1);
      work, flying := [c] + work[1..], true;
      return Some(c);
    }

    /** Run on until a chunk is handed to the sender, or leave the drain loop. */
    method SendNextChunk(r: Reading) returns (sent: Option<Chunk>)
      requires Valid()
      modifies this
      ensures Valid() && model == SendNext(old(model), r, opts)
      ensures sent == if old(work) == [] then None else Some(work[0])
    {
      SendFields(model, r, opts);
      sent := SendOrLeave();
      model := SendNext(model, r, opts);
    }

    method Enter(maxBytes: Option<int>)
      requires Valid()
      modifies this`draining, this`result, this`drainBytes, this`model
      ensures Valid() && model == Entered(old(model), maxBytes, opts)
    {
      draining, result := true, FlushResult(0, 0, 0, 0);
      drainBytes := if maxBytes.Some? then maxBytes.value else opts.config.limits.maxBytes;
      model := Entered(model, maxBytes, opts);
    }

    /** `drain` up to its first `await`. */
    method Drain(maxBytes: Option<int>, r: Reading) returns (sent: Option<Chunk>)
      requires Valid()
      modifies this
      ensures Valid() && model == StartDrain(old(model), maxBytes, r, opts)
    {
      Enter(maxBytes);
      Pass(r);
      sent := SendNextChunk(r);
    }

    method Announce(force: bool, now: int)
      requires Valid()
      modifies this`forceNext, this`promises, this`model
      ensures Valid() && model == Flushing(old(model), force, now)
    {
      forceNext, promises := force, promises + 1;
      model := Flushing(model, force, now);
    }

    method Remember(run: nat)
      requires Valid()
      modifies this`running, this`model
      ensures Valid() && model == old(model).(running := Some(run))
    {
      running := Some(run);
      model := model.(running := Some(run));
    }

    /** A flush that starts a drain. */
    method FlushNow(force: bool, maxBytes: Option<int>, r: Reading) returns (run: nat)
      requires Valid()
      modifies this
      ensures Valid() && run == old(model).promises
      ensures model == StartDrain(Flushing(old(model), force, r.now), maxBytes, r, opts).(running := Some(run))
    {
      run := promises;
      Announce(force, r.now);
      var sent := Drain(maxBytes, r);
      Remember(run);
    }

    /** A flush that joins a running drain. */
    method JoinDrain(force: bool, r: Reading)
      requires Valid() && !paused && draining && running.Some?
      modifies this
      ensures Valid() && model == QueueSteps.Flush(old(model), force, None, r, opts)
    {
      rerun := true;
      if force { forceNext := true; }
      FlushJoins(model, force, r, opts);
      model := QueueSteps.Flush(model, force, None, r, opts);
    }

    method Flush(force: bool, maxBytes: Option<int>, r: Reading) returns (promise: Option<nat>)
      requires Valid()
      modifies this
      ensures Valid() && model == QueueSteps.Flush(old(model), force, maxBytes, r, opts) && promise == FlushPromise(old(model))
    {
      if paused { return None; }
      if draining && running.Some? {
        FlushJoinsAny(model, force, maxBytes, r, opts);
        promise := running;
        JoinDrain(force, r);
      } else {
        FlushStarts(model, force, maxBytes, r, opts);
        var run := FlushNow(force, maxBytes, r);
        promise := Some(run);
      }
    }

    // -------------------------------------------------------------------
    // Replies
    // -------------------------------------------------------------------

    /** A failed chunk goes to the end of the retry list, and the oldest go if
        there are too many. */
    method KeepForRetry(c: Chunk)
      modifies this`retry, this`result
      ensures View() == KeptForRetry(old(View()), c)
    {
      retry := retry + [c];
      result := result.(retrying := result.retrying + 1);
      ghost var all, n, start := retry, 0, result;
      while |retry| > MAX_RETRY_CHUNKS
        invariant 0 <= n <= Excess(all) && retry == all[n..] && result == start.(dropped := start.dropped + n)
        decreases |retry|
      {
        retry := retry[1..];
        result := result.(dropped := result.dropped + 1);
        n := n + 1;
      }
    }

    method Deliver(c: Chunk)
      modifies this`result, this`delivered
      ensures var f, n := old(View()), Tally(c.counts);
              View() == f.(delivered := f.delivered + n,
                           result := f.result.(accepted := f.result.accepted + 1, deliveredItems := f.result.deliveredItems + n))
    {
      var n := c.counts.errors + c.counts.traces + c.counts.events;
      result := result.(accepted := result.accepted + 1, deliveredItems := result.deliveredItems + n);
      delivered := delivered + n;
    }

    method Drop()
      modifies this`result
      ensures var f := old(View()); View() == f.(result := f.result.(dropped := f.result.dropped + 1))
    {
      result := result.(dropped := result.dropped + 1);
    }

    method Conclude(c: Chunk, reply: Reply, delay: int, now: int)
      modifies this`retry, this`result, this`delivered
      ensures View() == Concluded(old(View()), c, reply, delay, now, opts.config)
    {
      if reply.Ok? {
        Deliver(c);
      } else if reply.status.Some? && !IsRetryableStatus(reply.status.value) {
        Drop();
      } else if c.attempts >= opts.config.policy.maxAttempts {
        Drop();
      } else {
        KeepForRetry(c.(nextAttemptAt := now + delay));
      }
    }

    method Land()
      requires work != []
      modifies this`work, this`flying
      ensures View() == old(View()).(work := old(work)[1..], flying := false)
    {
      work, flying := work[1..], false;
    }

    /** The rest of `sendOne` once the sender has replied. */
    method OnReply(reply: Reply, jitter: real, now: int)
      requires Valid() && work != [] && work[0].attempts >= 1
      modifies this
      ensures Valid() && model == Answered(old(model), reply, DelayOf(old(work)[0], reply, jitter, opts.config.policy), now, opts)
    {
      var c := work[0];
      var delay := DelayOf(c, reply, jitter, opts.config.policy);
      AnsweredFields(model, reply, delay, now, opts);
      Land();
      Conclude(c, reply, delay, now);
      model := Answered(model, reply, delay, now, opts);
    }

    /** The drain loop goes on. */
    method Continue(r: Reading) returns (sent: Option<Chunk>)
      requires Valid()
      modifies this
      ensures Valid() && model == QueueSteps.Continue(old(model), r, opts)
    {
      if work == [] && rerun {
        Pass(r);
      } else {
        model := model.(core := model.core.(clock := r.now));
      }
      sent := SendNextChunk(r);
    }

    method Settle(promise: nat)
      requires Valid()
      modifies this`running, this`model
      ensures Valid() && model == QueueSteps.Settle(old(model), promise)
    {
      if running == Some(promise) { running := None; }
      model := QueueSteps.Settle(model, promise);
    }

    // -------------------------------------------------------------------
    // The other entry points
    // -------------------------------------------------------------------

    method OnTimer(r: Reading) returns (promise: Option<nat>)
      requires Valid()
      modifies this
      ensures Valid() && model == TimerFires(old(model), r, opts)
    {
      timer := None;
      model := model.(timer := None, gap := model.gap || model.paused);
      promise := Flush(false, None, r);
    }

    method Start()
      requires Valid()
      modifies this`stopped, this`model
      ensures Valid() && model == QueueSteps.Start(old(model))
    {
      stopped := false;
      model := QueueSteps.Start(model);
    }

    method Stop()
      requires Valid()
      modifies this`stopped, this`timer, this`model
      ensures Valid() && model == QueueSteps.Stop(old(model))
    {
      stopped, timer := true, None;
      model := QueueSteps.Stop(model);
    }

    method Pause()
      requires Valid()
      modifies this`paused, this`model
      ensures Valid() && model == QueueSteps.Pause(old(model))
    {
      paused := true;
      model := QueueSteps.Pause(model);
    }

    method Resume(r: Reading) returns (promise: Option<nat>)
      requires Valid()
      modifies this
      ensures Valid() && model == QueueSteps.Resume(old(model), r, opts)
    {
      paused := false;
      model := model.(paused := false);
      promise := Flush(true, None, r);
    }

    /** Hand out everything, for the page to send while it unloads. */
    method TakeAll(maxBytes: int, r: Reading) returns (chunks: seq<Chunk>)
      requires Valid()
      modifies this
      ensures Valid() && model == TakeEverything(old(model), maxBytes, r, opts) && chunks == TakenChunks(old(model), maxBytes, r, opts)
    {
      TakeFields(model, maxBytes, r, opts);
      chunks := HandOut(maxBytes, r);
      NoBytes(pending);
      model := TakeEverything(model, maxBytes, r, opts);
    }

    method HandOut(maxBytes: int, r: Reading) returns (chunks: seq<Chunk>)
      requires WellKinded(pending) && pendingBytes == PendingBytes(pending)
      modifies this`retry, this`timer, this`pending, this`pendingBytes
      ensures chunks == old(retry) + Cut(old(pending), r.env, Limits(maxBytes, opts.config.limits.maxItems))
      ensures View() == old(View()).(pending := EMPTY, pendingBytes := 0, retry := [], timer := None)
    {
      var retries := retry;
      retry, timer := [], None;
      var cut := CutPending(maxBytes, r);
      chunks := retries + cut;
    }

    // -------------------------------------------------------------------
    // Enqueue
    // -------------------------------------------------------------------

    method Store(item: Item, now: int)
      requires Valid()
      modifies this
      ensures Valid() && model == Stored(old(model), item, now, opts)
    {
      StoredFields(model, item, now, opts);
      StoredBytes(pending, item, opts.config.maxQueueItems);
      StoredKinds(pending, item, opts.config.maxQueueItems);
      Add(item);
      model := Stored(model, item, now, opts);
    }

    method Add(item: Item)
      modifies this`pending, this`pendingBytes, this`overflow
      ensures View() == Bounded(old(View()).(pending := Push(old(pending), item), pendingBytes := old(pendingBytes) + item.bytes),
                                opts.config.maxQueueItems)
    {
      pending := Push(pending, item);
      pendingBytes := pendingBytes + item.bytes;
      EnforceBound();
    }

    method EnqueuePrepared(item: Item, r: Reading)
      requires Valid()
      modifies this
      ensures Valid() && model == QueueSteps.Enqueue(old(model), item, r, opts)
    {
      Store(item, r.now);
      if opts.autoFlush && !stopped &&
        (pending.Count() >= opts.config.limits.maxItems || pendingBytes >= opts.config.limits.maxBytes ||
         |pending.errors| >= opts.errorFlushThreshold)
      {
        var _ := Flush(false, None, r);
      }
    }

    /** Fit and serialize a normalized item, then queue it. `id` numbers captures. */
    method EnqueueNormalized(id: nat, kind: Kind, item: seq<Field>, r: Reading) returns (fit: FitResult)
      requires Valid()
      modifies this
      ensures fit == Fit(item, opts.config.limits.maxBytes - EnvelopeOverhead(r.env.base, DEFAULT_SENT_AT))
      ensures Valid() && model == QueueSteps.Enqueue(old(model), Item(id, kind, fit.json, fit.bytes), r, opts)
    {
      var budget := opts.config.limits.maxBytes - EnvelopeOverhead(r.env.base, DEFAULT_SENT_AT);
      fit := FitItem(item, budget);
      EnqueuePrepared(Item(id, kind, fit.json, fit.bytes), r);
    }

    /** Normalize and queue what was captured; anything but an object is refused. */
    method Enqueue(id: nat, kind: Kind, heap: Normalize.Heap, input: Normalize.Input, rules: Normalize.Rules, r: Reading)
      returns (taken: bool, fit: Option<FitResult>)
      requires Valid()
      modifies this
      ensures Valid()
      ensures match Normalize.Walked(heap, input, 0, [], rules)
              case Some(Obj(item)) =>
                var f := Fit(item, opts.config.limits.maxBytes - EnvelopeOverhead(r.env.base, DEFAULT_SENT_AT));
                taken && fit == Some(f) && model == QueueSteps.Enqueue(old(model), Item(id, kind, f.json, f.bytes), r, opts)
              case _ => !taken && fit == None && model == old(model)
    {
      var normalized := Normalize.Normalized(heap, input, rules);
      match normalized {
        case Some(Obj(item)) =>
          var f := EnqueueNormalized(id, kind, item, r);
          return true, Some(f);
        case _ => return false, None;
      }
    }

    method RetryingCount() returns (n: nat)
      requires Valid() && Counters.AllCounted(retry)
      ensures n == |ItemsOf(retry)|
    {
      n := 0;
      var i := 0;
      while i < |retry|
        invariant i <= |retry| && n == |ItemsOf(retry[..i])|
      {
        assert retry[..i + 1][..i] == retry[..i];
        n := n + retry[i].counts.errors + retry[i].counts.traces + retry[i].counts.events;
        assert Counted(retry[i]);
        i := i + 1;
      }
      assert retry[..i] == retry;
    }

    // -------------------------------------------------------------------
    // Persistence
    // -------------------------------------------------------------------

    method TakeSnapshot() returns (s: Snapshot)
      ensures s == SnapshotOf(pending, retry)
    {
      s := SnapshotOf(pending, retry);
    }

    /** One kind of a snapshot goes ahead of what is pending. */
    method RestoreKind(kind: Kind, saved: seq<SavedItem>)
      modifies this`pending, this`pendingBytes
      ensures View() == old(View()).(pending := old(pending).With(kind, ReviveItems(kind, saved) + old(pending).Of(kind)),
                                     pendingBytes := old(pendingBytes) + SumBytes(ReviveItems(kind, saved)))
    {
      var restored := ReviveItems(kind, saved);
      var bytes := BytesOf(restored);
      pending := pending.With(kind, restored + pending.Of(kind));
      pendingBytes := pendingBytes + bytes;
    }

    method RestoreRetries(saved: seq<SavedChunk>, now: int)
      modifies this`retry
      ensures View() == old(View()).(retry := old(retry) + ReviveChunks(saved, now))
    {
      ghost var start := retry;
      var i := 0;
      while i < |saved|
        invariant i <= |saved| && retry == start + ReviveChunks(saved[..i], now)
      {
        ghost var done := ReviveChunks(saved[..i], now);
        assert ReviveChunks(saved[..i + 1], now) == done + [ReviveChunk(saved[i], now)];
        retry := retry + [ReviveChunk(saved[i], now)];
        i := i + 1;
      }
      assert saved[..i] == saved;
    }

    /** Merge a snapshot taken by a previous process ahead of what is queued. */
    method Restore(snapshot: Option<RawSnapshot>, now: int)
      requires Valid()
      modifies this
      ensures Valid()
      ensures model == RestoredFrom(old(model), if snapshot.Some? then Some(Sifted(snapshot.value)) else None, now, opts)
    {
      if snapshot == None || snapshot.value.version != VERSION { return; }
      var s := SiftAll(snapshot.value);
      RestoredFields(model, s, now, opts);
      MergeIn(s, now);
      model := RestoredFrom(model, Some(s), now, opts);
    }

    method MergeIn(s: Snapshot, now: int)
      requires Valid()
      modifies this`pending, this`pendingBytes, this`overflow, this`retry
      ensures View() == RestoredInto(old(View()), s, now, opts.config.maxQueueItems)
      ensures WellKinded(pending) && pendingBytes == PendingBytes(pending)
    {
      RestoredValid(View(), s, now, opts.config.maxQueueItems);
      RestoreAll(s, now);
      assert pending == View().pending && pendingBytes == View().pendingBytes;
    }

    method RestoreAll(s: Snapshot, now: int)
      modifies this`pending, this`pendingBytes, this`overflow, this`retry
      ensures View() == RestoredInto(old(View()), s, now, opts.config.maxQueueItems)
    {
      RestoreKinds(s.pending);
      RestoreRetries(s.retry, now);
      EnforceBound();
    }

    method RestoreKinds(saved: Groups<SavedItem>)
      modifies this`pending, this`pendingBytes
      ensures var f, items := old(View()), ReviveAll(saved);
              View() == f.(pending := Merged(items, f.pending), pendingBytes := f.pendingBytes + PendingBytes(items))
    {
      RestoreKind(Errors, saved.errors);
      RestoreKind(Traces, saved.traces);
      RestoreKind(Events, saved.events);
    }

    // -------------------------------------------------------------------
    // Shutdown
    // -------------------------------------------------------------------

    /** A reply, and what the drain does next. */
    method Round(reply: Reply, jitter: real, r: Reading)
      requires Valid() && Sound(model) && draining
      modifies this
      ensures Valid() && Onward(old(model), model, opts.config.policy.maxAttempts) && Nearer(old(model), model)
    {
      ghost var q, delay := model, if flying then DelayOf(work[0], reply, jitter, opts.config.policy) else 0;
      if flying { OnReply(reply, jitter, r.now); }
      var sent := Continue(r);
      assert model == RoundOf(q, reply, delay, r, opts);
      RoundOnward(q, reply, delay, r, opts);
    }

    /** Wait for the drain that is running. */
    method AwaitDrain(now: int, w: World, from: nat) returns (clock: int, tick: nat)
      requires Valid() && Sound(model) && (draining || !rerun)
      modifies this
      ensures Valid() && Onward(old(model), model, opts.config.policy.maxAttempts) && !draining && clock >= now
    {
      clock, tick := now, from;
      ghost var q, max := model, opts.config.policy.maxAttempts;
      while draining
        invariant Valid() && Onward(q, model, max) && clock >= now
        decreases if rerun then 1 else 0, |work|, if flying then 0 else 1, draining
      {
        clock := clock + w.latency(tick);
        ghost var before := model;
        Round(w.reply(tick), w.jitter(tick), Reading(clock, w.env(tick)));
        OnwardOn(q, before, model, max);
        tick := tick + 1;
      }
    }

    /** `await this.flush()`. */
    method FlushAndWait(now: int, w: World, from: nat) returns (clock: int, tick: nat)
      requires Valid() && Sound(model) && !paused
      modifies this
      ensures Valid() && Flushed(old(model), model, now, opts.config.policy.maxAttempts) && clock >= now
    {
      ghost var q, r, max := model, Reading(now, w.env(from)), opts.config.policy.maxAttempts;
      FlushReady(q, r, opts, max);
      var promise := Flush(false, None, Reading(now, w.env(from)));
      ghost var t := model;
      clock, tick := AwaitDrain(now, w, from + 1);
      FlushedIs(q, t, model, r, opts, max);
      SettledSound(model, promise.value);
      Settle(promise.value);
    }

    /** How long to sleep until something is due, if that is by the deadline. */
    method NextSleep(clock: int, deadline: int) returns (again: bool, ms: nat)
      requires Valid()
      ensures again == LoopsAgain(model, deadline) && (again ==> Rested(model, Sleep(clock, ms), deadline)) && (!again ==> ms == 0)
    {
      again, ms := false, 0;
      if retry != [] {
        var next := FirstDue(retry);
        if next <= deadline { again, ms := true, Max(0, next - clock); }
      }
    }

    /** One round of the shutdown loop, without the sleep at its end. */
    method ShutdownRound(now: int, deadline: int, w: World, from: nat, ghost q: Queue)
      returns (again: bool, ms: nat, clock: int, tick: nat)
      requires Valid() && Sound(model) && Books(q, model) && Patience(q, model) && !paused
      modifies this
      ensures Valid() && Resting(q, model, again, clock + ms, deadline)
      ensures again ==> Rested(model, Sleep(clock, ms), deadline)
      ensures Flushed(old(model), model, now, opts.config.policy.maxAttempts)
      ensures UsesUp(old(model), model, now, opts.config.policy.maxAttempts)
    {
      ghost var s := model;
      clock, tick := FlushAndWait(now, w, from);
      again, ms := NextSleep(clock, deadline);
      RoundLeaves(q, s, model, now, again, clock + ms, deadline, opts.config.policy.maxAttempts);
    }

    /** A round that is not the first sends something. */
    method NextRound(now: int, deadline: int, w: World, from: nat, ghost q: Queue)
      returns (again: bool, ms: nat, clock: int, tick: nat)
      requires Valid() && Resting(q, model, true, now, deadline)
      modifies this
      ensures Valid() && Resting(q, model, again, clock + ms, deadline)
      ensures again ==> Rested(model, Sleep(clock, ms), deadline)
      ensures Flushed(old(model), model, now, opts.config.policy.maxAttempts)
      ensures Remaining(model.core, opts.config.policy.maxAttempts) < Remaining(old(model).core, opts.config.policy.maxAttempts)
    {
      assert !View().paused;
      again, ms, clock, tick := ShutdownRound(now, deadline, w, from, q);
    }

    /** Flush and sleep until nothing waits that is due by the deadline. */
    method ShutdownRounds(start: int, deadline: int, w: World) returns (end: int, sleeps: seq<Sleep>, ghost tests: seq<Queue>)
      requires Valid() && Sound(model) && !paused
      modifies this
      ensures Valid() && Left(old(model), model, deadline)
      ensures Slept(tests, sleeps, deadline, opts.config.policy.maxAttempts) && tests[|sleeps|] == model
      ensures Flushed(old(model), tests[0], start, opts.config.policy.maxAttempts)
    {
      ghost var q, max := model, opts.config.policy.maxAttempts;
      var again, sleep, tick := FirstRound(start, deadline, w);
      sleeps, tests := [], [model];
      while again
        invariant Valid() && |tests| == |sleeps| + 1 && tests[|sleeps|] == model
        invariant Going(q, start, tests, sleeps, again, sleep, deadline, max)
        decreases Remaining(model.core, max)
      {
        var slept := sleep;
        again, sleep, tick := SleepAndGoOn(slept, deadline, w, tick, q, start, tests, sleeps);
        sleeps, tests := sleeps + [slept], tests + [model];
      }
      end := sleep.start;
    }

    method FirstRound(start: int, deadline: int, w: World) returns (again: bool, sleep: Sleep, tick: nat)
      requires Valid() && Sound(model) && !paused
      modifies this
      ensures Valid() && Going(old(model), start, [model], [], again, sleep, deadline, opts.config.policy.maxAttempts)
    {
      ghost var q := model;
      var ms, clock;
      SelfPatience(q);
      again, ms, clock, tick := ShutdownRound(start, deadline, w, 0, q);
      sleep := Sleep(clock, ms);
      FirstTest(q, start, model, again, sleep, deadline, opts.config.policy.maxAttempts);
    }

    method SleepAndGoOn(sleep: Sleep, deadline: int, w: World, from: nat, ghost q: Queue, ghost start: int,
                        ghost tests: seq<Queue>, ghost sleeps: seq<Sleep>)
      returns (again: bool, next: Sleep, tick: nat)
      requires Valid() && |tests| == |sleeps| + 1 && tests[|sleeps|] == model
      requires Going(q, start, tests, sleeps, true, sleep, deadline, opts.config.policy.maxAttempts)
      modifies this
      ensures Valid() && Going(q, start, tests + [model], sleeps + [sleep], again, next, deadline, opts.config.policy.maxAttempts)
      ensures Remaining(model.core, opts.config.policy.maxAttempts) < Remaining(old(model).core, opts.config.policy.maxAttempts)
    {
      ghost var max, before := opts.config.policy.maxAttempts, model;
      var ms, clock;
      StillResting(q, start, tests, sleeps, sleep, deadline, max);
      again, ms, clock, tick := NextRound(sleep.start + sleep.ms, deadline, w, from, q);
      GoesOn(q, start, tests, sleeps, sleep, before, model, again, clock, ms, deadline, max);
      next := Sleep(clock, ms);
    }

    /** The loop of `shutdown`. The flush of a paused queue returns at once. */
    method ShutdownLoop(start: int, deadline: int, w: World) returns (end: int, sleeps: seq<Sleep>, ghost tests: seq<Queue>)
      requires Valid() && Sound(model) && (paused ==> !draining && !LoopsAgain(model, deadline))
      modifies this
      ensures Valid() && Left(old(model), model, deadline)
      ensures Slept(tests, sleeps, deadline, opts.config.policy.maxAttempts) && tests[|sleeps|] == model
      ensures if old(paused) then model == old(model) && sleeps == []
              else Flushed(old(model), tests[0], start, opts.config.policy.maxAttempts)
    {
      if paused {
        var promise := Flush(false, None, Reading(start, w.env(0)));
        var again, ms := NextSleep(start, deadline);
        assert !again;
        end, sleeps, tests := start, [], [model];
      } else {
        end, sleeps, tests := ShutdownRounds(start, deadline, w);
      }
    }

    /** Stop timers and deliver what can be delivered before the deadline. No
        sleep reaches past the deadline, and what was queued is delivered, given
        up or left. `tests` is the queue after each flush: between two of them the
        loop sleeps exactly until something is due; nothing is sent before its
        time unless that was asked for before. A paused queue must be idle and have nothing that is due by
        the deadline; otherwise its loop need not end. */
    method Shutdown(timeoutMs: int, start: int, w: World)
      returns (r: ShutdownResult, end: int, sleeps: seq<Sleep>, ghost tests: seq<Queue>)
      requires Valid() && Sound(model) && (paused ==> !draining && !LoopsAgain(model, start + timeoutMs))
      modifies this
      ensures Valid() && Sound(model) && stopped && !model.draining && !LoopsAgain(model, start + timeoutMs)
      ensures if old(paused) then model == QueueSteps.Stop(old(model)) else model.core.pending.Count() == 0
      ensures Patience(old(model), model)
      ensures r.deliveredItems == DeliveredItems(model.core) - DeliveredItems(old(model).core)
      ensures r.undeliveredItems == Held(model.core)
      ensures r.deliveredItems + (LostItems(model.core) - LostItems(old(model).core)) + r.undeliveredItems == Held(old(model).core)
      ensures Slept(tests, sleeps, start + timeoutMs, opts.config.policy.maxAttempts) && tests[|sleeps|] == model
      ensures if old(paused) then sleeps == []
              else Flushed(QueueSteps.Stop(old(model)), tests[0], start, opts.config.policy.maxAttempts)
    {
      StoppedSound(model);
      Stop();
      ghost var q := model;
      var before := delivered;
      end, sleeps, tests := ShutdownLoop(start, start + timeoutMs, w);
      AccountedFor(q, model);
      var retrying := RetryingCount();
      r := ShutdownResult(delivered - before, pending.Count() + retrying);
    }
  }
}
