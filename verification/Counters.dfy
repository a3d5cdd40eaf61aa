/** The counters that the queue keeps beside its lists are exact. */
module Counters {
  import opened Json
  import opened Chunker
  import opened Packing
  import opened Delivery
  import opened KeyHistory
  import opened Overflow
  import opened QueueSteps
  import opened QueueRefines

  // ---------------------------------------------------------------------
  // Chunk counts
  // ---------------------------------------------------------------------

  ghost predicate AllCounted(chunks: seq<Chunk>) { forall c | c in chunks :: Counted(c) }

  ghost predicate CountedCore(c: State) { AllCounted(c.retry) && AllCounted(c.work) }

  lemma BeginCounted(c: State, force: bool, cut: seq<Chunk>, now: int)
    requires CountedCore(c) && AllCounted(cut)
    ensures CountedCore(BeginStep(c, force, cut, now))
  {
    DueMembers(c.retry, force, now);
  }

  lemma LaunchCounted(c: State, now: int)
    requires CountedCore(c) && c.work != []
    ensures CountedCore(LaunchStep(c, now))
  {
    assert Counted(c.work[0]);
  }

  lemma AnswerCounted(c: State, reply: Reply, delay: int, now: int, cfg: Config)
    requires CountedCore(c) && Aloft(c)
    ensures CountedCore(AnswerStep(c, reply, delay, now, cfg))
  {
    assert Counted(c.work[0]);
  }

  lemma ApplyCounted(c: State, step: Step, now: int, cfg: Config)
    requires CountedCore(c) && Enabled(c, step, now, cfg)
    ensures CountedCore(Apply(c, step, now, cfg))
  {
    match step
    case Begin(force, cut) => BeginCounted(c, force, cut, now);
    case Launch => LaunchCounted(c, now);
    case Answer(reply, jitter) => AnswerCounted(c, reply, DelayOf(c.work[0], reply, jitter, cfg.policy), now, cfg);
    case _ =>
  }

  /** In every reachable state the counts of a chunk add up to its items. */
  lemma {:induction false} RunCounted(trace: seq<Timed>, cfg: Config)
    requires Delivery.Run(trace, cfg).Some?
    ensures CountedCore(Delivery.Run(trace, cfg).value)
  {
    if trace != [] {
      var init, t := trace[..|trace|-1], trace[|trace|-1];
      RunCounted(init, cfg);
      ApplyCounted(Delivery.Run(init, cfg).value, t.step, t.now, cfg);
    }
  }

  // ---------------------------------------------------------------------
  // Figures of the machine
  // ---------------------------------------------------------------------

  /** How much a state of the machine holds of what the queue counts. */
  datatype Figures = Figures(bytes: int, delivered: nat, deliveredChunks: nat, retries: nat, lostChunks: nat, overflowed: nat)

  function Waits(log: seq<History.Event>): nat
  {
    if log == [] then 0 else Waits(log[..|log|-1]) + if log[|log|-1].Waits? then 1 else 0
  }

  function FiguresOf(c: State): Figures
  {
    Figures(PendingBytes(c.pending), |ItemsOf(c.delivered)|, |c.delivered|, Waits(c.log),
            |c.rejected| + |c.exhausted| + |c.evicted|, |c.overflowed|)
  }

  lemma WaitsPush(log: seq<History.Event>, e: History.Event)
    ensures Waits(log + [e]) == Waits(log) + if e.Waits? then 1 else 0
  {
    assert (log + [e])[..|log|] == log;
  }

  lemma DeliveredPush(chunks: seq<Chunk>, c: Chunk)
    ensures |ItemsOf(chunks + [c])| == |ItemsOf(chunks)| + |c.items|
  {
    assert (chunks + [c])[..|chunks|] == chunks;
  }

  lemma PushBytes(g: Groups<Item>, item: Item)
    ensures PendingBytes(Push(g, item)) == PendingBytes(g) + item.bytes
  {
    SumBytesAppend(g.Of(item.kind), [item]);
    assert [item][..0] == [];
  }

  lemma MergedBytes(items: Groups<Item>, pending: Groups<Item>)
    ensures PendingBytes(Merged(items, pending)) == PendingBytes(items) + PendingBytes(pending)
  {
    SumBytesAppend(items.errors, pending.errors);
    SumBytesAppend(items.traces, pending.traces);
    SumBytesAppend(items.events, pending.events);
  }

  lemma AcceptFigures(c: State, item: Item, cfg: Config)
    ensures var g, f := Push(c.pending, item), FiguresOf(c);
            FiguresOf(AcceptStep(c, item, cfg)) ==
            f.(bytes := f.bytes + item.bytes - SumBytes(Dropped(g, cfg.maxQueueItems)),
               overflowed := f.overflowed + |Dropped(g, cfg.maxQueueItems)|)
  {
    PushBytes(c.pending, item);
    OverflowBytes(Push(c.pending, item), cfg.maxQueueItems);
  }

  lemma RestoreFigures(c: State, items: Groups<Item>, chunks: seq<Chunk>, cfg: Config)
    ensures var g, f := Merged(items, c.pending), FiguresOf(c);
            FiguresOf(RestoreStep(c, items, chunks, cfg)) ==
            f.(bytes := f.bytes + PendingBytes(items) - SumBytes(Dropped(g, cfg.maxQueueItems)),
               overflowed := f.overflowed + |Dropped(g, cfg.maxQueueItems)|)
  {
    MergedBytes(items, c.pending);
    OverflowBytes(Merged(items, c.pending), cfg.maxQueueItems);
  }

  lemma BeginFigures(c: State, force: bool, cut: seq<Chunk>, now: int)
    ensures FiguresOf(BeginStep(c, force, cut, now)) == FiguresOf(c).(bytes := 0)
  {
  }

  lemma TakeFigures(c: State, cut: seq<Chunk>)
    ensures FiguresOf(TakeAllStep(c, cut)) == FiguresOf(c).(bytes := 0)
  {
  }

  lemma LaunchFigures(c: State, now: int)
    requires c.work != []
    ensures FiguresOf(LaunchStep(c, now)) == FiguresOf(c)
  {
    WaitsPush(c.log, LaunchStep(c, now).log[|c.log|]);
  }

  lemma LogFigures(c: State, t: State, e: History.Event)
    requires t.log == c.log + [e] && t.pending == c.pending && t.overflowed == c.overflowed
    ensures var f := FiguresOf(c);
            FiguresOf(t) == Figures(f.bytes, |ItemsOf(t.delivered)|, |t.delivered|, f.retries + if e.Waits? then 1 else 0,
                                    |t.rejected| + |t.exhausted| + |t.evicted|, f.overflowed)
  {
    WaitsPush(c.log, e);
  }

  lemma AnswerFigures(c: State, reply: Reply, delay: int, now: int, cfg: Config)
    requires Aloft(c)
    ensures var t := AnswerStep(c, reply, delay, now, cfg);
            |c.evicted| <= |t.evicted| && FiguresOf(t) == AnsweredFigures(c, FiguresOf(c), t, reply, cfg)
  {
    var t := AnswerStep(c, reply, delay, now, cfg);
    LogFigures(c, t, t.log[|c.log|]);
    DeliveredPush(c.delivered, c.work[0]);
  }

  lemma ClockFigures(c: State, now: int)
    ensures FiguresOf(c.(clock := now)) == FiguresOf(c)
  {
  }

  // ---------------------------------------------------------------------
  // Counters of the queue
  // ---------------------------------------------------------------------

  predicate Agrees(q: Queue, f: Figures)
  {
    q.pendingBytes == f.bytes && q.delivered == f.delivered && q.reported + Tally(q.overflow) == f.overflowed
  }

  /** What a drain reports is what happened since it started. */
  predicate Reports(result: FlushResult, f: Figures, start: Figures)
  {
    && result.accepted == f.deliveredChunks - start.deliveredChunks
    && result.deliveredItems == f.delivered - start.delivered
    && result.retrying == f.retries - start.retries
    && result.dropped == f.lostChunks - start.lostChunks
  }

  predicate Exact(q: Queue) { Agrees(q, FiguresOf(q.core)) && Reports(q.result, FiguresOf(q.core), FiguresOf(q.since)) }

  lemma PassAgrees(q: Queue, f: Figures, core: State)
    requires Agrees(q, f)
    ensures Agrees(q.(rerun := false, forceNext := false, reported := q.reported + Tally(q.overflow),
                      overflow := Counts(0, 0, 0), pendingBytes := 0, core := core), f.(bytes := 0))
  {
  }

  function AnsweredFigures(c: State, f: Figures, core: State, reply: Reply, cfg: Config): Figures
    requires Aloft(c) && |c.evicted| <= |core.evicted|
  {
    if reply.Ok? then f.(delivered := f.delivered + |c.work[0].items|, deliveredChunks := f.deliveredChunks + 1)
    else if Retried(c, reply, cfg) then
      f.(retries := f.retries + 1, lostChunks := f.lostChunks + |core.evicted| - |c.evicted|)
    else f.(lostChunks := f.lostChunks + 1)
  }

  lemma AnsweredAgrees(q: Queue, f: Figures, core: State, reply: Reply, o: Options)
    requires Agrees(q, f) && Aloft(q.core) && Counted(q.core.work[0]) && |q.core.evicted| <= |core.evicted|
    ensures Agrees(AnsweredTo(q, core, reply, o), AnsweredFigures(q.core, f, core, reply, o.config))
  {
  }

  lemma AnsweredReports(q: Queue, f: Figures, start: Figures, core: State, reply: Reply, o: Options)
    requires Reports(q.result, f, start) && Aloft(q.core) && Counted(q.core.work[0]) && |q.core.evicted| <= |core.evicted|
    ensures Reports(AnsweredTo(q, core, reply, o).result, AnsweredFigures(q.core, f, core, reply, o.config), start)
  {
  }

  lemma AnsweredExact(q: Queue, reply: Reply, delay: int, now: int, o: Options)
    requires Exact(q) && Aloft(q.core) && CountedCore(q.core)
    ensures Exact(Answered(q, reply, delay, now, o))
  {
    assert Counted(q.core.work[0]);
    AnswerFigures(q.core, reply, delay, now, o.config);
    ClockFigures(AnswerStep(q.core, reply, delay, now, o.config), now);
    var t := AnswerStep(q.core, reply, delay, now, o.config).(clock := now);
    AnsweredAgrees(q, FiguresOf(q.core), t, reply, o);
    AnsweredReports(q, FiguresOf(q.core), FiguresOf(q.since), t, reply, o);
  }

  lemma StoredExact(q: Queue, item: Item, now: int, o: Options)
    requires Exact(q)
    ensures Exact(Stored(q, item, now, o))
  {
    AcceptFigures(q.core, item, o.config);
    ClockFigures(AcceptStep(q.core, item, o.config), now);
  }

  lemma RestoredExact(q: Queue, items: Groups<Item>, chunks: seq<Chunk>, now: int, o: Options)
    requires Exact(q)
    ensures Exact(Restored(q, items, chunks, now, o))
  {
    RestoreFigures(q.core, items, chunks, o.config);
    ClockFigures(RestoreStep(q.core, items, chunks, o.config), now);
  }

  lemma PassExact(q: Queue, r: Reading, o: Options)
    requires Exact(q)
    ensures Exact(StartPass(q, r, o))
  {
    var cut := CutOf(q, q.drainBytes, r, o);
    BeginFigures(q.core, q.forceNext, cut, r.now);
    ClockFigures(BeginStep(q.core, q.forceNext, cut, r.now), r.now);
    PassAgrees(q, FiguresOf(q.core), BeginStep(q.core, q.forceNext, cut, r.now).(clock := r.now));
  }

  lemma FinishExact(q: Queue)
    requires Exact(q)
    ensures Exact(Finish(q))
  {
    assert Finish(q).core == q.core;
  }

  lemma SendNextExact(q: Queue, r: Reading, o: Options)
    requires Exact(q)
    ensures Exact(SendNext(q, r, o))
  {
    if q.core.work != [] {
      LaunchFigures(q.core, r.now);
      ClockFigures(LaunchStep(q.core, r.now), r.now);
    } else {
      FinishExact(q);
    }
  }

  lemma DrainExact(q: Queue, r: Reading, o: Options)
    requires Exact(q)
    ensures Exact(SendNext(StartPass(q, r, o), r, o))
  {
    PassExact(q, r, o);
    SendNextExact(StartPass(q, r, o), r, o);
  }

  /** A new drain starts counting from nothing. */
  lemma BegunExact(q: Queue, force: bool, maxBytes: Option<int>, r: Reading, o: Options)
    requires Exact(q)
    ensures Exact(Begun(q, force, maxBytes, r, o))
  {
    ClockFigures(q.core, r.now);
  }

  lemma FlushExact(q: Queue, force: bool, maxBytes: Option<int>, r: Reading, o: Options)
    requires Exact(q) && Control(q)
    ensures Exact(Flush(q, force, maxBytes, r, o))
  {
    if !q.paused {
      if q.draining {
        ClockFigures(q.core, r.now);
      } else {
        FlushIs(q, force, maxBytes, r, o);
        BegunExact(q, force, maxBytes, r, o);
        DrainExact(Begun(q, force, maxBytes, r, o), r, o);
      }
    }
  }

  lemma ContinueExact(q: Queue, r: Reading, o: Options)
    requires Exact(q)
    ensures Exact(Continue(q, r, o))
  {
    if q.core.work == [] && q.rerun {
      DrainExact(q, r, o);
    } else {
      ClockFigures(q.core, r.now);
      SendNextExact(q.(core := q.core.(clock := r.now)), r, o);
    }
  }

  lemma TakeWith(q: Queue, cut: seq<Chunk>, now: int)
    requires Exact(q)
    ensures Exact(q.(core := TakeAllStep(q.core, cut).(clock := now), pendingBytes := 0, timer := None))
  {
    TakeFigures(q.core, cut);
    ClockFigures(TakeAllStep(q.core, cut), now);
  }

  lemma TakeExact(q: Queue, limit: int, r: Reading, o: Options)
    requires Exact(q)
    ensures Exact(TakeEverything(q, limit, r, o))
  {
    TakeWith(q, CutOf(q, limit, r, o), r.now);
  }

  lemma FlushingExact(q: Queue, e: QueueSteps.Event, r: Reading, o: Options)
    requires Exact(q) && Control(q) && MayFlush(e)
    ensures Exact(Next(q, e, r, o))
  {
    match e
    case Enqueues(item) =>
      StoredExact(q, item, r.now, o);
      if MustFlush(Stored(q, item, r.now, o), o) { FlushExact(Stored(q, item, r.now, o), false, None, r, o); }
    case Flushes(force, maxBytes) => FlushExact(q, force, maxBytes, r, o);
    case Fires => FlushExact(q.(timer := None, gap := q.gap || q.paused), false, None, r, o);
    case Resumes => FlushExact(q.(paused := false), true, None, r, o);
  }

  lemma OtherExact(q: Queue, e: QueueSteps.Event, r: Reading, o: Options)
    requires Exact(q) && Possible(q, e, r, o) && CountedCore(q.core) && !MayFlush(e)
    ensures Exact(Next(q, e, r, o))
  {
    match e
    case Answers(reply, jitter) => AnsweredExact(q, reply, DelayOf(q.core.work[0], reply, jitter, o.config.policy), r.now, o);
    case Continues => ContinueExact(q, r, o);
    case Restores(items, chunks) => RestoredExact(q, items, chunks, r.now, o);
    case Takes(limit) => TakeExact(q, limit, r, o);
    case Settles(p) =>
    case Starts =>
    case Stops =>
    case Pauses =>
  }

  lemma NextExact(q: Queue, e: QueueSteps.Event, r: Reading, o: Options)
    requires Exact(q) && Control(q) && Possible(q, e, r, o) && CountedCore(q.core)
    ensures Exact(Next(q, e, r, o))
  {
    if MayFlush(e) { FlushingExact(q, e, r, o); } else { OtherExact(q, e, r, o); }
  }

  lemma QueueCounted(run: seq<Happening>, o: Options)
    requires QueueSteps.Run(run, o).Some?
    ensures CountedCore(QueueSteps.Run(run, o).value.core)
  {
    var trace := RunRefines(run, o);
    RunCounted(trace, o.config);
  }

  lemma NoFigures(c: State)
    requires c.pending.Count() == 0 && |c.delivered| == 0 && |c.log| == 0
    requires |c.rejected| + |c.exhausted| + |c.evicted| + |c.overflowed| == 0
    ensures FiguresOf(c) == Figures(0, 0, 0, 0, 0, 0)
  {
  }

  lemma NoneYet(q: Queue)
    requires FiguresOf(q.core) == Figures(0, 0, 0, 0, 0, 0) && q.since == q.core
    requires q.pendingBytes == 0 && q.delivered == 0 && q.reported == 0 && Tally(q.overflow) == 0
    requires q.result.accepted == 0 && q.result.deliveredItems == 0 && q.result.retrying == 0 && q.result.dropped == 0
    ensures Exact(q)
  {
  }

  lemma EmptyIsExact()
    ensures Exact(EMPTY_QUEUE)
  {
    NoFigures(INIT);
    NoneYet(EMPTY_QUEUE);
  }

  lemma {:induction false} RunExact(run: seq<Happening>, o: Options) returns (q: Queue)
    requires QueueSteps.Run(run, o).Some?
    ensures QueueSteps.Run(run, o) == Some(q) && Exact(q)
  {
    if run == [] {
      q := EMPTY_QUEUE;
      EmptyIsExact();
    } else {
      var init, h := run[..|run|-1], run[|run|-1];
      var p := RunExact(init, o);
      RunControl(init, o);
      QueueCounted(init, o);
      NextExact(p, h.event, h.reading, o);
      q := QueueSteps.Run(run, o).value;
    }
  }

  /** In every reachable state the byte counter is the size of what is pending,
      the delivered counter the number of delivered items, the overflow counters
      with what was reported the number of items the bound dropped, and the
      result of the latest drain what happened since it started. */
  lemma CountersAreExact(run: seq<Happening>, o: Options)
    requires QueueSteps.Run(run, o).Some?
    ensures Exact(QueueSteps.Run(run, o).value)
  {
    var q := RunExact(run, o);
  }
}
