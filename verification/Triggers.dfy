/** What starts a pass, whether it is forced, what it sends, and when the retry
    timer is armed. */
module Triggers {
  import opened Utf8
  import opened Json
  import opened Chunker
  import opened Packing
  import opened Delivery
  import opened Overflow
  import opened QueueSteps
  import opened QueueRefines
  import Counters
  import WakeUp

  // ---------------------------------------------------------------------
  // Thresholds
  // ---------------------------------------------------------------------

  /** As many items, bytes or errors are pending as start a flush. */
  predicate ReachesThreshold(pending: Groups<Item>, o: Options)
  {
    || |pending.errors| + |pending.traces| + |pending.events| >= o.config.limits.maxItems
    || PendingBytes(pending) >= o.config.limits.maxBytes
    || |pending.errors| >= o.errorFlushThreshold
  }

  /** The item goes to the end of its kind, and the bound is enforced. */
  function WithItem(pending: Groups<Item>, item: Item, o: Options): Groups<Item> { Kept(Push(pending, item), o.config.maxQueueItems) }

  lemma StoredBytesAre(q: Queue, item: Item, now: int, o: Options)
    requires q.pendingBytes == PendingBytes(q.core.pending)
    ensures var s := Stored(q, item, now, o);
            s.pendingBytes == PendingBytes(WithItem(q.core.pending, item, o)) && s.core.pending == WithItem(q.core.pending, item, o)
  {
    OverflowBytes(Push(q.core.pending, item), o.config.maxQueueItems);
    Counters.PushBytes(q.core.pending, item);
  }

  /** An idle queue that takes an item in starts a flush exactly if it may flush on
      its own and the items now pending reach a threshold; otherwise the item stays
      pending and nothing is sent. */
  lemma EnqueueFlushesIff(q: Queue, item: Item, r: Reading, o: Options)
    requires Control(q) && !q.draining && !q.paused && q.pendingBytes == PendingBytes(q.core.pending)
    ensures var s, g := Enqueue(q, item, r, o), WithItem(q.core.pending, item, o);
            && (s.promises > q.promises <==> o.autoFlush && !q.stopped && ReachesThreshold(g, o))
            && (s.promises == q.promises ==> s.core.pending == g && s.core.log == q.core.log && s.core.retry == q.core.retry && !s.draining)
  {
    StoredBytesAre(q, item, r.now, o);
    var s := Stored(q, item, r.now, o);
    if MustFlush(s, o) { FlushCounts(s, false, None, r, o); }
  }

  lemma FlushCounts(q: Queue, force: bool, maxBytes: Option<int>, r: Reading, o: Options)
    requires Control(q) && !q.paused && !q.draining
    ensures Flush(q, force, maxBytes, r, o).promises == q.promises + 1
  {
    FlushIs(q, force, maxBytes, r, o);
    SendCounts(StartPass(Begun(q, force, maxBytes, r, o), r, o), r, o);
  }

  lemma FinishIs(q: Queue)
    ensures var s := Finish(q); s == q.(draining := false, gap := s.gap, timer := s.timer)
  {
  }

  /** Sending on touches the core, or ends the drain. */
  lemma SendIs(q: Queue, r: Reading, o: Options)
    ensures var s := SendNext(q, r, o);
            if q.core.work != [] then s == q.(core := LaunchStep(q.core, r.now).(clock := r.now))
            else s == q.(draining := false, gap := s.gap, timer := s.timer)
  {
    if q.core.work == [] { FinishIs(q); }
  }

  lemma SendCounts(q: Queue, r: Reading, o: Options)
    ensures var s := SendNext(q, r, o);
            && s.promises == q.promises && s.core.pending == q.core.pending && s.rerun == q.rerun && s.forceNext == q.forceNext
            && s.core.forced == q.core.forced && s.pendingBytes == q.pendingBytes && s.drainBytes == q.drainBytes
            && s.core.retry == q.core.retry && s.paused == q.paused && s.stopped == q.stopped
  {
    SendIs(q, r, o);
  }

  // ---------------------------------------------------------------------
  // Forced passes
  // ---------------------------------------------------------------------

  /** The event calls for a flush that ignores retry times. */
  predicate Asks(q: Queue, e: QueueSteps.Event) { (e.Flushes? && e.force && !q.paused) || e.Resumes? }

  /** The event calls for a flush of any kind. */
  predicate Calls(q: Queue, e: QueueSteps.Event, r: Reading, o: Options)
  {
    match e
    case Enqueues(item) => !q.paused && MustFlush(Stored(q, item, r.now, o), o)
    case Flushes(_, _) => !q.paused
    case Fires => !q.paused
    case Resumes => true
    case _ => false
  }

  /** A pass begins: a flush is called while no drain runs, or the drain has sent
      everything and was asked for another round. */
  predicate Begins(q: Queue, e: QueueSteps.Event, r: Reading, o: Options)
  {
    if q.draining then e.Continues? && q.core.work == [] && q.rerun else Calls(q, e, r, o)
  }

  lemma PassForced(q: Queue, r: Reading, o: Options)
    ensures var s := SendNext(StartPass(q, r, o), r, o); !s.forceNext && !s.rerun && s.core.forced == q.forceNext
  {
    SendCounts(StartPass(q, r, o), r, o);
  }

  /** Only a drain that was asked for another round has something to force. */
  predicate ForceWaits(q: Queue) { q.forceNext ==> q.draining && q.rerun }

  lemma FlushForces(q: Queue, force: bool, maxBytes: Option<int>, r: Reading, o: Options)
    requires Control(q)
    ensures var s := Flush(q, force, maxBytes, r, o);
            if q.paused then s.forceNext == q.forceNext && s.rerun == q.rerun && s.draining == q.draining && s.core.forced == q.core.forced
            else if q.draining then
              s.forceNext == (q.forceNext || force) && s.rerun && s.draining && s.core.forced == q.core.forced
            else !s.forceNext && s.core.forced == force
  {
    if !q.paused && !q.draining {
      FlushIs(q, force, maxBytes, r, o);
      PassForced(Begun(q, force, maxBytes, r, o), r, o);
    }
  }

  lemma ContinueForces(q: Queue, r: Reading, o: Options)
    requires q.draining && !q.core.flying
    ensures var s := Continue(q, r, o);
            if q.core.work == [] && q.rerun then !s.forceNext && s.core.forced == q.forceNext
            else s.forceNext == q.forceNext && s.core.forced == q.core.forced && s.rerun == q.rerun && (s.draining <==> q.core.work != [])
  {
    if q.core.work == [] && q.rerun {
      PassForced(q, r, o);
    } else {
      SendIs(q.(core := q.core.(clock := r.now)), r, o);
    }
  }

  lemma EnqueueForces(q: Queue, item: Item, r: Reading, o: Options)
    requires Control(q)
    ensures var s, e := Enqueue(q, item, r, o), Enqueues(item);
            if !Calls(q, e, r, o) then
              s.forceNext == q.forceNext && s.core.forced == q.core.forced && s.rerun == q.rerun && s.draining == q.draining
            else if q.draining then s.forceNext == q.forceNext && s.rerun && s.draining && s.core.forced == q.core.forced
            else !s.forceNext && !s.core.forced
  {
    var t := Stored(q, item, r.now, o);
    if MustFlush(t, o) { FlushForces(t, false, None, r, o); }
  }

  /** How an event changes what is to be forced. */
  predicate Forces(q: Queue, e: QueueSteps.Event, r: Reading, o: Options, s: Queue)
  {
    && ForceWaits(s)
    && (s.forceNext <==> !Begins(q, e, r, o) && (q.forceNext || Asks(q, e)))
    && s.core.forced == (if Begins(q, e, r, o) then q.forceNext || Asks(q, e) else q.core.forced)
  }

  lemma FlushesForces(q: Queue, force: bool, maxBytes: Option<int>, r: Reading, o: Options)
    requires Control(q) && ForceWaits(q)
    ensures Forces(q, Flushes(force, maxBytes), r, o, Flush(q, force, maxBytes, r, o))
  {
    FlushForces(q, force, maxBytes, r, o);
  }

  lemma FiredControl(q: Queue)
    requires Control(q)
    ensures Control(q.(timer := None, gap := q.gap || q.paused))
  {
  }

  lemma ResumedControl(q: Queue)
    requires Control(q)
    ensures Control(q.(paused := false))
  {
  }

  lemma FiresForces(q: Queue, r: Reading, o: Options)
    requires Control(q) && ForceWaits(q)
    ensures Forces(q, Fires, r, o, TimerFires(q, r, o))
  {
    var t := q.(timer := None, gap := q.gap || q.paused);
    FiredControl(q);
    FlushForces(t, false, None, r, o);
  }

  /** A flush that asks to ignore retry times. */
  lemma AskingForces(q: Queue, maxBytes: Option<int>, r: Reading, o: Options)
    requires Control(q) && !q.paused
    ensures var s := Flush(q, true, maxBytes, r, o);
            if q.draining then s.forceNext && s.rerun && s.draining && s.core.forced == q.core.forced else !s.forceNext && s.core.forced
  {
    FlushForces(q, true, maxBytes, r, o);
  }

  lemma ResumeForces(q: Queue, r: Reading, o: Options)
    requires Control(q) && ForceWaits(q)
    ensures Forces(q, Resumes, r, o, Resume(q, r, o))
  {
    ResumedControl(q);
    AskingForces(q.(paused := false), None, r, o);
    AskedForces(q, r, o, Resume(q, r, o));
  }

  lemma AskedForces(q: Queue, r: Reading, o: Options, s: Queue)
    ensures (if q.draining then s.forceNext && s.rerun && s.draining && s.core.forced == q.core.forced else !s.forceNext && s.core.forced)
            ==> Forces(q, Resumes, r, o, s)
  {
  }

  lemma EventForces(q: Queue, e: QueueSteps.Event, r: Reading, o: Options)
    requires Control(q) && Possible(q, e, r, o) && ForceWaits(q)
    ensures Forces(q, e, r, o, Next(q, e, r, o))
  {
    if MayFlush(e) {
      FlushingForces(q, e, r, o);
    } else if e.Continues? {
      ContinuesForces(q, r, o);
    } else {
      OtherForces(q, e, r, o);
    }
  }

  lemma FlushingForces(q: Queue, e: QueueSteps.Event, r: Reading, o: Options)
    requires Control(q) && ForceWaits(q) && MayFlush(e)
    ensures Forces(q, e, r, o, Next(q, e, r, o))
  {
    match e
    case Enqueues(item) => EnqueuesForces(q, item, r, o);
    case Flushes(force, maxBytes) => FlushesForces(q, force, maxBytes, r, o);
    case Fires => FiresForces(q, r, o);
    case Resumes => ResumeForces(q, r, o);
  }

  lemma EnqueuesForces(q: Queue, item: Item, r: Reading, o: Options)
    requires Control(q) && ForceWaits(q)
    ensures Forces(q, Enqueues(item), r, o, Enqueue(q, item, r, o))
  {
    EnqueueForces(q, item, r, o);
  }

  lemma ContinuesForces(q: Queue, r: Reading, o: Options)
    requires ForceWaits(q) && q.draining && !q.core.flying
    ensures Forces(q, Continues, r, o, Continue(q, r, o))
  {
    ContinueForces(q, r, o);
  }

  /** A reply moves chunks and counters only. */
  lemma AnsweredIs(q: Queue, reply: Reply, delay: int, now: int, o: Options)
    requires Aloft(q.core)
    ensures var s := Answered(q, reply, delay, now, o);
            s == q.(core := s.core, delivered := s.delivered, result := s.result)
            && s.core.forced == q.core.forced && s.core.pending == q.core.pending
  {
  }

  lemma OtherForces(q: Queue, e: QueueSteps.Event, r: Reading, o: Options)
    requires Possible(q, e, r, o) && ForceWaits(q) && !MayFlush(e) && !e.Continues?
    ensures Forces(q, e, r, o, Next(q, e, r, o))
  {
    if e.Answers? { AnsweredIs(q, e.reply, DelayOf(q.core.work[0], e.reply, e.jitter, o.config.policy), r.now, o); }
  }

  /** What an event did: whether it asked to ignore retry times, and whether a pass
      began with it. */
  datatype Mark = Mark(asks: bool, begins: bool)

  ghost function MarkOf(q: Queue, h: Happening, o: Options): Mark { Mark(Asks(q, h.event), Begins(q, h.event, h.reading, o)) }

  ghost function Marks(run: seq<Happening>, o: Options): (r: seq<Mark>)
    requires QueueSteps.Run(run, o).Some?
    ensures |r| == |run|
  {
    if run == [] then []
    else
      var init := run[..|run|-1];
      Marks(init, o) + [MarkOf(QueueSteps.Run(init, o).value, run[|run|-1], o)]
  }

  /** Some event asked, and no pass began with it or after it. */
  ghost predicate Asked(marks: seq<Mark>)
  {
    exists k :: 0 <= k < |marks| && marks[k].asks && forall j | k <= j < |marks| :: !marks[j].begins
  }

  lemma AskedPush(marks: seq<Mark>, m: Mark)
    ensures Asked(marks + [m]) <==> !m.begins && (Asked(marks) || m.asks)
  {
    var all, n := marks + [m], |marks|;
    if Asked(all) {
      var k :| 0 <= k < |all| && all[k].asks && forall j | k <= j < |all| :: !all[j].begins;
      assert !all[n].begins;
      if k < n {
        assert marks[k].asks;
        forall j | k <= j < n ensures !marks[j].begins { assert marks[j] == all[j]; }
      }
    }
    if !m.begins && Asked(marks) {
      var k :| 0 <= k < |marks| && marks[k].asks && forall j | k <= j < |marks| :: !marks[j].begins;
      assert all[k].asks;
    }
    if !m.begins && m.asks { assert all[n].asks; }
  }

  /** Only a drain that takes another round has something to force, and it has
      exactly if it was asked to. */
  ghost predicate Waits(marks: seq<Mark>, q: Queue) { ForceWaits(q) && (q.forceNext <==> Asked(marks)) }

  lemma {:induction false} RunForces(run: seq<Happening>, o: Options)
    requires QueueSteps.Run(run, o).Some?
    ensures Waits(Marks(run, o), QueueSteps.Run(run, o).value)
  {
    if run != [] {
      var init, h := run[..|run|-1], run[|run|-1];
      RunForces(init, o);
      RunControl(init, o);
      StepForces(Marks(init, o), QueueSteps.Run(init, o).value, h, o);
    }
  }

  lemma StepForces(marks: seq<Mark>, q: Queue, h: Happening, o: Options)
    ensures Control(q) && Possible(q, h.event, h.reading, o) && Waits(marks, q) ==>
              Waits(marks + [MarkOf(q, h, o)], Next(q, h.event, h.reading, o))
  {
    if Control(q) && Possible(q, h.event, h.reading, o) && Waits(marks, q) {
      EventForces(q, h.event, h.reading, o);
      AskedPush(marks, MarkOf(q, h, o));
    }
  }

  /** A pass ignores retry times exactly if a flush that asks for it was called
      since the pass before it began. */
  lemma PassIsForcedIff(run: seq<Happening>, h: Happening, o: Options)
    requires QueueSteps.Run(run, o).Some? && Possible(QueueSteps.Run(run, o).value, h.event, h.reading, o)
    requires Begins(QueueSteps.Run(run, o).value, h.event, h.reading, o)
    ensures var q := QueueSteps.Run(run, o).value;
            Next(q, h.event, h.reading, o).core.forced <==> Asked(Marks(run, o)) || Asks(q, h.event)
  {
    RunForces(run, o);
    RunControl(run, o);
    EventForces(QueueSteps.Run(run, o).value, h.event, h.reading, o);
  }

  // ---------------------------------------------------------------------
  // What a pass sends
  // ---------------------------------------------------------------------

  /** The same request, sent or not. */
  predicate SameText(c: Chunk, d: Chunk) { c.key == d.key && c.body == d.body && c.bytes == d.bytes && c.items == d.items }

  /** The chunks are what is to be sent, in this order, and the first is. */
  ghost predicate Sending(c: State, chunks: seq<Chunk>)
  {
    && |c.work| == |chunks| && (c.flying <==> chunks != [])
    && forall i | 0 <= i < |chunks| :: SameText(c.work[i], chunks[i])
  }

  lemma LaunchSends(c: State, now: int)
    requires c.work != []
    ensures Sending(LaunchStep(c, now), c.work) && LaunchStep(c, now).retry == c.retry
  {
  }

  /** What the next pass sends: retries, then what is cut. */
  function PassOf(q: Queue, r: Reading, o: Options): seq<Chunk>
  {
    Due(q.core.retry, q.forceNext, r.now) + CutOf(q, q.drainBytes, r, o)
  }

  lemma StartIs(q: Queue, r: Reading, o: Options)
    ensures var c := StartPass(q, r, o).core;
            && c.work == PassOf(q, r, o) && c.retry == NotDue(q.core.retry, q.forceNext, r.now) && c.pending == EMPTY
            && c.flying == q.core.flying
  {
  }

  lemma PassSends(q: Queue, r: Reading, o: Options)
    requires !q.core.flying
    ensures var c := SendNext(StartPass(q, r, o), r, o).core;
            Sending(c, PassOf(q, r, o)) && c.retry == NotDue(q.core.retry, q.forceNext, r.now) && c.pending == EMPTY
  {
    var p := StartPass(q, r, o);
    StartIs(q, r, o);
    SendIs(p, r, o);
    if p.core.work != [] { LaunchSends(p.core, r.now); }
  }

  /** A flush of an idle queue starts sending: all waiting chunks if it is forced,
      those whose time has come otherwise, and then what is cut. */
  lemma FlushSends(q: Queue, force: bool, maxBytes: Option<int>, r: Reading, o: Options)
    requires Control(q) && !q.paused && !q.draining
    ensures var c := Flush(q, force, maxBytes, r, o).core;
            var limits := Limits(if maxBytes.Some? then maxBytes.value else o.config.limits.maxBytes, o.config.limits.maxItems);
            && Sending(c, Due(q.core.retry, force, r.now) + Cut(q.core.pending, r.env, limits))
            && c.retry == NotDue(q.core.retry, force, r.now) && c.pending == EMPTY
  {
    FlushIs(q, force, maxBytes, r, o);
    PassSends(Begun(q, force, maxBytes, r, o), r, o);
  }

  lemma {:induction false} ForcedTakesAll(chunks: seq<Chunk>, now: int)
    ensures Due(chunks, true, now) == chunks && NotDue(chunks, true, now) == []
  {
    if chunks != [] {
      ForcedTakesAll(chunks[..|chunks|-1], now);
      assert chunks == chunks[..|chunks|-1] + [chunks[|chunks|-1]];
    }
  }

  /** Resuming an idle queue sends everything at once, whatever the retry times. */
  lemma ResumeSendsAll(q: Queue, r: Reading, o: Options)
    requires Control(q) && !q.draining
    ensures var c := Resume(q, r, o).core;
            && Sending(c, q.core.retry + Cut(q.core.pending, r.env, o.config.limits))
            && c.retry == [] && c.pending == EMPTY
  {
    var t := q.(paused := false);
    ResumedControl(q);
    FlushSends(t, true, None, r, o);
    ForcedTakesAll(q.core.retry, r.now);
  }

  /** A chunk that was cut carries the size of its body, which is within the limit
      unless the chunk holds a single item. */
  predicate Within(c: Chunk, maxBytes: int) { c.bytes == Size(c.body) && (c.bytes <= maxBytes || |c.items| == 1) }

  lemma CutWithin(pending: Groups<Item>, env: Envelope, limits: Limits, i: nat)
    requires WellKinded(pending) && Measured(pending.Flat()) && Plain(env.batchId) && |env.batchId| <= 36
    requires i < |Cut(pending, env, limits)| && i < 1_000_000
    ensures Within(Cut(pending, env, limits)[i], limits.maxBytes)
  {
    CutWithinLimit(pending, env, limits, i);
  }

  lemma CutIsWithin(pending: Groups<Item>, env: Envelope, limits: Limits, i: nat)
    ensures CutReady(pending, env) && i < |Cut(pending, env, limits)| && i < 1_000_000 ==>
              Within(Cut(pending, env, limits)[i], limits.maxBytes)
  {
    if CutReady(pending, env) && i < |Cut(pending, env, limits)| && i < 1_000_000 { CutWithin(pending, env, limits, i); }
  }

  /** Pending items are measured, and the batch id is no longer than a key allows. */
  predicate CutReady(pending: Groups<Item>, env: Envelope)
  {
    WellKinded(pending) && Measured(pending.Flat()) && Plain(env.batchId) && |env.batchId| <= 36
  }

  lemma SendingWithin(c: State, due: seq<Chunk>, cut: seq<Chunk>, limit: int, i: nat)
    ensures Sending(c, due + cut) && (i < |cut| ==> Within(cut[i], limit)) && |due| + i < |c.work| ==> Within(c.work[|due| + i], limit)
  {
    if Sending(c, due + cut) && i < |cut| { assert (due + cut)[|due| + i] == cut[i]; }
  }

  /** Every new chunk that is being sent keeps the limit that it was cut with. */
  lemma SentWithin(pending: Groups<Item>, env: Envelope, limits: Limits, c: State, due: seq<Chunk>, i: nat)
    ensures CutReady(pending, env) && i < 1_000_000 && Sending(c, due + Cut(pending, env, limits)) && |due| + i < |c.work| ==>
              Within(c.work[|due| + i], limits.maxBytes)
  {
    CutIsWithin(pending, env, limits, i);
    SendingWithin(c, due, Cut(pending, env, limits), limits.maxBytes, i);
  }

  /** A further pass of a drain cuts what is pending with the limit of that drain. */
  lemma FurtherPassSends(q: Queue, r: Reading, o: Options)
    requires Between(q) && q.core.work == [] && q.rerun
    ensures var c, limits := Continue(q, r, o).core, Limits(q.drainBytes, o.config.limits.maxItems);
            && Sending(c, Due(q.core.retry, q.forceNext, r.now) + Cut(q.core.pending, r.env, limits))
            && c.retry == NotDue(q.core.retry, q.forceNext, r.now) && c.pending == EMPTY
  {
    PassSends(q, r, o);
  }

  function LimitAfter(q: Queue, e: QueueSteps.Event, r: Reading, o: Options): int
  {
    if q.draining || !Begins(q, e, r, o) then q.drainBytes
    else match e
         case Flushes(_, Some(limit)) => limit
         case _ => o.config.limits.maxBytes
  }

  lemma EnqueueLimit(q: Queue, item: Item, r: Reading, o: Options)
    requires Control(q)
    ensures Enqueue(q, item, r, o).drainBytes == LimitAfter(q, Enqueues(item), r, o)
  {
    var t := Stored(q, item, r.now, o);
    if MustFlush(t, o) { FlushLimit(t, false, None, r, o); }
  }

  /** The limit of a drain is that of the flush that started it, and the default if
      that gave none. */
  lemma LimitStays(q: Queue, e: QueueSteps.Event, r: Reading, o: Options)
    requires Control(q) && Possible(q, e, r, o)
    ensures Next(q, e, r, o).drainBytes == LimitAfter(q, e, r, o)
  {
    if MayFlush(e) {
      FlushingLimit(q, e, r, o);
    } else if e.Continues? {
      ContinueLimit(q, r, o);
    } else {
      OtherLimit(q, e, r, o);
    }
  }

  lemma FlushingLimit(q: Queue, e: QueueSteps.Event, r: Reading, o: Options)
    requires Control(q) && MayFlush(e)
    ensures Next(q, e, r, o).drainBytes == LimitAfter(q, e, r, o)
  {
    match e
    case Enqueues(item) => EnqueueLimit(q, item, r, o);
    case Flushes(force, maxBytes) => FlushesLimit(q, force, maxBytes, r, o);
    case Fires => FiresLimit(q, r, o);
    case Resumes => ResumeLimit(q, r, o);
  }

  lemma OtherLimit(q: Queue, e: QueueSteps.Event, r: Reading, o: Options)
    requires Possible(q, e, r, o) && !MayFlush(e) && !e.Continues?
    ensures Next(q, e, r, o).drainBytes == q.drainBytes && !Calls(q, e, r, o)
  {
    if e.Answers? { AnsweredIs(q, e.reply, DelayOf(q.core.work[0], e.reply, e.jitter, o.config.policy), r.now, o); }
  }

  lemma FlushLimit(q: Queue, force: bool, maxBytes: Option<int>, r: Reading, o: Options)
    requires Control(q)
    ensures Flush(q, force, maxBytes, r, o).drainBytes
            == if q.paused || q.draining then q.drainBytes else if maxBytes.Some? then maxBytes.value else o.config.limits.maxBytes
  {
    if !q.paused && !q.draining {
      FlushIs(q, force, maxBytes, r, o);
      SendCounts(StartPass(Begun(q, force, maxBytes, r, o), r, o), r, o);
    }
  }

  lemma FlushesLimit(q: Queue, force: bool, maxBytes: Option<int>, r: Reading, o: Options)
    requires Control(q)
    ensures Flush(q, force, maxBytes, r, o).drainBytes == LimitAfter(q, Flushes(force, maxBytes), r, o)
  {
    FlushLimit(q, force, maxBytes, r, o);
  }

  lemma FiresLimitIs(q: Queue, r: Reading, o: Options)
    ensures LimitAfter(q, Fires, r, o) == if q.paused || q.draining then q.drainBytes else o.config.limits.maxBytes
  {
  }

  lemma FiresLimit(q: Queue, r: Reading, o: Options)
    requires Control(q)
    ensures TimerFires(q, r, o).drainBytes == LimitAfter(q, Fires, r, o)
  {
    FiresLimitIs(q, r, o);
    FiredControl(q);
    FlushLimit(q.(timer := None, gap := q.gap || q.paused), false, None, r, o);
  }

  lemma ResumeLimit(q: Queue, r: Reading, o: Options)
    requires Control(q)
    ensures Resume(q, r, o).drainBytes == LimitAfter(q, Resumes, r, o)
  {
    var t := q.(paused := false);
    ResumedControl(q);
    FlushLimit(t, true, None, r, o);
  }

  lemma ContinueLimit(q: Queue, r: Reading, o: Options)
    ensures Continue(q, r, o).drainBytes == q.drainBytes
  {
    if q.core.work == [] && q.rerun {
      SendCounts(StartPass(q, r, o), r, o);
    } else {
      SendIs(q.(core := q.core.(clock := r.now)), r, o);
    }
  }

  /** `takeAll` hands out the waiting chunks as they are, and what is pending in new
      chunks within its limit. */
  lemma TakeAllKeepsLimit(q: Queue, limit: int, r: Reading, o: Options, i: nat)
    requires CutReady(q.core.pending, r.env) && i < 1_000_000
    ensures var chunks, n := TakenChunks(q, limit, r, o), |q.core.retry|;
            n <= |chunks| && chunks[..n] == q.core.retry && (n + i < |chunks| ==> Within(chunks[n + i], limit))
  {
    CutIsWithin(q.core.pending, r.env, Limits(limit, o.config.limits.maxItems), i);
  }

  lemma TakeAllTakesAll(q: Queue, limit: int, r: Reading, o: Options)
    ensures ItemsOf(TakenChunks(q, limit, r, o)) == ItemsOf(q.core.retry) + q.core.pending.Flat()
    ensures var s := TakeEverything(q, limit, r, o);
            && s.core.retry == [] && s.core.pending == EMPTY && s.timer == None
            && s.core.taken == q.core.taken + TakenChunks(q, limit, r, o)
  {
    var limits := Limits(limit, o.config.limits.maxItems);
    CutKeepsItems(q.core.pending, r.env, limits);
    ItemsOfAppend(q.core.retry, Cut(q.core.pending, r.env, limits));
  }

  // ---------------------------------------------------------------------
  // Thresholds over runs
  // ---------------------------------------------------------------------

  /** What is pending reaches no threshold, or the live drain takes another round. */
  predicate InHand(q: Queue, o: Options) { (q.draining && q.rerun) || !ReachesThreshold(q.core.pending, o) }

  predicate ThresholdsMakeSense(o: Options)
  {
    o.autoFlush && o.config.limits.maxItems >= 1 && o.config.limits.maxBytes >= 1 && o.errorFlushThreshold >= 1
  }

  lemma NoneReaches(pending: Groups<Item>, o: Options)
    requires pending == EMPTY && ThresholdsMakeSense(o)
    ensures !ReachesThreshold(pending, o)
  {
  }

  lemma FlushInHand(q: Queue, force: bool, maxBytes: Option<int>, r: Reading, o: Options)
    requires Control(q) && !q.paused && ThresholdsMakeSense(o)
    ensures InHand(Flush(q, force, maxBytes, r, o), o)
  {
    if q.draining {
      FlushForces(q, force, maxBytes, r, o);
    } else {
      FlushSends(q, force, maxBytes, r, o);
      NoneReaches(Flush(q, force, maxBytes, r, o).core.pending, o);
    }
  }

  lemma EnqueueInHand(q: Queue, item: Item, r: Reading, o: Options)
    requires Control(q) && !q.paused && !q.stopped && ThresholdsMakeSense(o) && q.pendingBytes == PendingBytes(q.core.pending)
    ensures InHand(Enqueue(q, item, r, o), o)
  {
    var t := Stored(q, item, r.now, o);
    StoredBytesAre(q, item, r.now, o);
    if MustFlush(t, o) { FlushInHand(t, false, None, r, o); }
  }

  lemma ContinueInHand(q: Queue, r: Reading, o: Options)
    requires Between(q) && InHand(q, o) && ThresholdsMakeSense(o)
    ensures InHand(Continue(q, r, o), o)
  {
    if q.core.work == [] && q.rerun {
      PassSends(q, r, o);
      NoneReaches(Continue(q, r, o).core.pending, o);
    } else {
      SendIs(q.(core := q.core.(clock := r.now)), r, o);
    }
  }

  lemma FiresInHand(q: Queue, r: Reading, o: Options)
    requires Control(q) && !q.paused && ThresholdsMakeSense(o)
    ensures InHand(TimerFires(q, r, o), o)
  {
    FiredControl(q);
    FlushInHand(q.(timer := None, gap := q.gap || q.paused), false, None, r, o);
  }

  lemma ResumeInHand(q: Queue, r: Reading, o: Options)
    requires Control(q) && ThresholdsMakeSense(o)
    ensures InHand(Resume(q, r, o), o)
  {
    ResumedControl(q);
    FlushInHand(q.(paused := false), true, None, r, o);
  }

  lemma EventInHand(q: Queue, e: QueueSteps.Event, r: Reading, o: Options)
    requires Control(q) && Possible(q, e, r, o) && InHand(q, o) && ThresholdsMakeSense(o) && !q.stopped && !q.paused
    requires q.pendingBytes == PendingBytes(q.core.pending) && !e.Restores?
    ensures InHand(Next(q, e, r, o), o)
  {
    match e
    case Enqueues(item) => EnqueueInHand(q, item, r, o);
    case Flushes(force, maxBytes) => FlushInHand(q, force, maxBytes, r, o);
    case Fires => FiresInHand(q, r, o);
    case Resumes => ResumeInHand(q, r, o);
    case Continues => ContinueInHand(q, r, o);
    case Takes(limit) => NoneReaches(Next(q, e, r, o).core.pending, o);
    case _ =>
  }

  lemma {:induction false} RunInHand(run: seq<Happening>, o: Options)
    requires QueueSteps.Run(run, o).Some? && WakeUp.AlwaysOn(run) && NothingRestored(run) && ThresholdsMakeSense(o)
    ensures InHand(QueueSteps.Run(run, o).value, o)
  {
    if run == [] {
      NoneReaches(EMPTY_QUEUE.core.pending, o);
    } else {
      var init, h := run[..|run|-1], run[|run|-1];
      RunInHand(init, o);
      RunControl(init, o);
      WakeUp.RunOn(init, o);
      Counters.CountersAreExact(init, o);
      EventInHand(QueueSteps.Run(init, o).value, h.event, h.reading, o);
    }
  }

  /** Whenever such a queue is idle, less is pending than starts a flush. */
  lemma IdleIsBelowThresholds(run: seq<Happening>, o: Options)
    requires QueueSteps.Run(run, o).Some? && WakeUp.AlwaysOn(run) && NothingRestored(run) && ThresholdsMakeSense(o)
    requires !QueueSteps.Run(run, o).value.draining
    ensures var pending := QueueSteps.Run(run, o).value.core.pending;
            && |pending.errors| + |pending.traces| + |pending.events| < o.config.limits.maxItems
            && PendingBytes(pending) < o.config.limits.maxBytes && |pending.errors| < o.errorFlushThreshold
  {
    RunInHand(run, o);
  }

  // ---------------------------------------------------------------------
  // The retry timer
  // ---------------------------------------------------------------------

  /** The timer is as before, off, or armed for exactly the first of the waiting
      chunks, and then no later than before. */
  ghost predicate TimerMoves(q: Queue, s: Queue)
  {
    s.timer == q.timer || s.timer == None
    || ((exists c :: c in s.core.retry && s.timer == Some(c.nextAttemptAt))
        && (forall c | c in s.core.retry :: s.timer.value <= c.nextAttemptAt)
        && (q.timer.Some? ==> s.timer.value < q.timer.value))
  }

  lemma FinishTimer(q: Queue)
    ensures var s := Finish(q); TimerMoves(q, s) && (q.timer.Some? ==> s.timer.Some?) && (q.stopped ==> s.timer == q.timer)
  {
  }

  lemma SendTimer(q: Queue, r: Reading, o: Options)
    ensures var s := SendNext(q, r, o); TimerMoves(q, s) && (q.timer.Some? ==> s.timer.Some?) && (q.stopped ==> s.timer == q.timer)
  {
    if q.core.work == [] { FinishTimer(q); }
  }

  lemma PassTimer(q: Queue, r: Reading, o: Options)
    ensures var s := SendNext(StartPass(q, r, o), r, o);
            && TimerMoves(q, s) && (q.timer.Some? ==> s.timer.Some?) && (q.stopped ==> s.timer == q.timer) && s.stopped == q.stopped
  {
    SendTimer(StartPass(q, r, o), r, o);
    SendCounts(StartPass(q, r, o), r, o);
  }

  lemma FlushTimer(q: Queue, force: bool, maxBytes: Option<int>, r: Reading, o: Options)
    requires Control(q)
    ensures var s := Flush(q, force, maxBytes, r, o);
            && TimerMoves(q, s) && (q.timer.Some? ==> s.timer.Some?) && (q.stopped ==> s.timer == q.timer) && s.stopped == q.stopped
  {
    if !q.paused && !q.draining {
      FlushIs(q, force, maxBytes, r, o);
      PassTimer(Begun(q, force, maxBytes, r, o), r, o);
    }
  }

  /** Only the timer itself, `takeAll` and `stop` turn it off, and a stopped queue
      arms none. */
  ghost predicate TimerKept(q: Queue, e: QueueSteps.Event, s: Queue)
  {
    && TimerMoves(if e.Fires? then q.(timer := None) else q, s)
    && (q.timer.Some? && s.timer == None ==> e.Fires? || e.Takes? || e.Stops?)
    && ((q.stopped ==> q.timer == None) ==> (s.stopped ==> s.timer == None))
  }

  lemma EnqueueTimer(q: Queue, item: Item, r: Reading, o: Options)
    requires Control(q)
    ensures TimerKept(q, Enqueues(item), Enqueue(q, item, r, o))
  {
    var t := Stored(q, item, r.now, o);
    if MustFlush(t, o) { FlushTimer(t, false, None, r, o); }
  }

  lemma FiresTimer(q: Queue, r: Reading, o: Options)
    requires Control(q)
    ensures TimerKept(q, Fires, TimerFires(q, r, o))
  {
    FiredControl(q);
    FlushTimer(q.(timer := None, gap := q.gap || q.paused), false, None, r, o);
  }

  lemma ResumeTimer(q: Queue, r: Reading, o: Options)
    requires Control(q)
    ensures TimerKept(q, Resumes, Resume(q, r, o))
  {
    ResumedControl(q);
    FlushTimer(q.(paused := false), true, None, r, o);
  }

  lemma ContinueTimer(q: Queue, r: Reading, o: Options)
    ensures TimerKept(q, Continues, Continue(q, r, o))
  {
    if q.core.work == [] && q.rerun {
      PassTimer(q, r, o);
    } else {
      var t := q.(core := q.core.(clock := r.now));
      SendTimer(t, r, o);
      SendCounts(t, r, o);
    }
  }

  lemma EventTimer(q: Queue, e: QueueSteps.Event, r: Reading, o: Options)
    requires Control(q) && Possible(q, e, r, o)
    ensures TimerKept(q, e, Next(q, e, r, o))
  {
    if MayFlush(e) {
      FlushingTimer(q, e, r, o);
    } else if e.Continues? {
      ContinueTimer(q, r, o);
    } else {
      OtherTimer(q, e, r, o);
    }
  }

  lemma FlushingTimer(q: Queue, e: QueueSteps.Event, r: Reading, o: Options)
    requires Control(q) && MayFlush(e)
    ensures TimerKept(q, e, Next(q, e, r, o))
  {
    match e
    case Enqueues(item) => EnqueueTimer(q, item, r, o);
    case Flushes(force, maxBytes) => FlushesTimer(q, force, maxBytes, r, o);
    case Fires => FiresTimer(q, r, o);
    case Resumes => ResumeTimer(q, r, o);
  }

  lemma FlushesTimer(q: Queue, force: bool, maxBytes: Option<int>, r: Reading, o: Options)
    requires Control(q)
    ensures TimerKept(q, Flushes(force, maxBytes), Flush(q, force, maxBytes, r, o))
  {
    FlushTimer(q, force, maxBytes, r, o);
  }

  lemma OtherTimer(q: Queue, e: QueueSteps.Event, r: Reading, o: Options)
    requires Possible(q, e, r, o) && !MayFlush(e) && !e.Continues?
    ensures TimerKept(q, e, Next(q, e, r, o))
  {
    if e.Answers? { AnsweredIs(q, e.reply, DelayOf(q.core.work[0], e.reply, e.jitter, o.config.policy), r.now, o); }
  }

  function TimesOf(chunks: seq<Chunk>): set<int> { set c | c in chunks :: c.nextAttemptAt }

  /** The retry times of all chunks that waited at some moment of the run. */
  ghost function DueTimes(run: seq<Happening>, o: Options): set<int>
    requires QueueSteps.Run(run, o).Some?
  {
    (if run == [] then {} else DueTimes(run[..|run|-1], o)) + TimesOf(QueueSteps.Run(run, o).value.core.retry)
  }

  /** An armed timer has a cause, and a stopped queue has none armed. */
  ghost predicate Caused(times: set<int>, q: Queue)
  {
    (q.timer.Some? ==> q.timer.value in times) && (q.stopped ==> q.timer == None)
  }

  lemma MovedCause(times: set<int>, q: Queue, s: Queue)
    requires TimerMoves(q, s) && (q.timer.Some? ==> q.timer.value in times)
    ensures s.timer.Some? ==> s.timer.value in times + TimesOf(s.core.retry)
  {
    if s.timer.Some? && s.timer != q.timer {
      var c :| c in s.core.retry && s.timer == Some(c.nextAttemptAt);
      assert c.nextAttemptAt in TimesOf(s.core.retry);
    }
  }

  lemma KeptCause(times: set<int>, q: Queue, e: QueueSteps.Event, s: Queue)
    requires TimerKept(q, e, s) && Caused(times, q)
    ensures Caused(times + TimesOf(s.core.retry), s)
  {
    MovedCause(times, if e.Fires? then q.(timer := None) else q, s);
  }

  lemma StepCause(times: set<int>, q: Queue, h: Happening, o: Options, s: Queue)
    ensures Control(q) && Possible(q, h.event, h.reading, o) && s == Next(q, h.event, h.reading, o) && Caused(times, q) ==>
              Caused(times + TimesOf(s.core.retry), s)
  {
    if Control(q) && Possible(q, h.event, h.reading, o) && s == Next(q, h.event, h.reading, o) && Caused(times, q) {
      EventTimer(q, h.event, h.reading, o);
      KeptCause(times, q, h.event, s);
    }
  }

  lemma {:induction false} RunCaused(run: seq<Happening>, o: Options)
    requires QueueSteps.Run(run, o).Some?
    ensures Caused(DueTimes(run, o), QueueSteps.Run(run, o).value)
  {
    if run != [] {
      var init := run[..|run|-1];
      RunCaused(init, o);
      RunControl(init, o);
      StepCause(DueTimes(init, o), QueueSteps.Run(init, o).value, run[|run|-1], o, QueueSteps.Run(run, o).value);
    }
  }

  /** The timer is never armed too early: it is armed for the retry time of a chunk
      that waited; and a stopped queue has none armed. With `NoLostWakeUp`, which
      says that it is not armed too late, this fixes the timer. */
  lemma TimerHasACause(run: seq<Happening>, o: Options)
    requires QueueSteps.Run(run, o).Some?
    ensures var q := QueueSteps.Run(run, o).value;
            (q.timer.Some? ==> q.timer.value in DueTimes(run, o)) && (q.stopped ==> q.timer == None)
  {
    RunCaused(run, o);
  }
}
