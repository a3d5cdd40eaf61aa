/** No wake-up is lost: whenever the queue is idle and chunks wait for a retry,
    the retry timer is armed for no later than the first of them. */
module WakeUp {
  import opened Json
  import opened QueueSteps
  import opened QueueRefines

  /** A timer is armed at or before the time at which the first chunk is due. */
  ghost predicate Armed(q: Queue) { q.timer.Some? && forall c | c in q.core.retry :: q.timer.value <= c.nextAttemptAt }

  ghost predicate Awake(q: Queue)
  {
    (q.stopped ==> q.gap) && (!q.draining && !q.gap && q.core.retry != [] ==> Armed(q))
  }

  lemma FinishAwake(q: Queue)
    requires q.stopped ==> q.gap
    ensures Awake(Finish(q)) && (!q.stopped ==> !Finish(q).gap)
  {
  }

  lemma SendNextAwake(q: Queue, r: Reading, o: Options)
    requires q.draining && (q.stopped ==> q.gap)
    ensures var s := SendNext(q, r, o);
            Awake(s) && s.stopped == q.stopped && s.paused == q.paused && (!q.stopped ==> s.draining || !s.gap)
  {
    if q.core.work == [] { FinishAwake(q); }
  }

  /** After a flush of a queue that is neither stopped nor paused, a drain runs
      or has finished. */
  lemma FlushAwake(q: Queue, force: bool, maxBytes: Option<int>, r: Reading, o: Options)
    requires Control(q) && Timely(q, r) && (q.stopped ==> q.gap) && (q.paused ==> Awake(q))
    ensures var s := Flush(q, force, maxBytes, r, o);
            Awake(s) && s.stopped == q.stopped && s.paused == q.paused && (!q.stopped && !q.paused ==> s.draining || !s.gap)
  {
    if !q.paused && !q.draining {
      FlushIs(q, force, maxBytes, r, o);
      var b := Begun(q, force, maxBytes, r, o);
      StartPassBetween(b, r, o);
      SendNextAwake(StartPass(b, r, o), r, o);
    }
  }

  lemma ContinueAwake(q: Queue, r: Reading, o: Options)
    requires Awake(q) && Between(q) && Timely(q, r)
    ensures var s := Continue(q, r, o); Awake(s) && s.stopped == q.stopped && s.paused == q.paused && (!q.stopped ==> s.draining || !s.gap)
  {
    if q.core.work == [] && q.rerun {
      StartPassBetween(q, r, o);
      SendNextAwake(StartPass(q, r, o), r, o);
    } else {
      SendNextAwake(q.(core := q.core.(clock := r.now)), r, o);
    }
  }

  lemma FlushingAwake(q: Queue, e: QueueSteps.Event, r: Reading, o: Options)
    requires Awake(q) && Control(q) && Possible(q, e, r, o) && MayFlush(e)
    ensures Awake(Next(q, e, r, o))
  {
    match e
    case Enqueues(item) =>
      if MustFlush(Stored(q, item, r.now, o), o) { FlushAwake(Stored(q, item, r.now, o), false, None, r, o); }
    case Flushes(force, maxBytes) => FlushAwake(q, force, maxBytes, r, o);
    case Fires => FlushAwake(q.(timer := None, gap := q.gap || q.paused), false, None, r, o);
    case Resumes => FlushAwake(q.(paused := false), true, None, r, o);
  }

  lemma OtherAwake(q: Queue, e: QueueSteps.Event, r: Reading, o: Options)
    requires Awake(q) && Control(q) && Possible(q, e, r, o) && !MayFlush(e)
    ensures Awake(Next(q, e, r, o))
  {
    match e
    case Answers(reply, jitter) =>
    case Continues => ContinueAwake(q, r, o);
    case Settles(p) =>
    case Starts =>
    case Stops =>
    case Pauses =>
    case Takes(limit) =>
    case Restores(items, chunks) =>
  }

  lemma {:induction false} RunAwake(run: seq<Happening>, o: Options)
    requires QueueSteps.Run(run, o).Some?
    ensures Awake(QueueSteps.Run(run, o).value)
  {
    if run != [] {
      var init, h := run[..|run|-1], run[|run|-1];
      RunAwake(init, o);
      RunControl(init, o);
      var q := QueueSteps.Run(init, o).value;
      if MayFlush(h.event) { FlushingAwake(q, h.event, h.reading, o); } else { OtherAwake(q, h.event, h.reading, o); }
    }
  }

  /** The queue was never stopped or paused. */
  predicate AlwaysOn(run: seq<Happening>) { forall i | 0 <= i < |run| :: !run[i].event.Stops? && !run[i].event.Pauses? }

  predicate IsFlush(e: QueueSteps.Event) { e.Flushes? || e.Resumes? }

  /** Nothing was restored from the `from`-th event on, and that is the first
      event or the one after a flush. */
  predicate NothingRestoredSince(run: seq<Happening>, from: nat)
  {
    from <= |run| && (from == 0 || IsFlush(run[from - 1].event)) && forall i | from <= i < |run| :: !run[i].event.Restores?
  }

  /** A drain is running, or none of the waiting chunks lacks a timer. */
  predicate Watched(q: Queue) { !q.stopped && !q.paused && (q.draining || !q.gap) }

  lemma FlushingOn(q: Queue, e: QueueSteps.Event, r: Reading, o: Options)
    requires Control(q) && Awake(q) && Possible(q, e, r, o) && !q.stopped && !q.paused && MayFlush(e)
    ensures var s := Next(q, e, r, o); !s.stopped && !s.paused && (IsFlush(e) || Watched(q) ==> Watched(s))
  {
    match e
    case Enqueues(item) =>
      if MustFlush(Stored(q, item, r.now, o), o) { FlushAwake(Stored(q, item, r.now, o), false, None, r, o); }
    case Flushes(force, maxBytes) => FlushAwake(q, force, maxBytes, r, o);
    case Fires => FlushAwake(q.(timer := None), false, None, r, o);
    case Resumes => FlushAwake(q, true, None, r, o);
  }

  lemma NextOn(q: Queue, e: QueueSteps.Event, r: Reading, o: Options)
    requires Control(q) && Awake(q) && Possible(q, e, r, o) && !q.stopped && !q.paused && !e.Stops? && !e.Pauses?
    ensures var s := Next(q, e, r, o); !s.stopped && !s.paused && (IsFlush(e) || (Watched(q) && !e.Restores?) ==> Watched(s))
  {
    if MayFlush(e) {
      FlushingOn(q, e, r, o);
    } else if e.Continues? {
      ContinueAwake(q, r, o);
    }
  }

  lemma {:induction false} RunOn(run: seq<Happening>, o: Options)
    requires QueueSteps.Run(run, o).Some? && AlwaysOn(run)
    ensures var q := QueueSteps.Run(run, o).value; !q.stopped && !q.paused
  {
    if run != [] {
      var init, h := run[..|run|-1], run[|run|-1];
      RunOn(init, o);
      RunControl(init, o);
      RunAwake(init, o);
      NextOn(QueueSteps.Run(init, o).value, h.event, h.reading, o);
    }
  }

  lemma {:induction false} RunWatched(run: seq<Happening>, from: nat, o: Options)
    requires QueueSteps.Run(run, o).Some? && AlwaysOn(run) && NothingRestoredSince(run, from)
    ensures Watched(QueueSteps.Run(run, o).value)
  {
    if run != [] {
      var init, h := run[..|run|-1], run[|run|-1];
      RunOn(init, o);
      RunControl(init, o);
      RunAwake(init, o);
      if from < |run| { RunWatched(init, from, o); }
      NextOn(QueueSteps.Run(init, o).value, h.event, h.reading, o);
    }
  }

  /** In every reachable idle state of a queue that was never stopped or paused,
      with no restore since the last flush or at all, waiting chunks have a timer
      armed for no later than the first of them: through forced flushes, timers
      that fire during a drain, and `takeAll`. */
  lemma NoLostWakeUp(run: seq<Happening>, from: nat, o: Options)
    requires QueueSteps.Run(run, o).Some? && AlwaysOn(run) && NothingRestoredSince(run, from)
    ensures var q := QueueSteps.Run(run, o).value; !q.draining && q.core.retry != [] ==> Armed(q)
  {
    RunAwake(run, o);
    RunWatched(run, from, o);
  }
}
