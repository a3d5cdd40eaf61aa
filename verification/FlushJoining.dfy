/** Concurrent calls of `flush` share one drain loop, and none is forgotten:
    when the promise it returned settles, everything that was pending at the
    call has been sent, and so has every waiting chunk that the call covered. */
module FlushJoining {
  import opened Json
  import opened Chunker
  import opened Packing
  import opened Delivery
  import opened KeyHistory
  import opened QueueSteps
  import opened QueueRefines

  /** Sent at least once, dropped by the bound, or handed out. */
  ghost predicate ItemServed(c: State, x: Item) { x in c.attempted || x in c.overflowed || x in ItemsOf(c.taken) }

  /** Sent again since `mark`, evicted from the retry list, or handed out. */
  ghost predicate ChunkServed(c: State, d: Chunk, mark: nat)
  {
    || d in c.evicted || d in c.taken
    || exists i :: mark <= i < |c.log| && c.log[i].Sent? && c.log[i].key == d.key && c.log[i].attempt == d.attempts + 1
  }

  /** The promise belongs to the drain that is running. */
  predicate Live(q: Queue, promise: nat) { q.draining && promise + 1 == q.promises }

  /** An item that the running drain still has to send; with `again` the drain
      is going to take another round. */
  ghost predicate ItemComing(q: Queue, x: Item, again: bool)
  {
    x in ItemsOf(ToSend(q.core)) || (again && x in q.core.pending.Flat())
  }

  ghost predicate ChunkComing(q: Queue, d: Chunk, again: bool)
  {
    d in ToSend(q.core) || (again && d in q.core.retry && IsDue(d, q.forceNext, q.core.clock))
  }

  ghost predicate CallKept(q: Queue, call: Call, again: bool)
  {
    && (forall x | x in call.items :: ItemServed(q.core, x) || (Live(q, call.promise) && ItemComing(q, x, again)))
    && (forall d | d in call.chunks :: ChunkServed(q.core, d, call.mark) || (Live(q, call.promise) && ChunkComing(q, d, again)))
    && call.promise < q.promises
  }

  ghost predicate CallsKept(q: Queue, again: bool) { forall call | call in q.calls :: CallKept(q, call, again) }

  // ---------------------------------------------------------------------
  // Machine steps
  // ---------------------------------------------------------------------

  lemma {:induction false} InItems(chunks: seq<Chunk>, x: Item) returns (i: nat)
    requires x in ItemsOf(chunks)
    ensures i < |chunks| && x in chunks[i].items
  {
    var last := chunks[|chunks|-1];
    if x in last.items {
      i := |chunks| - 1;
    } else {
      i := InItems(chunks[..|chunks|-1], x);
    }
  }

  lemma {:induction false} ItemsIn(chunks: seq<Chunk>, c: Chunk, x: Item)
    requires c in chunks && x in c.items
    ensures x in ItemsOf(chunks)
  {
    if c != chunks[|chunks|-1] { ItemsIn(chunks[..|chunks|-1], c, x); }
  }

  lemma ItemsSubset(a: seq<Chunk>, b: seq<Chunk>, x: Item)
    requires x in ItemsOf(a) && forall c | c in a :: c in b
    ensures x in ItemsOf(b)
  {
    var i := InItems(a, x);
    ItemsIn(b, a[i], x);
  }

  /** What was served stays served. */
  ghost predicate Grows(a: State, b: State)
  {
    a.attempted <= b.attempted && a.overflowed <= b.overflowed && a.taken <= b.taken && a.evicted <= b.evicted && a.log <= b.log
  }

  lemma StillServed(a: State, b: State, x: Item)
    requires Grows(a, b) && ItemServed(a, x)
    ensures ItemServed(b, x)
  {
    if x in ItemsOf(a.taken) { ItemsSubset(a.taken, b.taken, x); }
  }

  lemma ChunkStillServed(a: State, b: State, d: Chunk, mark: nat)
    requires Grows(a, b) && ChunkServed(a, d, mark)
    ensures ChunkServed(b, d, mark)
  {
    if d !in a.evicted && d !in a.taken {
      var i :| mark <= i < |a.log| && a.log[i].Sent? && a.log[i].key == d.key && a.log[i].attempt == d.attempts + 1;
      assert b.log[i] == a.log[i];
    }
  }

  /** A change of the queue that serves or keeps coming whatever was coming. */
  ghost predicate Serves(q: Queue, again: bool, s: Queue, later: bool)
  {
    && Grows(q.core, s.core) && q.promises <= s.promises
    && (forall x | ItemComing(q, x, again) :: ItemServed(s.core, x) || (s.draining && s.promises == q.promises && ItemComing(s, x, later)))
    && (forall d, mark: nat | ChunkComing(q, d, again) && mark <= |q.core.log| ::
         ChunkServed(s.core, d, mark) || (s.draining && s.promises == q.promises && ChunkComing(s, d, later)))
  }

  ghost predicate MarksOk(q: Queue) { forall call | call in q.calls :: call.mark <= |q.core.log| }

  lemma ServesKeeps(q: Queue, again: bool, s: Queue, later: bool)
    requires CallsKept(q, again) && MarksOk(q) && Serves(q, again, s, later) && s.calls == q.calls
    ensures CallsKept(s, later) && MarksOk(s)
  {
    forall call | call in s.calls ensures CallKept(s, call, later) {
      assert CallKept(q, call, again);
      forall x | x in call.items ensures ItemServed(s.core, x) || (Live(s, call.promise) && ItemComing(s, x, later)) {
        if ItemServed(q.core, x) { StillServed(q.core, s.core, x); }
      }
      forall d | d in call.chunks ensures ChunkServed(s.core, d, call.mark) || (Live(s, call.promise) && ChunkComing(s, d, later)) {
        if ChunkServed(q.core, d, call.mark) { ChunkStillServed(q.core, s.core, d, call.mark); }
      }
    }
  }

  lemma Halves(a: seq<Item>, i: nat, x: Item)
    requires i <= |a| && x in a
    ensures x in a[..i] || x in a[i..]
  {
    assert a == a[..i] + a[i..];
  }

  lemma KeptOrDropped(g: Groups<Item>, max: int, x: Item)
    requires x in g.Flat()
    ensures x in Kept(g, max).Flat() || x in Dropped(g, max)
  {
    var c := DropCounts(g, max);
    if x in g.errors { Halves(g.errors, c.errors, x); }
    if x in g.traces { Halves(g.traces, c.traces, x); }
    if x in g.events { Halves(g.events, c.events, x); }
  }

  /** Taking something in does not lose what was pending. */
  lemma BoundServes(q: Queue, s: Queue, g: Groups<Item>, max: int, again: bool)
    requires forall x | x in q.core.pending.Flat() :: x in g.Flat()
    requires s.core.pending == Kept(g, max) && s.core.overflowed == q.core.overflowed + Dropped(g, max)
    requires Grows(q.core, s.core) && ToSend(s.core) == ToSend(q.core)
    requires s.draining == q.draining && s.promises == q.promises && s.forceNext == q.forceNext && q.core.clock <= s.core.clock
    requires q.draining || !again
    requires !q.draining ==> ToSend(q.core) == []
    requires q.core.retry <= s.core.retry
    ensures Serves(q, again, s, again)
  {
    forall x | ItemComing(q, x, again) ensures ItemServed(s.core, x) || (s.draining && ItemComing(s, x, again)) {
      if x !in ItemsOf(ToSend(q.core)) { KeptOrDropped(g, max, x); }
    }
    assert ItemsOf([]) == [];
  }

  // ---------------------------------------------------------------------
  // The drain
  // ---------------------------------------------------------------------

  lemma BeginServes(c: State, force: bool, cut: seq<Chunk>, now: int)
    requires c.work == [] && !c.flying && ItemsOf(cut) == c.pending.Flat()
    ensures var t := BeginStep(c, force, cut, now).(clock := now);
            && Grows(c, t) && t.pending == EMPTY
            && (forall x | x in c.pending.Flat() :: x in ItemsOf(ToSend(t)))
            && (forall d | d in c.retry && IsDue(d, force, now) :: d in ToSend(t))
  {
    var t := BeginStep(c, force, cut, now).(clock := now);
    DueMembers(c.retry, force, now);
    assert ToSend(t) == Due(c.retry, force, now) + cut;
    ItemsOfAppend(Due(c.retry, force, now), cut);
  }

  lemma PassServes(q: Queue, r: Reading, o: Options)
    requires Between(q) && q.core.work == [] && Timely(q, r)
    ensures Serves(q, true, StartPass(q, r, o), false)
  {
    CutIsCut(q.core.pending, r.env, Limits(q.drainBytes, o.config.limits.maxItems), q.core.keys);
    BeginServes(q.core, q.forceNext, CutOf(q, q.drainBytes, r, o), r.now);
    assert ToSend(q.core) == [] && ItemsOf([]) == [];
    forall d | d in q.core.retry && IsDue(d, q.forceNext, q.core.clock) ensures IsDue(d, q.forceNext, r.now) { }
  }

  lemma LaunchServes(q: Queue, s: Queue, again: bool, now: int)
    requires q.core.work != [] && !q.core.flying && q.core.clock <= now
    requires s == q.(core := LaunchStep(q.core, now).(clock := now)) && q.draining
    ensures Serves(q, again, s, again)
  {
    var c := q.core.work[0];
    assert ToSend(q.core) == q.core.work && ToSend(s.core) == q.core.work[1..];
    ItemsOfHead(q.core.work);
    var e := s.core.log[|q.core.log|];
    assert s.core.log == q.core.log + [e] && e.Sent? && e.key == c.key && e.attempt == c.attempts + 1;
    forall d, mark: nat | ChunkComing(q, d, again) && mark <= |q.core.log|
      ensures ChunkServed(s.core, d, mark) || ChunkComing(s, d, again)
    {
      if d == c { assert s.core.log[|q.core.log|] == e; }
    }
  }

  lemma SendNextServes(q: Queue, r: Reading, o: Options)
    requires Between(q) && q.core.clock <= r.now
    ensures Serves(q, false, SendNext(q, r, o), false)
  {
    if q.core.work != [] {
      LaunchServes(q, SendNext(q, r, o), false, r.now);
    } else {
      assert ToSend(q.core) == [] && ItemsOf([]) == [];
      assert SendNext(q, r, o).core == q.core;
    }
  }

  /** What keeps calls does not look at promises and timers. */
  lemma SendNextRest(q: Queue, r: Reading, o: Options)
    ensures var s := SendNext(q, r, o);
            s.calls == q.calls && s.rerun == q.rerun && s.promises == q.promises && (s.draining ==> q.draining)
  {
  }

  /** A drain that starts or takes another round serves everything. */
  lemma DrainKeeps(q: Queue, r: Reading, o: Options)
    requires Between(q) && q.core.work == [] && Timely(q, r) && CallsKept(q, true) && MarksOk(q)
    ensures var s := SendNext(StartPass(q, r, o), r, o);
            CallsKept(s, false) && MarksOk(s) && !s.rerun && s.calls == q.calls && s.promises == q.promises
  {
    var p := StartPass(q, r, o);
    StartPassBetween(q, r, o);
    PassServes(q, r, o);
    ServesKeeps(q, true, p, false);
    SendNextServes(p, r, o);
    SendNextRest(p, r, o);
    ServesKeeps(p, false, SendNext(p, r, o), false);
  }

  ghost predicate AllKept(q: Queue) { CallsKept(q, q.rerun) && MarksOk(q) && (!q.draining ==> !q.rerun) }

  lemma RunningIrrelevant(q: Queue, running: Option<nat>, again: bool)
    requires CallsKept(q, again) && MarksOk(q)
    ensures CallsKept(q.(running := running), again) && MarksOk(q.(running := running))
  {
    forall call | call in q.calls ensures CallKept(q.(running := running), call, again) {
      assert CallKept(q, call, again);
      Unmoved(q, q.(running := running), call, again);
    }
  }

  lemma Unmoved(q: Queue, s: Queue, call: Call, again: bool)
    requires CallKept(q, call, again)
    requires s.core == q.core && s.draining == q.draining && s.promises == q.promises && s.forceNext == q.forceNext
    ensures CallKept(s, call, again)
  {
    forall x | x in call.items ensures ItemServed(s.core, x) || (Live(s, call.promise) && ItemComing(s, x, again)) {
      assert ItemServed(q.core, x) || ItemComing(q, x, again);
    }
    forall d | d in call.chunks ensures ChunkServed(s.core, d, call.mark) || (Live(s, call.promise) && ChunkComing(s, d, again)) {
      assert ChunkServed(q.core, d, call.mark) || ChunkComing(q, d, again);
    }
  }

  lemma BegunKeeps(q: Queue, force: bool, maxBytes: Option<int>, r: Reading, o: Options)
    requires AllKept(q) && Control(q) && !q.draining && Timely(q, r)
    ensures var b := Begun(q, force, maxBytes, r, o); CallsKept(b, true) && MarksOk(b) && Between(b)
  {
    var b := Begun(q, force, maxBytes, r, o);
    DueMembers(q.core.retry, force, r.now);
    forall call | call in b.calls ensures CallKept(b, call, true) {
      if call in q.calls {
        assert CallKept(q, call, q.rerun);
        forall x | x in call.items ensures ItemServed(b.core, x) { StillServed(q.core, b.core, x); }
        forall d | d in call.chunks ensures ChunkServed(b.core, d, call.mark) { ChunkStillServed(q.core, b.core, d, call.mark); }
      } else {
        assert call == b.calls[|q.calls|];
      }
    }
  }

  lemma RerunServes(q: Queue, t: Queue)
    requires q.draining && q.core.clock <= t.core.clock && t.core == q.core.(clock := t.core.clock)
    requires t.draining && t.promises == q.promises && (q.forceNext ==> t.forceNext)
    ensures Serves(q, q.rerun, t, true)
  {
    assert ToSend(t.core) == ToSend(q.core);
  }

  /** The call that joins is covered by the next round. */
  lemma JoinerKept(s: Queue, call: Call, force: bool, now: int)
    requires s.draining && call.promise + 1 == s.promises && (force ==> s.forceNext) && s.core.clock == now
    requires call.items == s.core.pending.Flat() && call.chunks == Due(s.core.retry, force, now)
    ensures CallKept(s, call, true)
  {
    DueMembers(s.core.retry, force, now);
  }

  lemma JoinKeeps(q: Queue, force: bool, r: Reading)
    requires AllKept(q) && Control(q) && q.draining && Timely(q, r)
    ensures AllKept(Recorded(q, q.running.value, force, r.now).(rerun := true, forceNext := q.forceNext || force))
  {
    var s := Recorded(q, q.running.value, force, r.now).(rerun := true, forceNext := q.forceNext || force);
    var t := s.(calls := q.calls);
    RerunServes(q, t);
    ServesKeeps(q, q.rerun, t, true);
    forall call | call in s.calls ensures CallKept(s, call, true) {
      if call in q.calls {
        Unmoved(t, s, call, true);
      } else {
        assert call == s.calls[|q.calls|];
        JoinerKept(s, call, force, r.now);
      }
    }
  }

  lemma FlushKeeps(q: Queue, force: bool, maxBytes: Option<int>, r: Reading, o: Options)
    requires AllKept(q) && Control(q) && Timely(q, r)
    ensures AllKept(Flush(q, force, maxBytes, r, o))
  {
    if !q.paused {
      if q.draining {
        JoinKeeps(q, force, r);
      } else {
        FlushIs(q, force, maxBytes, r, o);
        var b := Begun(q, force, maxBytes, r, o);
        BegunKeeps(q, force, maxBytes, r, o);
        DrainKeeps(b, r, o);
        RunningIrrelevant(SendNext(StartPass(b, r, o), r, o), Some(q.promises), false);
      }
    }
  }

  lemma ContinueKeeps(q: Queue, r: Reading, o: Options)
    requires AllKept(q) && Control(q) && Timely(q, r) && Between(q)
    ensures AllKept(Continue(q, r, o))
  {
    if q.core.work == [] && q.rerun {
      DrainKeeps(q, r, o);
    } else {
      var t := q.(core := q.core.(clock := r.now));
      var s := SendNext(t, r, o);
      assert Serves(q, q.rerun, t, q.rerun) by { assert ToSend(t.core) == ToSend(q.core); }
      ServesKeeps(q, q.rerun, t, q.rerun);
      SendNextRest(t, r, o);
      if q.core.work != [] {
        LaunchServes(t, s, q.rerun, r.now);
      } else {
        SendNextServes(t, r, o);
      }
      ServesKeeps(t, q.rerun, s, q.rerun);
    }
  }

  // ---------------------------------------------------------------------
  // The other events
  // ---------------------------------------------------------------------

  lemma StoredKeeps(q: Queue, item: Item, now: int, o: Options)
    requires AllKept(q) && Control(q) && q.core.clock <= now
    ensures AllKept(Stored(q, item, now, o))
  {
    var s, g := Stored(q, item, now, o), Push(q.core.pending, item);
    forall x | x in q.core.pending.Flat() ensures x in g.Flat() { }
    assert ToSend(s.core) == ToSend(q.core);
    BoundServes(q, s, g, o.config.maxQueueItems, q.rerun);
    ServesKeeps(q, q.rerun, s, q.rerun);
  }

  lemma RestoredKeeps(q: Queue, items: Groups<Item>, chunks: seq<Chunk>, now: int, o: Options)
    requires AllKept(q) && Control(q) && q.core.clock <= now
    ensures AllKept(Restored(q, items, chunks, now, o))
  {
    var s, g := Restored(q, items, chunks, now, o), Merged(items, q.core.pending);
    forall x | x in q.core.pending.Flat() ensures x in g.Flat() { }
    assert ToSend(s.core) == ToSend(q.core);
    BoundServes(q, s, g, o.config.maxQueueItems, q.rerun);
    ServesKeeps(q, q.rerun, s, q.rerun);
  }

  /** A waiting chunk is still waiting after a reply, or evicted. */
  lemma AnswerWaits(c: State, reply: Reply, delay: int, now: int, cfg: Config, d: Chunk)
    requires Aloft(c) && d in c.retry
    ensures var t := AnswerStep(c, reply, delay, now, cfg); d in t.retry || d in t.evicted
  {
    var retry := c.retry + [c.work[0].(nextAttemptAt := now + delay)];
    assert retry == retry[..Excess(retry)] + retry[Excess(retry)..];
    assert d in retry;
  }

  lemma AnsweredKeeps(q: Queue, reply: Reply, delay: int, now: int, o: Options)
    requires AllKept(q) && Control(q) && q.draining && q.core.flying && q.core.clock <= now
    ensures AllKept(Answered(q, reply, delay, now, o))
  {
    var s := Answered(q, reply, delay, now, o);
    assert ToSend(s.core) == q.core.work[1..] == ToSend(q.core);
    forall d | d in q.core.retry ensures d in s.core.retry || d in s.core.evicted {
      AnswerWaits(q.core, reply, delay, now, o.config, d);
    }
    ServesKeeps(q, q.rerun, s, q.rerun);
  }

  lemma TakeServes(c: State, cut: seq<Chunk>)
    requires ItemsOf(cut) == c.pending.Flat()
    ensures var t := TakeAllStep(c, cut);
            && Grows(c, t) && ToSend(t) == ToSend(c)
            && (forall x | x in c.pending.Flat() :: x in ItemsOf(t.taken)) && (forall d | d in c.retry :: d in t.taken)
  {
    ItemsOfAppend(c.taken, c.retry + cut);
    ItemsOfAppend(c.retry, cut);
  }

  lemma TakeWith(q: Queue, cut: seq<Chunk>, now: int)
    requires AllKept(q) && Control(q) && q.core.clock <= now && ItemsOf(cut) == q.core.pending.Flat()
    ensures AllKept(q.(core := TakeAllStep(q.core, cut).(clock := now), pendingBytes := 0, timer := None))
  {
    var s := q.(core := TakeAllStep(q.core, cut).(clock := now), pendingBytes := 0, timer := None);
    TakeServes(q.core, cut);
    assert ItemsOf([]) == [];
    ServesKeeps(q, q.rerun, s, q.rerun);
  }

  lemma TakeKeeps(q: Queue, limit: int, r: Reading, o: Options)
    requires AllKept(q) && Control(q) && Timely(q, r)
    ensures AllKept(TakeEverything(q, limit, r, o))
  {
    CutKeepsItems(q.core.pending, r.env, Limits(limit, o.config.limits.maxItems));
    TakeWith(q, CutOf(q, limit, r, o), r.now);
  }

  /** Changes of the fields around the machine. */
  lemma AsideKeeps(q: Queue, s: Queue)
    requires AllKept(q)
    requires s.core == q.core && s.draining == q.draining && s.promises == q.promises && s.forceNext == q.forceNext
    requires s.calls == q.calls && s.rerun == q.rerun
    ensures AllKept(s)
  {
    forall call | call in s.calls ensures CallKept(s, call, s.rerun) {
      Unmoved(q, s, call, q.rerun);
    }
  }

  lemma NextKeeps(q: Queue, e: QueueSteps.Event, r: Reading, o: Options)
    requires AllKept(q) && Control(q) && Possible(q, e, r, o)
    ensures AllKept(Next(q, e, r, o))
  {
    if MayFlush(e) { FlushingKeeps(q, e, r, o); } else { OtherKeeps(q, e, r, o); }
  }

  lemma FlushingKeeps(q: Queue, e: QueueSteps.Event, r: Reading, o: Options)
    requires AllKept(q) && Control(q) && Possible(q, e, r, o) && MayFlush(e)
    ensures AllKept(Next(q, e, r, o))
  {
    match e
    case Enqueues(item) =>
      StoredKeeps(q, item, r.now, o);
      if MustFlush(Stored(q, item, r.now, o), o) { FlushKeeps(Stored(q, item, r.now, o), false, None, r, o); }
    case Flushes(force, maxBytes) => FlushKeeps(q, force, maxBytes, r, o);
    case Fires =>
      AsideKeeps(q, q.(timer := None, gap := q.gap || q.paused));
      FlushKeeps(q.(timer := None, gap := q.gap || q.paused), false, None, r, o);
    case Resumes =>
      AsideKeeps(q, q.(paused := false));
      FlushKeeps(q.(paused := false), true, None, r, o);
  }

  lemma OtherKeeps(q: Queue, e: QueueSteps.Event, r: Reading, o: Options)
    requires AllKept(q) && Control(q) && Possible(q, e, r, o) && !MayFlush(e)
    ensures AllKept(Next(q, e, r, o))
  {
    match e
    case Answers(reply, jitter) => AnsweredKeeps(q, reply, DelayOf(q.core.work[0], reply, jitter, o.config.policy), r.now, o);
    case Continues => ContinueKeeps(q, r, o);
    case Settles(p) => AsideKeeps(q, Settle(q, p));
    case Starts => AsideKeeps(q, Start(q));
    case Stops => AsideKeeps(q, Stop(q));
    case Pauses => AsideKeeps(q, Pause(q));
    case Takes(limit) => TakeKeeps(q, limit, r, o);
    case Restores(items, chunks) => RestoredKeeps(q, items, chunks, r.now, o);
  }

  lemma {:induction false} RunKeepsCalls(run: seq<Happening>, o: Options)
    requires QueueSteps.Run(run, o).Some?
    ensures AllKept(QueueSteps.Run(run, o).value)
  {
    if run != [] {
      RunKeepsCalls(run[..|run|-1], o);
      RunControl(run[..|run|-1], o);
      var h := run[|run|-1];
      NextKeeps(QueueSteps.Run(run[..|run|-1], o).value, h.event, h.reading, o);
    }
  }

  /** No call of `flush` is forgotten. Once the drain whose promise it returned
      has finished, every item that was pending at the call has been sent,
      dropped by the bound or handed out; and every waiting chunk that was due at
      the call, or any if the call was forced, has been sent again since, evicted
      or handed out. Whatever else happens in the meantime. */
  lemma FlushesAreServed(run: seq<Happening>, o: Options, call: Call)
    requires QueueSteps.Run(run, o).Some? && call in QueueSteps.Run(run, o).value.calls
    requires !Live(QueueSteps.Run(run, o).value, call.promise)
    ensures var c := QueueSteps.Run(run, o).value.core;
            && (forall x | x in call.items :: ItemServed(c, x))
            && (forall d | d in call.chunks :: ChunkServed(c, d, call.mark))
  {
    RunKeepsCalls(run, o);
    assert CallKept(QueueSteps.Run(run, o).value, call, QueueSteps.Run(run, o).value.rerun);
  }
}
