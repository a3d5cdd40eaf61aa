/** From capture to request: what is sent stays within the limit, and reads back
    as the items that were captured. */
module EndToEnd {
  import opened Utf8
  import opened Json
  import opened Chunker
  import opened Packing
  import opened QueueSteps
  import opened QueueRefines
  import opened Conservation
  import opened Snapshots
  import opened Truncation
  import FlushJoining

  // ---------------------------------------------------------------------
  // Where pending items come from
  // ---------------------------------------------------------------------

  /** The items that an event takes in. */
  function TakenIn(e: QueueSteps.Event): seq<Item>
  {
    match e
    case Enqueues(item) => [item]
    case Restores(items, chunks) => items.Flat() + ItemsOf(chunks)
    case _ => []
  }

  lemma FlushAccepts(q: Queue, force: bool, maxBytes: Option<int>, r: Reading, o: Options)
    requires Control(q)
    ensures Flush(q, force, maxBytes, r, o).core.accepted == q.core.accepted
  {
    if !q.paused && !q.draining {
      FlushIs(q, force, maxBytes, r, o);
      var b := Begun(q, force, maxBytes, r, o);
      PassAccepts(b, r, o);
    }
  }

  lemma PassAccepts(q: Queue, r: Reading, o: Options)
    ensures SendNext(StartPass(q, r, o), r, o).core.accepted == q.core.accepted
  {
    var s := StartPass(q, r, o);
    assert s.core.accepted == q.core.accepted;
    SendAccepts(s, r, o);
  }

  lemma SendAccepts(q: Queue, r: Reading, o: Options)
    ensures SendNext(q, r, o).core.accepted == q.core.accepted
  {
    if q.core.work == [] { FinishAccepts(q); }
  }

  lemma FinishAccepts(q: Queue)
    ensures Finish(q).core == q.core
  {
  }

  lemma EnqueueAccepts(q: Queue, item: Item, r: Reading, o: Options)
    requires Control(q)
    ensures Enqueue(q, item, r, o).core.accepted == q.core.accepted + [item]
  {
    var s := Stored(q, item, r.now, o);
    assert s.core.accepted == q.core.accepted + [item];
    if MustFlush(s, o) { FlushAccepts(s, false, None, r, o); }
  }

  lemma FiresAccepts(q: Queue, r: Reading, o: Options)
    requires Control(q)
    ensures TimerFires(q, r, o).core.accepted == q.core.accepted
  {
    FlushAccepts(q.(timer := None, gap := q.gap || q.paused), false, None, r, o);
  }

  lemma ResumeAccepts(q: Queue, r: Reading, o: Options)
    requires Control(q)
    ensures Resume(q, r, o).core.accepted == q.core.accepted
  {
    FlushAccepts(q.(paused := false), true, None, r, o);
  }

  lemma FlushingAccepts(q: Queue, e: QueueSteps.Event, r: Reading, o: Options)
    requires Control(q) && MayFlush(e)
    ensures Next(q, e, r, o).core.accepted == q.core.accepted + TakenIn(e)
  {
    match e
    case Enqueues(item) => EnqueueAccepts(q, item, r, o);
    case Flushes(force, maxBytes) => FlushAccepts(q, force, maxBytes, r, o);
    case Fires => FiresAccepts(q, r, o);
    case Resumes => ResumeAccepts(q, r, o);
  }

  lemma RestoredAccepts(q: Queue, items: Groups<Item>, chunks: seq<Chunk>, now: int, o: Options)
    ensures Restored(q, items, chunks, now, o).core.accepted == q.core.accepted + (items.Flat() + ItemsOf(chunks))
  {
    Regroup(q.core.accepted, items.Flat(), ItemsOf(chunks));
  }

  lemma EventAccepts(q: Queue, e: QueueSteps.Event, r: Reading, o: Options)
    requires Control(q) && Possible(q, e, r, o)
    ensures Next(q, e, r, o).core.accepted == q.core.accepted + TakenIn(e)
  {
    if MayFlush(e) {
      FlushingAccepts(q, e, r, o);
    } else if e.Restores? {
      RestoredAccepts(q, e.items, e.chunks, r.now, o);
    } else if e.Continues? {
      ContinueAccepts(q, r, o);
    }
  }

  lemma Regroup(a: seq<Item>, b: seq<Item>, c: seq<Item>)
    ensures a + b + c == a + (b + c)
  {
  }

  lemma ContinueAccepts(q: Queue, r: Reading, o: Options)
    ensures Continue(q, r, o).core.accepted == q.core.accepted
  {
    if q.core.work == [] && q.rerun {
      PassAccepts(q, r, o);
    } else {
      SendAccepts(q.(core := q.core.(clock := r.now)), r, o);
    }
  }

  /** Everything accepted was taken in by some event. */
  lemma {:induction false} AcceptedFrom(run: seq<Happening>, o: Options, x: Item) returns (k: nat)
    requires QueueSteps.Run(run, o).Some? && x in QueueSteps.Run(run, o).value.core.accepted
    ensures k < |run| && x in TakenIn(run[k].event)
  {
    var init, h := run[..|run|-1], run[|run|-1];
    RunControl(init, o);
    EventAccepts(QueueSteps.Run(init, o).value, h.event, h.reading, o);
    if x in TakenIn(h.event) {
      k := |run| - 1;
    } else {
      k := AcceptedFrom(init, o, x);
    }
  }

  /** And so was everything pending. */
  lemma PendingFrom(run: seq<Happening>, o: Options, x: Item) returns (k: nat)
    requires QueueSteps.Run(run, o).Some? && x in QueueSteps.Run(run, o).value.core.pending.Flat()
    ensures k < |run| && x in TakenIn(run[k].event)
  {
    var trace := RunRefines(run, o);
    RunConserves(trace, o.config);
    var c := QueueSteps.Run(run, o).value.core;
    FlatIs(c.pending, x);
    CountIn(c.pending.Flat(), x);
    assert Conservation.Total(c, x) == Occurs(c.accepted, x);
    CountIn(c.accepted, x);
    k := AcceptedFrom(run, o, x);
  }

  // ---------------------------------------------------------------------
  // The byte bound
  // ---------------------------------------------------------------------

  /** The size that a chunk carries is that of its body, and exceeds the limit
      only for a single item that leaves no room for the envelope. */
  predicate Bounded(c: Chunk, env: Envelope, limits: Limits)
  {
    && c.bytes == Size(c.body) && (|c.items| == 1 || |c.items| <= limits.maxItems)
    && (c.bytes <= limits.maxBytes ||
        (|c.items| == 1 && Size(c.items[0].json) > limits.maxBytes - EnvelopeOverhead(env.base, env.sentAt)))
  }

  lemma InCut(pending: Groups<Item>, env: Envelope, limits: Limits, i: nat, x: Item)
    requires i < |Cut(pending, env, limits)| && x in Cut(pending, env, limits)[i].items
    ensures x in pending.Flat()
  {
    CutKeepsItems(pending, env, limits);
    FlushJoining.ItemsIn(Cut(pending, env, limits), Cut(pending, env, limits)[i], x);
  }

  lemma CutIsBounded(pending: Groups<Item>, env: Envelope, limits: Limits, i: nat)
    requires WellKinded(pending) && Measured(pending.Flat()) && Plain(env.batchId) && |env.batchId| <= 36
    requires i < |Cut(pending, env, limits)| && i < 1_000_000
    ensures Bounded(Cut(pending, env, limits)[i], env, limits)
  {
    CutWithinLimit(pending, env, limits, i);
    if |Cut(pending, env, limits)[i].items| == 1 { InCut(pending, env, limits, i, Cut(pending, env, limits)[i].items[0]); }
  }

  /** Whatever happened before, every chunk that a reachable queue cuts carries
      the exact size of its body, and stays within the limit unless it holds a
      single item that is larger than what an empty envelope leaves. */
  lemma EveryBodyFits(run: seq<Happening>, o: Options, r: Reading, limit: int, i: nat)
    requires QueueSteps.Run(run, o).Some? && forall k | 0 <= k < |run| :: MeasuredEvent(run[k].event)
    requires Plain(r.env.batchId) && |r.env.batchId| <= 36
    requires i < |CutOf(QueueSteps.Run(run, o).value, limit, r, o)| && i < 1_000_000
    ensures Bounded(CutOf(QueueSteps.Run(run, o).value, limit, r, o)[i], r.env, Limits(limit, o.config.limits.maxItems))
  {
    QueueOrderly(run, o);
    CutIsBounded(QueueSteps.Run(run, o).value.core.pending, r.env, Limits(limit, o.config.limits.maxItems), i);
  }

  /** Every item of the run is what `fitItem` made of its source, for the budget
      that an envelope of this overhead leaves. */
  ghost predicate Fitted(run: seq<Happening>, sources: seq<seq<Field>>, overhead: nat, o: Options)
  {
    |sources| == |run| &&
    forall k | 0 <= k < |run| && run[k].event.Enqueues? ::
      && EnvelopeOverhead(run[k].reading.env.base, DEFAULT_SENT_AT) == overhead
      && run[k].event.item.json == Fit(sources[k], o.config.limits.maxBytes - overhead).json
      && run[k].event.item.bytes == Fit(sources[k], o.config.limits.maxBytes - overhead).bytes
  }

  lemma FitIsMeasured(source: seq<Field>, budget: int)
    ensures var f := Fit(source, budget); f.bytes == Size(f.json) && (f.oversized <==> f.bytes > budget)
  {
  }

  /** With the limit and an envelope of the size that items were fitted to, a
      body above the limit holds a single item, and `fitItem` reported that item
      as oversized when it was captured. */
  lemma OversizedWasReported(run: seq<Happening>, sources: seq<seq<Field>>, o: Options, r: Reading, i: nat) returns (k: nat)
    requires QueueSteps.Run(run, o).Some? && NothingRestored(run)
    requires Fitted(run, sources, EnvelopeOverhead(r.env.base, r.env.sentAt), o)
    requires Plain(r.env.batchId) && |r.env.batchId| <= 36
    requires i < |CutOf(QueueSteps.Run(run, o).value, o.config.limits.maxBytes, r, o)| && i < 1_000_000
    requires Size(CutOf(QueueSteps.Run(run, o).value, o.config.limits.maxBytes, r, o)[i].body) > o.config.limits.maxBytes
    ensures var c := CutOf(QueueSteps.Run(run, o).value, o.config.limits.maxBytes, r, o)[i];
            && |c.items| == 1 && k < |run| && run[k].event == Enqueues(c.items[0])
            && Fit(sources[k], o.config.limits.maxBytes - EnvelopeOverhead(r.env.base, r.env.sentAt)).oversized
  {
    FittedIsMeasured(run, sources, EnvelopeOverhead(r.env.base, r.env.sentAt), o);
    EveryBodyFits(run, o, r, o.config.limits.maxBytes, i);
    k := Origin(run, o, r, o.config.limits.maxBytes, i);
    FitIsMeasured(sources[k], o.config.limits.maxBytes - EnvelopeOverhead(r.env.base, r.env.sentAt));
  }

  lemma FittedIsMeasured(run: seq<Happening>, sources: seq<seq<Field>>, overhead: nat, o: Options)
    requires NothingRestored(run) && Fitted(run, sources, overhead, o)
    ensures forall n | 0 <= n < |run| :: MeasuredEvent(run[n].event)
  {
    forall n | 0 <= n < |run| ensures MeasuredEvent(run[n].event) {
      FitIsMeasured(sources[n], o.config.limits.maxBytes - overhead);
    }
  }

  /** Where the single item of a chunk was captured. */
  lemma Origin(run: seq<Happening>, o: Options, r: Reading, limit: int, i: nat) returns (k: nat)
    requires QueueSteps.Run(run, o).Some? && NothingRestored(run)
    requires i < |CutOf(QueueSteps.Run(run, o).value, limit, r, o)| && |CutOf(QueueSteps.Run(run, o).value, limit, r, o)[i].items| == 1
    ensures k < |run| && run[k].event == Enqueues(CutOf(QueueSteps.Run(run, o).value, limit, r, o)[i].items[0])
  {
    var pending, limits := QueueSteps.Run(run, o).value.core.pending, Limits(limit, o.config.limits.maxItems);
    var x := Cut(pending, r.env, limits)[i].items[0];
    InCut(pending, r.env, limits, i, x);
    k := PendingFrom(run, o, x);
    assert run[k].event.Enqueues?;
  }

  // ---------------------------------------------------------------------
  // Reading back
  // ---------------------------------------------------------------------

  /** Every item of the run was serialized with `JSON.stringify`. */
  ghost predicate SerializedRun(run: seq<Happening>) { forall k, x | 0 <= k < |run| && x in TakenIn(run[k].event) :: IsPrinted(x) }

  /** What `fitItem` returns is serialized. */
  lemma FitIsPrinted(id: nat, kind: Kind, source: seq<Field>, budget: int)
    ensures var f := Fit(source, budget); IsPrinted(Item(id, kind, f.json, f.bytes)) && Parse(f.json) == Some(Obj(f.item))
  {
    Json.RoundTrip(Obj(Fit(source, budget).item));
  }

  /** Whatever happened before, reading the chunks that a reachable queue cuts
      gives, for each kind, exactly the pending items of that kind in order. */
  lemma EveryCutReadsBack(run: seq<Happening>, o: Options, r: Reading, limit: int, kind: Kind)
    requires QueueSteps.Run(run, o).Some? && SerializedRun(run) && forall k | 0 <= k < |run| :: MeasuredEvent(run[k].event)
    ensures var q := QueueSteps.Run(run, o).value;
            && Serialized(q.core.pending.Of(kind))
            && ReceivedAll(CutOf(q, limit, r, o), kind) == ValuesOf(q.core.pending.Of(kind))
  {
    var pending := QueueSteps.Run(run, o).value.core.pending;
    QueueOrderly(run, o);
    PendingSerialized(run, o);
    CutReadsBack(pending, r.env, Limits(limit, o.config.limits.maxItems), kind);
  }

  lemma PendingSerialized(run: seq<Happening>, o: Options)
    requires QueueSteps.Run(run, o).Some? && SerializedRun(run)
    ensures Serialized(QueueSteps.Run(run, o).value.core.pending.Flat())
  {
    var pending := QueueSteps.Run(run, o).value.core.pending;
    forall i | 0 <= i < |pending.Flat()| ensures IsPrinted(pending.Flat()[i]) {
      var k := PendingFrom(run, o, pending.Flat()[i]);
    }
  }

  /** And every such chunk says its own key, the time and the base in its body. */
  lemma EveryBodySays(run: seq<Happening>, o: Options, r: Reading, limit: int, i: nat)
    requires QueueSteps.Run(run, o).Some? && SerializedRun(run) && i < |CutOf(QueueSteps.Run(run, o).value, limit, r, o)|
    ensures var c := CutOf(QueueSteps.Run(run, o).value, limit, r, o)[i]; Says(c.body, c.key, r.env.sentAt, r.env.base)
  {
    PendingSerialized(run, o);
    CutSays(QueueSteps.Run(run, o).value.core.pending, r.env, Limits(limit, o.config.limits.maxItems), i);
  }

  lemma FittedIsSerialized(run: seq<Happening>, sources: seq<seq<Field>>, overhead: nat, o: Options)
    requires NothingRestored(run) && Fitted(run, sources, overhead, o)
    ensures SerializedRun(run)
  {
    forall k, x | 0 <= k < |run| && x in TakenIn(run[k].event) ensures IsPrinted(x) {
      FitIsPrinted(x.id, x.kind, sources[k], o.config.limits.maxBytes - overhead);
      assert run[k].event == Enqueues(x);
    }
  }

  /** The value is what `fitItem` made of the source of a captured item. */
  ghost predicate CameFrom(run: seq<Happening>, sources: seq<seq<Field>>, budget: int, x: Item, v: Value)
  {
    exists k :: 0 <= k < |run| && k < |sources| && run[k].event == Enqueues(x) && v == Obj(Fit(sources[k], budget).item)
  }

  lemma ReadIsFitted(run: seq<Happening>, sources: seq<seq<Field>>, overhead: nat, o: Options, x: Item)
    requires QueueSteps.Run(run, o).Some? && NothingRestored(run) && Fitted(run, sources, overhead, o)
    requires x in QueueSteps.Run(run, o).value.core.pending.Flat() && IsPrinted(x)
    ensures CameFrom(run, sources, o.config.limits.maxBytes - overhead, x, Parse(x.json).value)
  {
    var k := PendingFrom(run, o, x);
    assert run[k].event == Enqueues(x);
    FitIsPrinted(x.id, x.kind, sources[k], o.config.limits.maxBytes - overhead);
  }

  /** From capture to body: what is read from the chunks that a reachable queue
      cuts is, kind by kind and in order, what `fitItem` made of the captures that
      are pending. */
  lemma FittedCutReadsBack(run: seq<Happening>, sources: seq<seq<Field>>, overhead: nat, o: Options, r: Reading, limit: int, kind: Kind)
    requires QueueSteps.Run(run, o).Some? && NothingRestored(run) && Fitted(run, sources, overhead, o)
    ensures var q := QueueSteps.Run(run, o).value;
            var pending, got := q.core.pending.Of(kind), ReceivedAll(CutOf(q, limit, r, o), kind);
            && |got| == |pending|
            && forall i | 0 <= i < |got| :: CameFrom(run, sources, o.config.limits.maxBytes - overhead, pending[i], got[i])
  {
    FittedIsMeasured(run, sources, overhead, o);
    FittedIsSerialized(run, sources, overhead, o);
    EveryCutReadsBack(run, o, r, limit, kind);
    var pending := QueueSteps.Run(run, o).value.core.pending;
    forall i | 0 <= i < |pending.Of(kind)|
      ensures CameFrom(run, sources, o.config.limits.maxBytes - overhead, pending.Of(kind)[i], Parse(pending.Of(kind)[i].json).value)
    {
      InFlat(pending, kind, i);
      assert IsPrinted(pending.Of(kind)[i]);
      ReadIsFitted(run, sources, overhead, o, pending.Of(kind)[i]);
    }
  }

  lemma InFlat(g: Groups<Item>, kind: Kind, i: nat)
    requires i < |g.Of(kind)|
    ensures g.Of(kind)[i] in g.Flat()
  {
  }
}
