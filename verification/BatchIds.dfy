/** Batch ids that are never used twice make keys that are never used twice. */
module BatchIds {
  import opened Utf8
  import opened Json
  import opened Chunker
  import opened Packing
  import opened Delivery
  import opened QueueSteps
  import opened QueueRefines

  /** Every key was made from one of the batch ids. */
  ghost predicate Named(keys: set<Text>, ids: set<Text>)
  {
    forall key | key in keys :: exists id, i: nat :: id in ids && key == IdempotencyKey(id, i)
  }

  /** A batch id that was not used gives keys that were not used. */
  lemma UnusedIsFresh(keys: set<Text>, ids: set<Text>, batchId: Text)
    requires Named(keys, ids) && batchId !in ids
    ensures FreshBatch(keys, batchId)
  {
    forall i: nat ensures IdempotencyKey(batchId, i) !in keys {
      if IdempotencyKey(batchId, i) in keys {
        var id, j: nat :| id in ids && IdempotencyKey(batchId, i) == IdempotencyKey(id, j);
        KeyInjective(batchId, i, id, j);
      }
    }
  }

  lemma CutIsNamed(pending: Groups<Item>, env: Envelope, limits: Limits)
    ensures Named(KeySet(Cut(pending, env, limits)), {env.batchId})
  {
    var cut := Cut(pending, env, limits);
    forall key | key in KeySet(cut) ensures exists id, i: nat :: id in {env.batchId} && key == IdempotencyKey(id, i) {
      var i :| 0 <= i < |cut| && cut[i].key == key;
      CutChunk(pending, env, limits, i);
      assert env.batchId in {env.batchId} && key == IdempotencyKey(env.batchId, i);
    }
  }

  lemma NamedUnion(a: set<Text>, b: set<Text>, ids: set<Text>, more: set<Text>)
    requires Named(a, ids) && Named(b, more)
    ensures Named(a + b, ids + more)
  {
    forall key | key in a + b ensures exists id, i: nat :: id in ids + more && key == IdempotencyKey(id, i) {
      if key in a {
        var id, i: nat :| id in ids && key == IdempotencyKey(id, i);
        assert id in ids + more;
      } else {
        var id, i: nat :| id in more && key == IdempotencyKey(id, i);
        assert id in ids + more;
      }
    }
  }

  /** Some batch id is always left. */
  lemma {:induction false} UnusedId(ids: set<Text>) returns (id: Text)
    ensures id !in ids && forall other | other in ids :: |other| < |id|
  {
    if ids == {} {
      id := [];
    } else {
      var one :| one in ids;
      var rest := UnusedId(ids - {one});
      id := if |one| < |rest| then rest else one + [UNDERSCORE];
      forall other | other in ids ensures |other| < |id| { if other != one { assert other in ids - {one}; } }
    }
  }

  // ---------------------------------------------------------------------
  // The event-loop queue
  // ---------------------------------------------------------------------

  lemma CutNamed(keys: set<Text>, pending: Groups<Item>, env: Envelope, limits: Limits, ids: set<Text>)
    requires Named(keys, ids) && env.batchId in ids
    ensures Named(keys + KeySet(Cut(pending, env, limits)), ids)
  {
    CutIsNamed(pending, env, limits);
    NamedUnion(keys, KeySet(Cut(pending, env, limits)), ids, {env.batchId});
    assert ids + {env.batchId} == ids;
  }

  lemma SendKeys(q: Queue, r: Reading, o: Options)
    ensures SendNext(q, r, o).core.keys == q.core.keys
  {
  }

  lemma PassKeys(q: Queue, r: Reading, o: Options)
    ensures StartPass(q, r, o).core.keys == q.core.keys + KeySet(CutOf(q, q.drainBytes, r, o))
  {
  }

  lemma PassNamed(q: Queue, r: Reading, o: Options, ids: set<Text>)
    requires Named(q.core.keys, ids) && r.env.batchId in ids
    ensures Named(SendNext(StartPass(q, r, o), r, o).core.keys, ids)
  {
    PassKeys(q, r, o);
    SendKeys(StartPass(q, r, o), r, o);
    CutNamed(q.core.keys, q.core.pending, r.env, Limits(q.drainBytes, o.config.limits.maxItems), ids);
  }

  lemma FlushNamed(q: Queue, force: bool, maxBytes: Option<int>, r: Reading, o: Options, ids: set<Text>)
    requires Control(q) && Named(q.core.keys, ids) && r.env.batchId in ids
    ensures Named(Flush(q, force, maxBytes, r, o).core.keys, ids)
  {
    if !q.paused && !q.draining {
      FlushIs(q, force, maxBytes, r, o);
      PassNamed(Begun(q, force, maxBytes, r, o), r, o, ids);
    }
  }

  lemma ContinueNamed(q: Queue, r: Reading, o: Options, ids: set<Text>)
    requires Named(q.core.keys, ids) && r.env.batchId in ids
    ensures Named(Continue(q, r, o).core.keys, ids)
  {
    if q.core.work == [] && q.rerun { PassNamed(q, r, o, ids); } else { SendKeys(q.(core := q.core.(clock := r.now)), r, o); }
  }

  lemma EnqueueNamed(q: Queue, item: Item, r: Reading, o: Options, ids: set<Text>)
    requires Control(q) && Named(q.core.keys, ids) && r.env.batchId in ids
    ensures Named(Enqueue(q, item, r, o).core.keys, ids)
  {
    var s := Stored(q, item, r.now, o);
    assert s.core.keys == q.core.keys;
    if MustFlush(s, o) { FlushNamed(s, false, None, r, o, ids); }
  }

  /** The keys of the chunks that an event puts back. */
  function RestoredKeys(e: QueueSteps.Event): set<Text> { if e.Restores? then KeySet(e.chunks) else {} }

  lemma RestoreNamed(q: Queue, items: Groups<Item>, chunks: seq<Chunk>, now: int, o: Options, ids: set<Text>)
    requires Named(q.core.keys, ids) && Named(KeySet(chunks), ids)
    ensures Named(Restored(q, items, chunks, now, o).core.keys, ids)
  {
    NamedUnion(q.core.keys, KeySet(chunks), ids, ids);
    assert ids + ids == ids;
  }

  lemma TakeNamed(q: Queue, maxBytes: int, r: Reading, o: Options, ids: set<Text>)
    requires Named(q.core.keys, ids) && r.env.batchId in ids
    ensures Named(TakeEverything(q, maxBytes, r, o).core.keys, ids)
  {
    CutNamed(q.core.keys, q.core.pending, r.env, Limits(maxBytes, o.config.limits.maxItems), ids);
  }

  lemma EventNamed(q: Queue, e: QueueSteps.Event, r: Reading, o: Options, ids: set<Text>)
    requires Control(q) && Possible(q, e, r, o) && Named(q.core.keys, ids) && Named(RestoredKeys(e), ids) && r.env.batchId in ids
    ensures Named(Next(q, e, r, o).core.keys, ids)
  {
    if MayFlush(e) {
      FlushingNamed(q, e, r, o, ids);
    } else if e.Continues? {
      ContinueNamed(q, r, o, ids);
    } else if e.Takes? {
      TakeNamed(q, e.limit, r, o, ids);
    } else if e.Restores? {
      RestoreNamed(q, e.items, e.chunks, r.now, o, ids);
    }
  }

  lemma FlushingNamed(q: Queue, e: QueueSteps.Event, r: Reading, o: Options, ids: set<Text>)
    requires Control(q) && MayFlush(e) && Named(q.core.keys, ids) && r.env.batchId in ids
    ensures Named(Next(q, e, r, o).core.keys, ids)
  {
    match e
    case Enqueues(item) => EnqueueNamed(q, item, r, o, ids);
    case Flushes(force, maxBytes) => FlushNamed(q, force, maxBytes, r, o, ids);
    case Fires => FlushNamed(q.(timer := None, gap := q.gap || q.paused), false, None, r, o, ids);
    case Resumes => FlushNamed(q.(paused := false), true, None, r, o, ids);
  }

  /** The batch ids of a run, and of what it restores. */
  ghost predicate UsesOnly(run: seq<Happening>, ids: set<Text>)
  {
    forall k | 0 <= k < |run| :: run[k].reading.env.batchId in ids && Named(RestoredKeys(run[k].event), ids)
  }

  lemma {:induction false} RunNamed(run: seq<Happening>, o: Options, ids: set<Text>)
    requires QueueSteps.Run(run, o).Some? && UsesOnly(run, ids)
    ensures Named(QueueSteps.Run(run, o).value.core.keys, ids)
  {
    if run != [] {
      var init, h := run[..|run|-1], run[|run|-1];
      RunNamed(init, o, ids);
      RunControl(init, o);
      EventNamed(QueueSteps.Run(init, o).value, h.event, h.reading, o, ids);
    }
  }

  /** Whatever happened before, a batch id that was used neither by the run nor
      for what it restored makes keys that the queue never used. */
  lemma NewIdsMakeNewKeys(run: seq<Happening>, o: Options, ids: set<Text>, batchId: Text)
    requires QueueSteps.Run(run, o).Some? && UsesOnly(run, ids) && batchId !in ids
    ensures FreshBatch(QueueSteps.Run(run, o).value.core.keys, batchId)
  {
    RunNamed(run, o, ids);
    UnusedIsFresh(QueueSteps.Run(run, o).value.core.keys, ids, batchId);
  }
}
