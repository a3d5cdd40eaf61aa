/** Saving a queue across a restart and merging it back. A snapshot holds the
    texts of the pending items and the waiting chunks without their retry times;
    the labels that items carry in this model come along. */
module Snapshots {
  import opened Utf8
  import opened Json
  import opened Chunker
  import opened Packing
  import opened History
  import opened Delivery
  import opened Overflow
  import opened QueueSteps
  import opened QueueRefines
  import Counters
  import ShutdownLaws

  datatype SavedItem = SavedItem(id: nat, json: Text)

  datatype SavedChunk = SavedChunk(key: Text, body: Text, bytes: nat, counts: Counts, items: seq<Item>, attempts: nat)

  datatype Snapshot = Snapshot(version: int, pending: Groups<SavedItem>, retry: seq<SavedChunk>)

  const VERSION: int := 1

  function SaveItem(item: Item): SavedItem { SavedItem(item.id, item.json) }

  function SaveItems(items: seq<Item>): (r: seq<SavedItem>)
    ensures |r| == |items| && forall i | 0 <= i < |items| :: r[i] == SaveItem(items[i])
  {
    seq(|items|, i requires 0 <= i < |items| => SaveItem(items[i]))
  }

  function SaveChunk(c: Chunk): SavedChunk { SavedChunk(c.key, c.body, c.bytes, c.counts, c.items, c.attempts) }

  function SaveChunks(chunks: seq<Chunk>): (r: seq<SavedChunk>)
    ensures |r| == |chunks| && forall i | 0 <= i < |chunks| :: r[i] == SaveChunk(chunks[i])
  {
    seq(|chunks|, i requires 0 <= i < |chunks| => SaveChunk(chunks[i]))
  }

  function SnapshotOf(pending: Groups<Item>, retry: seq<Chunk>): Snapshot
  {
    Snapshot(VERSION, Groups(SaveItems(pending.errors), SaveItems(pending.traces), SaveItems(pending.events)), SaveChunks(retry))
  }

  /** A restored item is measured again. */
  function Revive(kind: Kind, saved: SavedItem): Item { Item(saved.id, kind, saved.json, Size(saved.json)) }

  function ReviveItems(kind: Kind, saved: seq<SavedItem>): (r: seq<Item>)
    ensures |r| == |saved| && forall i | 0 <= i < |saved| :: r[i] == Revive(kind, saved[i])
  {
    seq(|saved|, i requires 0 <= i < |saved| => Revive(kind, saved[i]))
  }

  function ReviveAll(g: Groups<SavedItem>): (r: Groups<Item>)
    ensures WellKinded(r)
  {
    Groups(ReviveItems(Errors, g.errors), ReviveItems(Traces, g.traces), ReviveItems(Events, g.events))
  }

  /** A restored chunk is due at once. */
  function ReviveChunk(c: SavedChunk, now: int): Chunk { Chunk(c.key, c.body, c.bytes, c.counts, c.items, c.attempts, now) }

  function ReviveChunks(saved: seq<SavedChunk>, now: int): (r: seq<Chunk>)
    ensures |r| == |saved| && forall i | 0 <= i < |saved| :: r[i] == ReviveChunk(saved[i], now)
  {
    seq(|saved|, i requires 0 <= i < |saved| => ReviveChunk(saved[i], now))
  }

  // ---------------------------------------------------------------------
  // Snapshots as they come back from storage
  // ---------------------------------------------------------------------

  /** An entry that is what it should be, or something else. */
  datatype Entry<T> = Good(value: T) | Malformed

  datatype RawSnapshot = RawSnapshot(version: int, pending: Groups<Entry<SavedItem>>, retry: seq<Entry<SavedChunk>>)

  /** The good entries, in order. */
  function GoodOnes<T>(list: seq<Entry<T>>): seq<T>
  {
    if list == [] then []
    else
      var init := GoodOnes(list[..|list|-1]);
      if list[|list|-1].Good? then init + [list[|list|-1].value] else init
  }

  /** What `restore` takes from a snapshot. */
  function Sifted(raw: RawSnapshot): Snapshot
  {
    Snapshot(raw.version, Groups(GoodOnes(raw.pending.errors), GoodOnes(raw.pending.traces), GoodOnes(raw.pending.events)),
             GoodOnes(raw.retry))
  }

  method Sift<T>(list: seq<Entry<T>>) returns (r: seq<T>)
    ensures r == GoodOnes(list)
  {
    r := [];
    var i := 0;
    while i < |list|
      invariant i <= |list| && r == GoodOnes(list[..i])
    {
      assert list[..i + 1][..i] == list[..i];
      if list[i].Good? { r := r + [list[i].value]; }
      i := i + 1;
    }
    assert list[..i] == list;
  }

  method SiftAll(raw: RawSnapshot) returns (s: Snapshot)
    ensures s == Sifted(raw)
  {
    var errors := Sift(raw.pending.errors);
    var traces := Sift(raw.pending.traces);
    var events := Sift(raw.pending.events);
    var retry := Sift(raw.retry);
    s := Snapshot(raw.version, Groups(errors, traces, events), retry);
  }

  lemma {:induction false} GoodOnesAppend<T>(a: seq<Entry<T>>, b: seq<Entry<T>>)
    ensures GoodOnes(a + b) == GoodOnes(a) + GoodOnes(b)
  {
    if b == [] {
      assert a + b == a;
    } else {
      assert (a + b)[..|a + b|-1] == a + b[..|b|-1];
      GoodOnesAppend(a, b[..|b|-1]);
    }
  }

  /** A malformed entry is skipped, wherever it is, and nothing else with it. */
  lemma MalformedIsSkipped<T>(a: seq<Entry<T>>, b: seq<Entry<T>>)
    ensures GoodOnes(a + ([Malformed] + b)) == GoodOnes(a + b)
  {
    var bad: seq<Entry<T>> := [Malformed];
    GoodOnesAppend(a, bad + b);
    GoodOnesAppend(bad, b);
    GoodOnesAppend(a, b);
    assert bad[..0] == [];
    assert GoodOnes(bad) == [];
  }

  /** Without malformed entries everything is taken. */
  lemma {:induction false} AllGood<T>(list: seq<T>)
    ensures GoodOnes(seq(|list|, i requires 0 <= i < |list| => Good(list[i]))) == list
  {
    var good := seq(|list|, i requires 0 <= i < |list| => Good(list[i]));
    if list != [] {
      var init := list[..|list|-1];
      assert good[..|list|-1] == seq(|init|, i requires 0 <= i < |init| => Good(init[i]));
      AllGood(init);
    }
  }

  predicate Readable(s: Option<Snapshot>) { s.Some? && s.value.version == VERSION }

  /** The queue after `restore`. */
  function RestoredFrom(q: Queue, s: Option<Snapshot>, now: int, o: Options): Queue
  {
    if Readable(s) then Restored(q, ReviveAll(s.value.pending), ReviveChunks(s.value.retry, now), now, o) else q
  }

  // ---------------------------------------------------------------------
  // Reachable queues meet the conditions
  // ---------------------------------------------------------------------

  /** Everything that is taken in is measured and in the list of its kind. */
  predicate MeasuredStep(step: Step)
  {
    match step
    case Accept(item) => item.bytes == Size(item.json)
    case Restore(items, _) => Measured(items.Flat())
    case _ => true
  }

  predicate Orderly(s: State, cfg: Config)
  {
    WellKinded(s.pending) && Measured(s.pending.Flat()) && s.pending.Count() <= Max(0, cfg.maxQueueItems)
  }

  lemma KeptOrderly(g: Groups<Item>, max: int)
    requires WellKinded(g) && forall x | x in g.Flat() :: x.bytes == Size(x.json)
    ensures var k := Kept(g, max); WellKinded(k) && Measured(k.Flat()) && k.Count() <= Max(0, max)
  {
    var k := Kept(g, max);
    KeptWellKinded(g, max);
    forall i | 0 <= i < |k.Flat()| ensures k.Flat()[i] in g.Flat() {
      KeptMember(g, max, k.Flat()[i]);
    }
  }

  lemma KeptMember(g: Groups<Item>, max: int, x: Item)
    requires x in Kept(g, max).Flat()
    ensures x in g.Flat()
  {
    var k := Kept(g, max);
    if x in k.errors { assert x in g.errors; } else if x in k.traces { assert x in g.traces; } else { assert x in g.events; }
  }

  /** Events that take in measured items only. */
  predicate MeasuredEvent(e: QueueSteps.Event)
  {
    match e
    case Enqueues(item) => item.bytes == Size(item.json)
    case Restores(items, _) => Measured(items.Flat())
    case _ => true
  }

  lemma {:induction false} ExecOrderly(s: State, steps: seq<Timed>, cfg: Config)
    requires Orderly(s, cfg) && Exec(s, steps, cfg).Some? && forall i | 0 <= i < |steps| :: MeasuredStep(steps[i].step)
    ensures Orderly(Exec(s, steps, cfg).value, cfg)
  {
    if steps != [] {
      var init, t := steps[..|steps|-1], steps[|steps|-1];
      ExecOrderly(s, init, cfg);
      StepOrderly(Exec(s, init, cfg).value, t.step, t.now, cfg);
    }
  }

  lemma QuietIsMeasured(steps: seq<Timed>)
    requires Quiet(steps)
    ensures forall i | 0 <= i < |steps| :: MeasuredStep(steps[i].step)
  {
  }

  lemma EventSteps(e: QueueSteps.Event, now: int, steps: seq<Timed>)
    requires MeasuredEvent(e)
    requires if e.Enqueues? then |steps| > 0 && steps[0] == Timed(Accept(e.item), now) && Quiet(steps[1..])
             else if e.Restores? then steps == [Timed(Step.Restore(e.items, e.chunks), now)] else Quiet(steps)
    ensures forall i | 0 <= i < |steps| :: MeasuredStep(steps[i].step)
  {
    if e.Enqueues? {
      QuietIsMeasured(steps[1..]);
      forall i | 0 <= i < |steps| ensures MeasuredStep(steps[i].step) {
        if i > 0 { assert steps[i] == steps[1..][i - 1]; }
      }
    }
  }

  lemma EventOrderly(q: Queue, e: QueueSteps.Event, r: Reading, o: Options)
    requires Orderly(q.core, o.config) && Control(q) && Possible(q, e, r, o) && MeasuredEvent(e)
    ensures Orderly(Next(q, e, r, o).core, o.config)
  {
    assert Exec(q.core, [], o.config) == Some(q.core);
    var steps := EventRefines(q.core, [], q, e, r, o);
    assert steps[0..] == steps;
    EventSteps(e, r.now, steps);
    ExecOrderly(q.core, steps, o.config);
  }

  lemma {:induction false} QueueOrderly(run: seq<Happening>, o: Options)
    requires QueueSteps.Run(run, o).Some? && forall i | 0 <= i < |run| :: MeasuredEvent(run[i].event)
    ensures Orderly(QueueSteps.Run(run, o).value.core, o.config)
  {
    if run != [] {
      var init, h := run[..|run|-1], run[|run|-1];
      QueueOrderly(init, o);
      RunControl(init, o);
      EventOrderly(QueueSteps.Run(init, o).value, h.event, h.reading, o);
    }
  }

  lemma PushMember(g: Groups<Item>, item: Item, x: Item)
    requires x in Push(g, item).Flat()
    ensures x in g.Flat() || x == item
  {
  }

  lemma MergedMember(items: Groups<Item>, pending: Groups<Item>, x: Item)
    requires x in Merged(items, pending).Flat()
    ensures x in items.Flat() || x in pending.Flat()
  {
  }

  lemma StepOrderly(s: State, step: Step, now: int, cfg: Config)
    requires Orderly(s, cfg) && Enabled(s, step, now, cfg) && MeasuredStep(step)
    ensures Orderly(Apply(s, step, now, cfg), cfg)
  {
    match step
    case Accept(item) =>
      forall x | x in Push(s.pending, item).Flat() ensures x.bytes == Size(x.json) { PushMember(s.pending, item, x); }
      KeptOrderly(Push(s.pending, item), cfg.maxQueueItems);
    case Restore(items, _) =>
      forall x | x in Merged(items, s.pending).Flat() ensures x.bytes == Size(x.json) { MergedMember(items, s.pending, x); }
      KeptOrderly(Merged(items, s.pending), cfg.maxQueueItems);
    case _ =>
  }

  // ---------------------------------------------------------------------
  // Round trip
  // ---------------------------------------------------------------------

  lemma ItemsSurvive(kind: Kind, items: seq<Item>)
    requires forall i | 0 <= i < |items| :: items[i].kind == kind && items[i].bytes == Size(items[i].json)
    ensures ReviveItems(kind, SaveItems(items)) == items
  {
    forall i | 0 <= i < |items| ensures ReviveItems(kind, SaveItems(items))[i] == items[i] { }
  }

  lemma PendingSurvives(g: Groups<Item>)
    requires WellKinded(g) && Measured(g.Flat())
    ensures ReviveAll(SnapshotOf(g, []).pending) == g
  {
    var f := g.Flat();
    forall i | 0 <= i < |g.errors| ensures g.errors[i].bytes == Size(g.errors[i].json) { assert f[i] == g.errors[i]; }
    forall i | 0 <= i < |g.traces| ensures g.traces[i].bytes == Size(g.traces[i].json) { assert f[|g.errors| + i] == g.traces[i]; }
    forall i | 0 <= i < |g.events| ensures g.events[i].bytes == Size(g.events[i].json) {
      assert f[|g.errors| + |g.traces| + i] == g.events[i];
    }
    ItemsSurvive(Errors, g.errors);
    ItemsSurvive(Traces, g.traces);
    ItemsSurvive(Events, g.events);
  }

  /** The same chunks, due now. */
  ghost predicate SameButDue(a: seq<Chunk>, b: seq<Chunk>, now: int)
  {
    |a| == |b| && forall i | 0 <= i < |a| :: b[i] == a[i].(nextAttemptAt := now)
  }

  lemma ChunksSurvive(chunks: seq<Chunk>, now: int)
    ensures SameButDue(chunks, ReviveChunks(SaveChunks(chunks), now), now)
  {
  }

  lemma {:induction false} AllDue(chunks: seq<Chunk>, now: int)
    requires forall c | c in chunks :: c.nextAttemptAt <= now
    ensures Due(chunks, false, now) == chunks && NotDue(chunks, false, now) == []
  {
    if chunks != [] {
      var init := chunks[..|chunks|-1];
      assert chunks == init + [chunks[|chunks|-1]];
      forall c | c in init ensures c in chunks { }
      AllDue(init, now);
    }
  }

  lemma NoneDropped(g: Groups<Item>, max: int)
    requires g.Count() <= Max(0, max)
    ensures Kept(g, max) == g && |Dropped(g, max)| == 0 && SumBytes(Dropped(g, max)) == 0
  {
  }

  lemma MergedWithNothing(items: Groups<Item>, pending: Groups<Item>)
    requires pending.Count() == 0
    ensures Merged(items, pending) == items
  {
  }

  lemma RestoredParts(q: Queue, items: Groups<Item>, chunks: seq<Chunk>, now: int, o: Options, g: Groups<Item>)
    requires g == Merged(items, q.core.pending)
    ensures var s, max := Restored(q, items, chunks, now, o), o.config.maxQueueItems;
            && s.core.pending == Kept(g, max) && s.core.retry == q.core.retry + chunks
            && s.core.overflowed == q.core.overflowed + Dropped(g, max)
            && s.pendingBytes == q.pendingBytes + PendingBytes(items) - SumBytes(Dropped(g, max))
  {
  }

  lemma RestoreIntoEmpty(q: Queue, items: Groups<Item>, chunks: seq<Chunk>, now: int, o: Options)
    requires q.core.pending.Count() == 0 && |q.core.retry| == 0 && q.pendingBytes == 0
    requires items.Count() <= Max(0, o.config.maxQueueItems)
    ensures var s := Restored(q, items, chunks, now, o);
            && s.core.pending == items && s.pendingBytes == PendingBytes(items) && s.core.retry == chunks
            && s.core.overflowed == q.core.overflowed
  {
    MergedWithNothing(items, q.core.pending);
    NoneDropped(items, o.config.maxQueueItems);
    RestoredParts(q, items, chunks, now, o, items);
    assert q.core.retry + chunks == chunks;
    assert q.core.overflowed + Dropped(items, o.config.maxQueueItems) == q.core.overflowed;
  }

  /** Restoring the snapshot of an idle queue into an empty one gives the same
      pending items with the same byte counts, and the same waiting chunks - keys,
      bodies and attempts - all due now. */
  lemma RoundTrip(q: Queue, empty: Queue, now: int, o: Options)
    requires Orderly(q.core, o.config)
    requires empty.core.pending.Count() == 0 && |empty.core.retry| == 0 && empty.pendingBytes == 0
    ensures var s := RestoredFrom(empty, Some(SnapshotOf(q.core.pending, q.core.retry)), now, o);
            && s.core.pending == q.core.pending && s.pendingBytes == PendingBytes(q.core.pending)
            && SameButDue(q.core.retry, s.core.retry, now) && Due(s.core.retry, false, now) == s.core.retry
            && s.core.overflowed == empty.core.overflowed
  {
    var chunks := ReviveChunks(SaveChunks(q.core.retry), now);
    PendingSurvives(q.core.pending);
    ChunksSurvive(q.core.retry, now);
    AllDue(chunks, now);
    RestoreIntoEmpty(empty, q.core.pending, chunks, now, o);
  }

  /** And every reachable queue whose items were measured meets the condition. */
  lemma ReachableRoundTrip(run: seq<Happening>, empty: Queue, now: int, o: Options)
    requires QueueSteps.Run(run, o).Some? && forall i | 0 <= i < |run| :: MeasuredEvent(run[i].event)
    requires empty.core.pending.Count() == 0 && |empty.core.retry| == 0 && empty.pendingBytes == 0
    ensures var q := QueueSteps.Run(run, o).value;
            var s := RestoredFrom(empty, Some(SnapshotOf(q.core.pending, q.core.retry)), now, o);
            && s.core.pending == q.core.pending && s.pendingBytes == q.pendingBytes
            && SameButDue(q.core.retry, s.core.retry, now) && Due(s.core.retry, false, now) == s.core.retry
  {
    QueueOrderly(run, o);
    Counters.CountersAreExact(run, o);
    RoundTrip(QueueSteps.Run(run, o).value, empty, now, o);
  }

  /** What is restored goes ahead of what is pending, kind by kind, and the byte
      counter stays the sum of the sizes. If the bound is exceeded it drops from
      the restored items first. */
  lemma RestoreGoesAhead(q: Queue, snapshot: Snapshot, now: int, o: Options, kind: Kind)
    requires snapshot.version == VERSION && q.pendingBytes == PendingBytes(q.core.pending)
    ensures var s, all := RestoredFrom(q, Some(snapshot), now, o), Merged(ReviveAll(snapshot.pending), q.core.pending);
            && all.Of(kind) == ReviveItems(kind, snapshot.pending.Of(kind)) + q.core.pending.Of(kind)
            && s.core.pending == Kept(all, o.config.maxQueueItems)
            && (all.Count() <= o.config.maxQueueItems ==> s.core.pending == all)
            && s.pendingBytes == PendingBytes(s.core.pending)
            && s.core.retry == q.core.retry + ReviveChunks(snapshot.retry, now)
  {
    var items := ReviveAll(snapshot.pending);
    AheadByKind(snapshot.pending, q.core.pending, kind);
    RestoreKeeps(q, items, ReviveChunks(snapshot.retry, now), now, o, Merged(items, q.core.pending));
  }

  lemma AheadByKind(saved: Groups<SavedItem>, pending: Groups<Item>, kind: Kind)
    ensures Merged(ReviveAll(saved), pending).Of(kind) == ReviveItems(kind, saved.Of(kind)) + pending.Of(kind)
  {
  }

  lemma RestoreKeeps(q: Queue, items: Groups<Item>, chunks: seq<Chunk>, now: int, o: Options, all: Groups<Item>)
    requires q.pendingBytes == PendingBytes(q.core.pending) && all == Merged(items, q.core.pending)
    ensures var s := Restored(q, items, chunks, now, o);
            && s.core.pending == Kept(all, o.config.maxQueueItems)
            && (all.Count() <= o.config.maxQueueItems ==> s.core.pending == all)
            && s.pendingBytes == PendingBytes(s.core.pending)
            && s.core.retry == q.core.retry + chunks
  {
    RestoredParts(q, items, chunks, now, o, all);
    MergedKept(items, q.core.pending, o.config.maxQueueItems);
    if all.Count() <= o.config.maxQueueItems { NoneDropped(all, o.config.maxQueueItems); }
  }

  lemma MergedKept(items: Groups<Item>, pending: Groups<Item>, max: int)
    ensures var all := Merged(items, pending);
            PendingBytes(pending) + PendingBytes(items) - SumBytes(Dropped(all, max)) == PendingBytes(Kept(all, max))
  {
    Counters.MergedBytes(items, pending);
    OverflowBytes(Merged(items, pending), max);
  }

  /** Nothing, or a snapshot of another version than 1, changes nothing; of any other
      snapshot every item and chunk is taken in. */
  lemma OnlyVersionOneIsRead(q: Queue, s: Option<Snapshot>, now: int, o: Options)
    ensures s == None || s.value.version != 1 ==> RestoredFrom(q, s, now, o) == q
    ensures s.Some? && s.value.version == 1 ==>
              var all := RestoredFrom(q, s, now, o).core.accepted;
              all == q.core.accepted + ReviveAll(s.value.pending).Flat() + ItemsOf(ReviveChunks(s.value.retry, now))
  {
  }

  /** `restore` does not enforce the bound on waiting chunks: it is exceeded
      exactly if those that waited and those restored are too many together. */
  lemma RestoreMayExceedTheCap(q: Queue, snapshot: Snapshot, now: int, o: Options)
    requires snapshot.version == VERSION
    ensures |RestoredFrom(q, Some(snapshot), now, o).core.retry| > MAX_RETRY_CHUNKS
            <==> |q.core.retry| + |snapshot.retry| > MAX_RETRY_CHUNKS
  {
  }

  /** 51 chunks are enough, for any queue. */
  lemma CapExceeded(q: Queue, c: SavedChunk, now: int, o: Options) returns (s: Snapshot)
    ensures s.version == VERSION && |s.retry| == 51
    ensures |RestoredFrom(q, Some(s), now, o).core.retry| > MAX_RETRY_CHUNKS
  {
    s := Snapshot(VERSION, Groups([], [], []), seq(51, i => c));
    RestoreMayExceedTheCap(q, s, now, o);
  }

  // ---------------------------------------------------------------------
  // What a snapshot leaves out
  // ---------------------------------------------------------------------

  function SavedItems(saved: seq<SavedChunk>): nat
  {
    if saved == [] then 0 else SavedItems(saved[..|saved|-1]) + |saved[|saved|-1].items|
  }

  /** How many items a snapshot holds. */
  function SavedCount(s: Snapshot): nat { s.pending.Count() + SavedItems(s.retry) }

  lemma {:induction false} SavedItemsOf(chunks: seq<Chunk>)
    ensures SavedItems(SaveChunks(chunks)) == |ItemsOf(chunks)|
  {
    if chunks != [] {
      SavedItemsOf(chunks[..|chunks|-1]);
      assert SaveChunks(chunks)[..|chunks|-1] == SaveChunks(chunks[..|chunks|-1]);
    }
  }

  /** A snapshot holds everything that the queue holds exactly if nothing is left
      of a pass: no chunk is in flight, and none of the pass is still to be sent. */
  lemma SnapshotIsWholeIff(c: State)
    ensures SavedCount(SnapshotOf(c.pending, c.retry)) == ShutdownLaws.Held(c) <==> ItemsOf(c.work) == []
  {
    SavedItemsOf(c.retry);
  }

  /** In a queue in which a drain is live it need not: an item is captured and a
      flush called. */
  lemma SnapshotMissesFlight(item: Item, r: Reading, o: Options) returns (run: seq<Happening>)
    requires !o.autoFlush && o.config.maxQueueItems >= 1 && r.now >= 0
    ensures QueueSteps.Run(run, o).Some?
    ensures var c := QueueSteps.Run(run, o).value.core; SavedCount(SnapshotOf(c.pending, c.retry)) < ShutdownLaws.Held(c)
  {
    var q := Next(EMPTY_QUEUE, Enqueues(item), r, o);
    FirstCaptured(item, r, o);
    ShutdownLaws.RunMore([], Happening(Enqueues(item), r), o);
    run := [] + [Happening(Enqueues(item), r)];
    var e := Flushes(false, None);
    ShutdownLaws.RunMore(run, Happening(e, r), o);
    run := run + [Happening(e, r)];
    var c := Next(q, e, r, o).core;
    FirstFlight(q, item, r, o);
    SnapshotIsWholeIff(c);
    SavedItemsOf(c.retry);
  }

  lemma FirstCaptured(item: Item, r: Reading, o: Options)
    requires !o.autoFlush && o.config.maxQueueItems >= 1 && r.now >= 0
    ensures Possible(EMPTY_QUEUE, Enqueues(item), r, o)
    ensures var q := Next(EMPTY_QUEUE, Enqueues(item), r, o);
            && q.core.pending.Flat() == [item] && q.core.retry == [] && q.core.work == [] && q.core.keys == {} && q.core.clock == r.now
            && !q.paused && !q.draining && !q.core.flying
  {
    var g := Push(EMPTY_QUEUE.core.pending, item);
    assert g.Count() == 1 && g.Flat() == [item];
    NoneDropped(g, o.config.maxQueueItems);
  }

  lemma LaunchKeepsItems(c: State, now: int)
    requires c.work != []
    ensures ItemsOf(LaunchStep(c, now).work) == ItemsOf(c.work)
  {
    var t := LaunchStep(c, now);
    ItemsOfHead(c.work);
    ItemsOfHead(t.work);
    assert t.work[1..] == c.work[1..];
  }

  lemma PassItems(q: Queue, r: Reading, o: Options)
    requires q.core.retry == []
    ensures ItemsOf(StartPass(q, r, o).core.work) == q.core.pending.Flat()
  {
    var cut := CutOf(q, q.drainBytes, r, o);
    CutKeepsItems(q.core.pending, r.env, Limits(q.drainBytes, o.config.limits.maxItems));
    assert StartPass(q, r, o).core.work == [] + cut == cut;
  }

  lemma FirstFlight(q: Queue, item: Item, r: Reading, o: Options)
    requires q.core.pending.Flat() == [item] && q.core.retry == [] && q.core.work == [] && !q.paused && !q.draining
    ensures ItemsOf(Next(q, Flushes(false, None), r, o).core.work) == [item]
  {
    var b := Entered(Flushing(q, false, r.now), None, o);
    PassItems(b, r, o);
    LaunchKeepsItems(StartPass(b, r, o).core, r.now);
  }
}
