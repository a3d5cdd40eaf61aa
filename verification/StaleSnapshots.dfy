/** Which snapshots may be restored: a restart stays at-most-once exactly if no
    item that the snapshot makes pending again is in a chunk that is out. */
module StaleSnapshots {
  import opened Utf8
  import opened Json
  import opened Chunker
  import opened Packing
  import opened Delivery
  import opened QueueRefines
  import opened Conservation
  import opened Snapshots
  import opened BatchIds
  import opened Ingestion
  import History
  import FlushJoining

  /** Whatever happens next, no item is taken in twice. */
  ghost predicate StaysAtMostOnce(w: Site, cfg: Config)
  {
    forall events, x :: RunOn(w, events, cfg).Some? ==> Occurs(RunOn(w, events, cfg).value.ingested, x) <= 1
  }

  lemma SafeRestart(w: Site, now: int, cfg: Config)
    requires Inv(w, cfg) && Apart(w)
    ensures StaysAtMostOnce(Restarted(w, true, now, cfg), cfg)
  {
    var a := Restarted(w, true, now, cfg);
    RestartKeeps(w, true, now, cfg);
    forall events, x | RunOn(a, events, cfg).Some? ensures Occurs(RunOn(a, events, cfg).value.ingested, x) <= 1 {
      RunKeeps(a, events, cfg);
      IngestedOnce(RunOn(a, events, cfg).value, cfg, x);
    }
  }

  // ---------------------------------------------------------------------
  // How an item gets in twice
  // ---------------------------------------------------------------------

  /** What holds whether or not a restart was safe. */
  ghost predicate Sane(w: Site) { CopiesOnly(w) && Booked(w) }

  lemma NextSane(w: Site, e: Ingestion.Event, cfg: Config)
    requires Sane(w) && May(w, e, cfg)
    ensures Sane(Next(w, e, cfg))
  {
    NextCopies(w, e, cfg);
    match e
    case Goes(step, env, limit) => StepBooked(w, step, env, limit, cfg);
    case Arrive(c) => TakenInBooked(w, c);
    case _ =>
  }

  lemma OneMore(w: Site, events: seq<Ingestion.Event>, e: Ingestion.Event, cfg: Config)
    requires RunOn(w, events, cfg).Some? && May(RunOn(w, events, cfg).value, e, cfg)
    ensures RunOn(w, events + [e], cfg) == Some(Next(RunOn(w, events, cfg).value, e, cfg))
  {
    assert (events + [e])[..|events|] == events;
  }

  /** A chunk that was taken, or that the network has, gets to the server. */
  lemma GetIn(w: Site, events: seq<Ingestion.Event>, c: Chunk, cfg: Config) returns (all: seq<Ingestion.Event>)
    requires RunOn(w, events, cfg).Some?
    requires var v := RunOn(w, events, cfg).value; Sane(v) && (c in v.client.taken || c in v.wire)
    ensures RunOn(w, all, cfg).Some?
    ensures var v, u := RunOn(w, events, cfg).value, RunOn(w, all, cfg).value;
            Sane(u) && u.client == v.client && u.made == v.made && u.seen == v.seen + {c.key}
  {
    var v := RunOn(w, events, cfg).value;
    all := events;
    if c !in v.wire {
      OneMore(w, all, Beacon(c), cfg);
      NextSane(v, Beacon(c), cfg);
      all := all + [Beacon(c)];
      v := Next(v, Beacon(c), cfg);
    }
    OneMore(w, all, Arrive(c), cfg);
    NextSane(v, Arrive(c), cfg);
    all := all + [Arrive(c)];
  }

  /** A restored queue holds everything that the snapshot holds. */
  lemma RebornIs(w: Site, now: int, cfg: Config)
    requires w.snapshot.Some? && SnapshotKept(w, cfg) && Sane(w)
    ensures var v := Restarted(w, true, now, cfg);
            Sane(v) && v.client.pending == Recovered(w) && v.client.clock == now && v.client.keys <= KeySet(w.made)
  {
    NoneDropped(Recovered(w), cfg.maxQueueItems);
    MergedWithNothing(Recovered(w), INIT.pending);
    MergedEmpty(Recovered(w));
    RestartCopies(w, true, now, cfg);
    RevivedKeys(w.snapshot.value.retry, now);
    LiveIsMade(w);
  }

  lemma MergedEmpty(g: Groups<Item>)
    ensures Merged(g, EMPTY) == g && Merged(Groups([], [], []), g) == g
  {
  }

  /** The unsent store is put back, and nothing pending is lost. */
  lemma ResendIs(w: Site, now: int, cfg: Config)
    requires Sane(w) && w.client.pending.Count() <= History.Max(0, cfg.maxQueueItems) && w.client.keys <= KeySet(w.made)
    ensures var v := Next(w, Resend(true, now), cfg);
            && Sane(v) && v.client.pending == w.client.pending && v.client.clock == now && v.client.keys <= KeySet(w.made)
            && v.client.retry == w.client.retry + ReviveChunks(w.store, now)
            && v.made == w.made && v.ids == w.ids && v.wire == w.wire && v.seen == w.seen
  {
    NextSane(w, Resend(true, now), cfg);
    NoneDropped(w.client.pending, cfg.maxQueueItems);
    MergedEmpty(w.client.pending);
    RevivedKeys(w.store, now);
    LiveIsMade(w);
  }

  lemma SubsetNamed(keys: set<Text>, all: set<Text>, ids: set<Text>)
    requires keys <= all && Named(all, ids)
    ensures Named(keys, ids)
  {
  }

  /** With a new batch id everything can be taken. */
  lemma TakeIs(w: Site, env: Envelope, limit: int, cfg: Config)
    requires Sane(w) && w.client.keys <= KeySet(w.made) && w.client.clock <= env.now && env.batchId !in w.ids
    ensures var cut := Cut(w.client.pending, env, Limits(limit, cfg.limits.maxItems));
            var v := Stepped(w, TakeAll(cut), env, cfg);
            && May(w, Goes(TakeAll(cut), env, limit), cfg) && Sane(v) && KeySet(cut) !! KeySet(w.made)
            && ItemsOf(cut) == w.client.pending.Flat()
            && v.client.taken == w.client.taken + (w.client.retry + cut) && v.made == w.made + cut && v.seen == w.seen && v.wire == w.wire
  {
    var limits := Limits(limit, cfg.limits.maxItems);
    var cut := Cut(w.client.pending, env, limits);
    SubsetNamed(w.client.keys, KeySet(w.made), w.ids);
    UnusedIsFresh(w.client.keys, w.ids, env.batchId);
    CutIsCut(w.client.pending, env, limits, w.client.keys);
    CutIsNew(w, TakeAll(cut), env, limit, cfg);
    NextSane(w, Goes(TakeAll(cut), env, limit), cfg);
  }

  /** A copy that is out and in the store has been revived. */
  lemma StoredIsRevived(store: seq<SavedChunk>, now: int, key: Text) returns (c: Chunk)
    requires key in SavedKeys(store)
    ensures c in ReviveChunks(store, now) && c.key == key
  {
    var i :| 0 <= i < |store| && store[i].key == key;
    c := ReviveChunks(store, now)[i];
  }

  /** The chunks of the restarted process are resent, taken and get in. */
  lemma Unloaded(w: Site, env: Envelope, cfg: Config) returns (events: seq<Ingestion.Event>, cut: seq<Chunk>)
    requires Sane(w) && w.client.pending.Count() <= History.Max(0, cfg.maxQueueItems) && w.client.keys <= KeySet(w.made)
    requires env.batchId !in w.ids
    ensures RunOn(w, events, cfg).Some? && ItemsOf(cut) == w.client.pending.Flat() && forall m | m in w.made :: m !in cut
    ensures var v := RunOn(w, events, cfg).value;
            && Sane(v) && v.made == w.made + cut && v.seen == w.seen && v.wire == w.wire
            && (forall c | c in cut :: c in v.client.taken) && forall c | c in ReviveChunks(w.store, env.now) :: c in v.client.taken
  {
    var a := Next(w, Resend(true, env.now), cfg);
    ResendIs(w, env.now, cfg);
    OneMore(w, [], Resend(true, env.now), cfg);
    events := [] + [Resend(true, env.now)];
    cut := Cut(w.client.pending, env, Limits(0, cfg.limits.maxItems));
    TakeIs(a, env, 0, cfg);
    OneMore(w, events, Goes(TakeAll(cut), env, 0), cfg);
    events := events + [Goes(TakeAll(cut), env, 0)];
    forall m | m in w.made ensures m !in cut { assert m.key in KeySet(w.made); }
  }

  /** An item that is both pending and out can get in twice. */
  lemma GetsInTwice(a: Site, m: Chunk, x: Item, now: int, cfg: Config) returns (events: seq<Ingestion.Event>)
    requires Sane(a) && a.client.pending.Count() <= History.Max(0, cfg.maxQueueItems) && a.client.keys <= KeySet(a.made)
    requires m in a.made && m.key in Out(a) && x in m.items && x in a.client.pending.Flat()
    ensures RunOn(a, events, cfg).Some? && Occurs(RunOn(a, events, cfg).value.ingested, x) >= 2
  {
    var id := UnusedId(a.ids);
    var cut;
    events, cut := Unloaded(a, Envelope([], id, [], now), cfg);
    var i := FlushJoining.InItems(cut, x);
    var n := cut[i];
    events := Again(a, events, m.key, now, cfg);
    events := GetIn(a, events, n, cfg);
    InTwice(RunOn(a, events, cfg).value, m, n, x);
  }

  lemma InTwice(v: Site, m: Chunk, n: Chunk, x: Item)
    requires Booked(v) && m in v.made && n in v.made && m != n && m.key in v.seen && n.key in v.seen && x in m.items && x in n.items
    ensures Occurs(v.ingested, x) >= 2
  {
    UnderTwo(v.made, v.seen, m, n, x);
    assert Occurs(v.ingested, x) == OccursUnder(v.made, v.seen, x);
  }

  /** A copy of a chunk that is out gets in, if none did. */
  lemma Again(a: Site, events: seq<Ingestion.Event>, key: Text, now: int, cfg: Config) returns (all: seq<Ingestion.Event>)
    requires RunOn(a, events, cfg).Some? && key in Out(a)
    requires var v := RunOn(a, events, cfg).value;
             Sane(v) && v.seen == a.seen && v.wire == a.wire && forall c | c in ReviveChunks(a.store, now) :: c in v.client.taken
    ensures RunOn(a, all, cfg).Some?
    ensures var v, u := RunOn(a, events, cfg).value, RunOn(a, all, cfg).value;
            Sane(u) && u.client == v.client && u.made == v.made && key in u.seen
  {
    if key in a.seen {
      all := events;
    } else if key in KeySet(a.wire) {
      var c :| c in a.wire && c.key == key;
      all := GetIn(a, events, c, cfg);
    } else {
      var c := StoredIsRevived(a.store, now, key);
      all := GetIn(a, events, c, cfg);
    }
  }

  /** Over every run that may follow the restoration of a snapshot each item is
      taken in at most once, exactly if no item that is pending in the snapshot
      is in a chunk that the server has, that the network was given, or that the
      unsent store holds. */
  lemma RestoreIsSafeIff(events: seq<Ingestion.Event>, now: int, cfg: Config)
    requires Ingestion.Run(events, cfg).Some? && Ingestion.Run(events, cfg).value.snapshot.Some?
    ensures var w := Ingestion.Run(events, cfg).value; StaysAtMostOnce(Restarted(w, true, now, cfg), cfg) <==> Apart(w)
  {
    var w := Ingestion.Run(events, cfg).value;
    var a := Restarted(w, true, now, cfg);
    ReachableKeeps(events, cfg);
    if Apart(w) {
      SafeRestart(w, now, cfg);
    } else {
      var m, x :| m in w.made && m.key in Out(w) && x in m.items && x in Recovered(w).Flat();
      RebornIs(w, now, cfg);
      var twice := GetsInTwice(a, m, x, now, cfg);
      assert RunOn(a, twice, cfg).Some? && Occurs(RunOn(a, twice, cfg).value.ingested, x) > 1;
    }
  }

  // ---------------------------------------------------------------------
  // Both happen
  // ---------------------------------------------------------------------

  lemma OnlyItem(g: Groups<Item>, item: Item)
    requires g.Count() == 0
    ensures var h := Push(g, item); h.Flat() == [item] && WellKinded(h) && h.Count() == 1
  {
  }

  /** The first item that is captured is all that is pending. */
  lemma FirstItem(item: Item, now: int, cfg: Config)
    requires cfg.maxQueueItems >= 1 && item.bytes == Size(item.json)
    ensures var s := Apply(INIT, Accept(item), now, cfg);
            && s.pending.Flat() == [item] && WellKinded(s.pending) && Measured(s.pending.Flat()) && s.pending.Count() == 1
            && s.retry == [] && s.keys == {} && s.clock == now && s.taken == []
  {
    OnlyItem(INIT.pending, item);
    NoneDropped(Push(INIT.pending, item), cfg.maxQueueItems);
  }

  /** An item is captured and a snapshot taken. */
  lemma CapturedAndSaved(item: Item, env: Envelope, cfg: Config) returns (events: seq<Ingestion.Event>)
    requires item.bytes == Size(item.json) && IsPrinted(item) && cfg.maxQueueItems >= 1 && env.now >= 0
    ensures Ingestion.Run(events, cfg).Some?
    ensures var w := Ingestion.Run(events, cfg).value;
            && w.snapshot.Some? && Recovered(w).Flat() == [item] && w.client.pending == Recovered(w)
            && w.client.clock == env.now && w.client.keys == {} && w.client.taken == [] && w.client.retry == []
            && w.made == [] && Out(w) == {} && w.ids == {}
  {
    var e1 := Goes(Accept(item), env, 0);
    FirstItem(item, env.now, cfg);
    OneMore(EMPTY_SITE, [], e1, cfg);
    events := [] + [e1];
    var w1 := Next(EMPTY_SITE, e1, cfg);
    PendingSurvives(w1.client.pending);
    SameRevived(w1.client.pending, w1.client.retry);
    OneMore(EMPTY_SITE, events, Save, cfg);
    events := events + [Save];
  }

  /** And then the item is cut. */
  lemma CutAfterSnapshot(item: Item, env: Envelope, cfg: Config) returns (events: seq<Ingestion.Event>)
    requires item.bytes == Size(item.json) && IsPrinted(item) && cfg.maxQueueItems >= 1 && env.now >= 0
    ensures Ingestion.Run(events, cfg).Some?
    ensures var w := Ingestion.Run(events, cfg).value;
            && w.snapshot.Some? && Recovered(w).Flat() == [item] && Out(w) == {}
            && w.client.taken == w.made && ItemsOf(w.made) == [item]
  {
    events := CapturedAndSaved(item, env, cfg);
    var w := Ingestion.Run(events, cfg).value;
    ReachableKeeps(events, cfg);
    var cut := Cut(w.client.pending, env, Limits(0, cfg.limits.maxItems));
    TakeIs(w, env, 0, cfg);
    OneMore(EMPTY_SITE, events, Goes(TakeAll(cut), env, 0), cfg);
    events := events + [Goes(TakeAll(cut), env, 0)];
  }

  /** A snapshot that is older than a cut may still be restored, while nothing of
      what was cut got out. */
  lemma OldSnapshotMayBeSafe(item: Item, env: Envelope, cfg: Config) returns (events: seq<Ingestion.Event>)
    requires item.bytes == Size(item.json) && IsPrinted(item) && cfg.maxQueueItems >= 1 && env.now >= 0
    ensures Ingestion.Run(events, cfg).Some?
    ensures var w := Ingestion.Run(events, cfg).value;
            w.snapshot.Some? && item in Recovered(w).Flat() && item in ItemsOf(w.made) && Apart(w)
  {
    events := CutAfterSnapshot(item, env, cfg);
  }

  /** Once a page has handed the chunk to the network it may not. */
  lemma StaleSnapshotHappens(item: Item, env: Envelope, cfg: Config) returns (events: seq<Ingestion.Event>)
    requires item.bytes == Size(item.json) && IsPrinted(item) && cfg.maxQueueItems >= 1 && env.now >= 0
    ensures Ingestion.Run(events, cfg).Some?
    ensures var w := Ingestion.Run(events, cfg).value; w.snapshot.Some? && item in Recovered(w).Flat() && !Apart(w)
  {
    events := CutAfterSnapshot(item, env, cfg);
    var w := Ingestion.Run(events, cfg).value;
    assert item in ItemsOf(w.made);
    var i := FlushJoining.InItems(w.made, item);
    var c := w.made[i];
    OneMore(EMPTY_SITE, events, Beacon(c), cfg);
    events := events + [Beacon(c)];
    assert c.key in Out(Next(w, Beacon(c), cfg));
  }
}
