/** The whole way from capture to the server, over a network that loses replies
    and repeats requests, through page unloads, the unsent store, snapshots and
    restarts: no captured item is ingested twice. */
module Ingestion {
  import opened Utf8
  import opened Json
  import opened Chunker
  import opened Packing
  import opened History
  import opened Delivery
  import opened KeyHistory
  import opened QueueRefines
  import opened Conservation
  import opened Snapshots
  import opened Unsent
  import opened BatchIds

  datatype Site = Site(
    client: State,               // the queue of the running process
    store: seq<SavedChunk>,      // the browser's unsent store
    snapshot: Option<Snapshot>,  // the latest snapshot
    wire: seq<Chunk>,            // every request handed to the network
    seen: set<Text>,             // keys that the server has accepted
    read: Groups<Value>,         // what the server has read from the bodies it accepted
    ingested: seq<Item>,         // the items whose texts were pasted into them
    captured: seq<Item>,         // history: every item captured, by any process
    made: seq<Chunk>,            // history: every chunk ever cut, by any process
    ids: set<Text>)              // history: every batch id ever used, by any process

  const EMPTY_SITE: Site := Site(INIT, [], None, [], {}, Groups([], [], []), [], [], [], {})

  datatype Event =
    | Goes(step: Step, env: Envelope, limit: int)    // the queue goes on; `env` and `limit` are those of its cut
    | Beacon(c: Chunk)                               // a page that unloads hands a chunk to the network
    | Keep(c: Chunk)                                 // or keeps it, when the browser refuses
    | Forget(key: Text)
    | Resend(emptied: bool, now: int)                // stored chunks go back into the queue; the store may refuse to be emptied
    | Save                                           // a snapshot is taken
    | Arrive(c: Chunk)                               // the server gets a request, or gets it again
    | Restart(recover: bool, now: int)               // the process ends and a new one starts

  function CutOf(step: Step): seq<Chunk>
  {
    match step
    case Begin(_, cut) => cut
    case TakeAll(cut) => cut
    case _ => []
  }

  function SavedKeys(saved: seq<SavedChunk>): set<Text> { set c | c in saved :: c.key }

  /** Keys whose chunks the server has, or may get from the network or the store. */
  function Out(w: Site): set<Text> { w.seen + KeySet(w.wire) + SavedKeys(w.store) }

  function SnapshotKeys(w: Site): set<Text> { if w.snapshot.Some? then SavedKeys(w.snapshot.value.retry) else {} }

  /** Items that a restored snapshot makes pending. */
  function Recovered(w: Site): Groups<Item>
  {
    if w.snapshot.Some? then ReviveAll(w.snapshot.value.pending) else Groups([], [], [])
  }

  /** No chunk that is out holds an item that is pending in the snapshot. */
  ghost predicate Apart(w: Site)
  {
    forall m, x | m in w.made && m.key in Out(w) && x in m.items :: x !in Recovered(w).Flat()
  }

  /** Items are captured once, serialized and measured; batch ids are never used
      again, by any process. What the server replies is not tied to what it gets:
      replies are lost, late or made up. */
  ghost predicate May(w: Site, e: Event, cfg: Config)
  {
    match e
    case Goes(step, env, limit) =>
      && Enabled(w.client, step, env.now, cfg) && !step.Restore?
      && (step.Accept? ==> step.item !in w.captured && step.item.bytes == Size(step.item.json) && IsPrinted(step.item))
      && (step.Begin? || step.TakeAll? ==>
            && CutOf(step) == Cut(w.client.pending, env, Limits(limit, cfg.limits.maxItems))
            && (w.client.pending.Count() > 0 ==> env.batchId !in w.ids))
    case Beacon(c) => c in w.client.taken
    case Keep(c) => c in w.client.taken
    case Arrive(c) => c in w.wire
    case Restart(recover, _) => recover ==> Apart(w)
    case _ => true
  }

  function Stepped(w: Site, step: Step, env: Envelope, cfg: Config): Site
    requires (step.Launch? ==> w.client.work != []) && (step.Answer? ==> Aloft(w.client))
  {
    var client := Apply(w.client, step, env.now, cfg);
    w.(client := client,
       captured := if step.Accept? then w.captured + [step.item] else w.captured,
       made := w.made + CutOf(step),
       ids := if step.Begin? || step.TakeAll? then w.ids + {env.batchId} else w.ids,
       wire := if step.Launch? then w.wire + [client.work[0]] else w.wire)
  }

  function ReadOn(read: Groups<Value>, body: Text): Groups<Value>
  {
    Groups(read.errors + Received(body, Errors), read.traces + Received(body, Traces), read.events + Received(body, Events))
  }

  function TakenIn(w: Site, c: Chunk): Site
  {
    if c.key in w.seen then w
    else w.(seen := w.seen + {c.key}, read := ReadOn(w.read, c.body), ingested := w.ingested + c.items)
  }

  /** The queue of a new process. */
  function Reborn(w: Site, recover: bool, now: int, cfg: Config): State
  {
    if recover && w.snapshot.Some? then
      RestoreStep(INIT, Recovered(w), ReviveChunks(w.snapshot.value.retry, now), cfg).(clock := now)
    else INIT
  }

  function Restarted(w: Site, recover: bool, now: int, cfg: Config): Site { w.(client := Reborn(w, recover, now, cfg)) }

  function Next(w: Site, e: Event, cfg: Config): Site
    requires e.Goes? ==> (e.step.Launch? ==> w.client.work != []) && (e.step.Answer? ==> Aloft(w.client))
  {
    match e
    case Goes(step, env, _) => Stepped(w, step, env, cfg)
    case Beacon(c) => w.(wire := w.wire + [c])
    case Keep(c) => w.(store := Saved(w.store, SaveChunk(c)))
    case Forget(key) => w.(store := Without(w.store, key))
    case Resend(emptied, now) =>
      w.(client := RestoreStep(w.client, Groups([], [], []), ReviveChunks(w.store, now), cfg).(clock := now),
         store := if emptied then [] else w.store)
    case Save => w.(snapshot := Some(SnapshotOf(w.client.pending, w.client.retry)))
    case Arrive(c) => TakenIn(w, c)
    case Restart(recover, now) => Restarted(w, recover, now, cfg)
  }

  /** The site after more events; `None` if one of them is not possible. */
  ghost function RunOn(w: Site, events: seq<Event>, cfg: Config): Option<Site>
  {
    if events == [] then Some(w)
    else
      match RunOn(w, events[..|events|-1], cfg)
      case None => None
      case Some(v) =>
        var e := events[|events|-1];
        if May(v, e, cfg) then Some(Next(v, e, cfg)) else None
  }

  ghost function Run(events: seq<Event>, cfg: Config): Option<Site> { RunOn(EMPTY_SITE, events, cfg) }

  // ---------------------------------------------------------------------
  // Copies
  // ---------------------------------------------------------------------

  /** A key stands for a chunk that was made: one body, one list of items. */
  ghost predicate Made(made: seq<Chunk>, key: Text, body: Text, items: seq<Item>)
  {
    exists m :: m in made && m.key == key && m.body == body && m.items == items
  }

  ghost predicate AllMade(made: seq<Chunk>, chunks: seq<Chunk>) { forall c | c in chunks :: Made(made, c.key, c.body, c.items) }

  ghost predicate AllSavedMade(made: seq<Chunk>, saved: seq<SavedChunk>)
  {
    forall c | c in saved :: Made(made, c.key, c.body, c.items)
  }

  /** Every copy of a chunk, wherever it is, is a copy of one that was made. */
  ghost predicate CopiesOnly(w: Site)
  {
    && AllMade(w.made, w.client.work) && AllMade(w.made, w.client.retry) && AllMade(w.made, w.client.taken)
    && AllMade(w.made, w.wire) && AllSavedMade(w.made, w.store)
    && (w.snapshot.Some? ==> AllSavedMade(w.made, w.snapshot.value.retry))
  }

  lemma MadeGrows(made: seq<Chunk>, more: seq<Chunk>, chunks: seq<Chunk>)
    requires AllMade(made, chunks)
    ensures AllMade(made + more, chunks)
  {
    forall c | c in chunks ensures Made(made + more, c.key, c.body, c.items) {
      var m :| m in made && m.key == c.key && m.body == c.body && m.items == c.items;
      assert m in made + more;
    }
  }

  lemma SavedMadeGrows(made: seq<Chunk>, more: seq<Chunk>, saved: seq<SavedChunk>)
    requires AllSavedMade(made, saved)
    ensures AllSavedMade(made + more, saved)
  {
    forall c | c in saved ensures Made(made + more, c.key, c.body, c.items) {
      var m :| m in made && m.key == c.key && m.body == c.body && m.items == c.items;
      assert m in made + more;
    }
  }

  lemma CutIsMade(made: seq<Chunk>, cut: seq<Chunk>)
    ensures AllMade(made + cut, cut)
  {
    forall c | c in cut ensures Made(made + cut, c.key, c.body, c.items) {
      assert c in made + cut;
    }
  }

  /** What a queue step leaves in its lists are copies of what was there, and of
      what it cut. */
  lemma StepCopies(s: State, step: Step, now: int, cfg: Config, made: seq<Chunk>)
    requires AllMade(made, s.work) && AllMade(made, s.retry) && AllMade(made, s.taken) && AllMade(made, CutOf(step))
    requires Enabled(s, step, now, cfg) && !step.Restore?
    ensures var t := Apply(s, step, now, cfg); AllMade(made, t.work) && AllMade(made, t.retry) && AllMade(made, t.taken)
  {
    match step
    case Begin(force, cut) => DueMembers(s.retry, force, now);
    case Launch => assert s.work[0] in s.work;
    case Answer(reply, jitter) => AnswerCopies(s, reply, DelayOf(s.work[0], reply, jitter, cfg.policy), now, cfg, made);
    case _ =>
  }

  lemma AnswerCopies(s: State, reply: Reply, delay: int, now: int, cfg: Config, made: seq<Chunk>)
    requires AllMade(made, s.work) && AllMade(made, s.retry) && Aloft(s)
    ensures var t := AnswerStep(s, reply, delay, now, cfg); AllMade(made, t.work) && AllMade(made, t.retry)
  {
    assert s.work[0] in s.work;
    var d := s.work[0].(nextAttemptAt := now + delay);
    assert AllMade(made, s.retry + [d]);
  }

  lemma QueueCopies(w: Site, step: Step, env: Envelope, limit: int, cfg: Config)
    requires CopiesOnly(w) && May(w, Goes(step, env, limit), cfg)
    ensures CopiesOnly(Stepped(w, step, env, cfg))
  {
    var cut, made, v := CutOf(step), w.made + CutOf(step), Stepped(w, step, env, cfg);
    MadeGrows(w.made, cut, w.client.work);
    MadeGrows(w.made, cut, w.client.retry);
    MadeGrows(w.made, cut, w.client.taken);
    MadeGrows(w.made, cut, w.wire);
    SavedMadeGrows(w.made, cut, w.store);
    if w.snapshot.Some? { SavedMadeGrows(w.made, cut, w.snapshot.value.retry); }
    CutIsMade(w.made, cut);
    StepCopies(w.client, step, env.now, cfg, made);
    if step.Launch? { assert v.client.work[0] in v.client.work; }
  }

  lemma RevivedCopies(made: seq<Chunk>, saved: seq<SavedChunk>, now: int)
    requires AllSavedMade(made, saved)
    ensures AllMade(made, ReviveChunks(saved, now))
  {
    var r := ReviveChunks(saved, now);
    forall c | c in r ensures Made(made, c.key, c.body, c.items) {
      var i :| 0 <= i < |r| && r[i] == c;
      assert saved[i] in saved;
    }
  }

  lemma SavedCopies(made: seq<Chunk>, chunks: seq<Chunk>)
    requires AllMade(made, chunks)
    ensures AllSavedMade(made, SaveChunks(chunks))
  {
    var r := SaveChunks(chunks);
    forall c | c in r ensures Made(made, c.key, c.body, c.items) {
      var i :| 0 <= i < |r| && r[i] == c;
      assert chunks[i] in chunks;
    }
  }

  lemma {:induction false} ShortenedMembers(list: seq<SavedChunk>, c: SavedChunk)
    requires c in Shortened(list)
    ensures c in list
  {
    if StoredBytes(list) > MAX_STORED_BYTES { ShortenedMembers(list[1..], c); }
  }

  lemma StoredCopies(made: seq<Chunk>, store: seq<SavedChunk>, c: Chunk)
    requires AllSavedMade(made, store) && Made(made, c.key, c.body, c.items)
    ensures AllSavedMade(made, Saved(store, SaveChunk(c)))
  {
    forall d | d in Saved(store, SaveChunk(c)) ensures Made(made, d.key, d.body, d.items) {
      ShortenedMembers(Without(store, c.key) + [SaveChunk(c)], d);
    }
  }

  lemma NextCopies(w: Site, e: Event, cfg: Config)
    requires CopiesOnly(w) && May(w, e, cfg)
    ensures CopiesOnly(Next(w, e, cfg))
  {
    match e
    case Goes(step, env, limit) => QueueCopies(w, step, env, limit, cfg);
    case Keep(c) => StoredCopies(w.made, w.store, c);
    case Resend(emptied, now) => RevivedCopies(w.made, w.store, now);
    case Save => SavedCopies(w.made, w.client.retry);
    case Restart(recover, now) => RestartCopies(w, recover, now, cfg);
    case _ =>
  }

  lemma RestartCopies(w: Site, recover: bool, now: int, cfg: Config)
    requires CopiesOnly(w)
    ensures CopiesOnly(Restarted(w, recover, now, cfg))
  {
    if recover && w.snapshot.Some? { RevivedCopies(w.made, w.snapshot.value.retry, now); }
  }

  // ---------------------------------------------------------------------
  // Counting
  // ---------------------------------------------------------------------

  function Room(w: Site, x: Item): nat { if x in w.captured then 1 else 0 }

  /** How often an item occurs in the chunks that were made under some keys. */
  function OccursUnder(made: seq<Chunk>, keys: set<Text>, x: Item): nat
  {
    if made == [] then 0
    else OccursUnder(made[..|made|-1], keys, x) + if made[|made|-1].key in keys then Occurs(made[|made|-1].items, x) else 0
  }

  /** Keys whose chunks may still reach the server, or have reached it. */
  function Live(w: Site): set<Text>
  {
    Out(w) + KeySet(w.client.work) + KeySet(w.client.retry) + KeySet(w.client.taken) + SnapshotKeys(w)
  }

  /** A captured item is pending or in a live chunk, and once only. */
  ghost predicate Once(w: Site) { forall x :: OccursInGroups(w.client.pending, x) + OccursUnder(w.made, Live(w), x) <= Room(w, x) }

  /** What the snapshot holds is pending there or in one of its chunks, once only,
      and within the bound. */
  ghost predicate SnapshotKept(w: Site, cfg: Config)
  {
    && Recovered(w).Count() <= Max(0, cfg.maxQueueItems)
    && forall x :: OccursInGroups(Recovered(w), x) + OccursUnder(w.made, SnapshotKeys(w), x) <= Room(w, x)
  }

  /** The server's books. */
  ghost predicate Booked(w: Site)
  {
    && Distinct(Keys(w.made)) && w.seen <= KeySet(w.made) && Named(KeySet(w.made), w.ids)
    && forall x :: Occurs(w.ingested, x) == OccursUnder(w.made, w.seen, x)
  }

  lemma NoItems(g: Groups<Item>, x: Item)
    requires g.Count() == 0
    ensures OccursInGroups(g, x) == 0
  {
  }

  lemma KeptFewer(g: Groups<Item>, max: int, x: Item)
    ensures OccursInGroups(Kept(g, max), x) <= OccursInGroups(g, x)
  {
    KeptAndDropped(g, max, x);
  }

  /** Only the keys that chunks have matter. */
  lemma {:induction false} UnderFewer(made: seq<Chunk>, a: set<Text>, b: set<Text>, x: Item)
    requires forall c | c in made && c.key in a :: c.key in b
    ensures OccursUnder(made, a, x) <= OccursUnder(made, b, x)
  {
    if made != [] {
      assert made == made[..|made|-1] + [made[|made|-1]];
      UnderFewer(made[..|made|-1], a, b, x);
    }
  }

  lemma {:induction false} UnderBoth(made: seq<Chunk>, a: set<Text>, b: set<Text>, x: Item)
    ensures OccursUnder(made, a + b, x) <= OccursUnder(made, a, x) + OccursUnder(made, b, x)
  {
    if made != [] { UnderBoth(made[..|made|-1], a, b, x); }
  }

  lemma {:induction false} UnderAll(made: seq<Chunk>, keys: set<Text>, x: Item)
    ensures OccursUnder(made, keys, x) <= OccursInChunks(made, x)
  {
    if made != [] { UnderAll(made[..|made|-1], keys, x); }
  }

  lemma {:induction false} UnderAppend(a: seq<Chunk>, b: seq<Chunk>, keys: set<Text>, x: Item)
    ensures OccursUnder(a + b, keys, x) == OccursUnder(a, keys, x) + OccursUnder(b, keys, x)
  {
    if b == [] {
      assert a + b == a;
    } else {
      assert (a + b)[..|a + b|-1] == a + b[..|b|-1];
      UnderAppend(a, b[..|b|-1], keys, x);
    }
  }

  lemma {:induction false} UnderNone(made: seq<Chunk>, keys: set<Text>, x: Item)
    requires forall m | m in made && m.key in keys :: x !in m.items
    ensures OccursUnder(made, keys, x) == 0
  {
    if made != [] {
      assert made == made[..|made|-1] + [made[|made|-1]];
      UnderNone(made[..|made|-1], keys, x);
      CountIn(made[|made|-1].items, x);
    }
  }

  lemma {:induction false} UnderSome(made: seq<Chunk>, keys: set<Text>, m: Chunk, x: Item)
    requires m in made && m.key in keys && x in m.items
    ensures OccursUnder(made, keys, x) >= 1
  {
    if made[|made|-1] == m { CountIn(m.items, x); } else { UnderSome(made[..|made|-1], keys, m, x); }
  }

  /** Two chunks that hold the same item hold it twice. */
  lemma {:induction false} UnderTwo(made: seq<Chunk>, keys: set<Text>, m: Chunk, n: Chunk, x: Item)
    requires m in made && n in made && m != n && m.key in keys && n.key in keys && x in m.items && x in n.items
    ensures OccursUnder(made, keys, x) >= 2
  {
    var init, last := made[..|made|-1], made[|made|-1];
    assert made == init + [last];
    if m == last {
      UnderSome(init, keys, n, x);
      CountIn(last.items, x);
    } else if n == last {
      UnderSome(init, keys, m, x);
      CountIn(last.items, x);
    } else {
      UnderTwo(init, keys, m, n, x);
    }
  }

  /** What is cut moves from the pending items into chunks with new keys. */
  lemma CutOccurs(made: seq<Chunk>, cut: seq<Chunk>, keys: set<Text>, x: Item)
    requires KeySet(cut) !! KeySet(made)
    ensures OccursUnder(made + cut, keys + KeySet(cut), x) <= OccursUnder(made, keys, x) + OccursInChunks(cut, x)
    ensures keys <= KeySet(made) ==> OccursUnder(made + cut, keys, x) == OccursUnder(made, keys, x)
  {
    UnderAppend(made, cut, keys + KeySet(cut), x);
    UnderAll(cut, keys + KeySet(cut), x);
    forall c | c in made ensures c.key in KeySet(made) { }
    UnderFewer(made, keys + KeySet(cut), keys, x);
    if keys <= KeySet(made) {
      UnderAppend(made, cut, keys, x);
      forall m | m in cut ensures m.key !in keys { assert m.key in KeySet(cut); }
      UnderNone(cut, keys, x);
    }
  }

  // ---------------------------------------------------------------------
  // Cuts
  // ---------------------------------------------------------------------

  /** The keys of a cut were never used. */
  lemma CutIsNew(w: Site, step: Step, env: Envelope, limit: int, cfg: Config)
    requires Booked(w) && May(w, Goes(step, env, limit), cfg)
    ensures KeySet(CutOf(step)) !! KeySet(w.made) && Distinct(Keys(CutOf(step)))
    ensures step.Begin? || step.TakeAll? ==> Named(KeySet(CutOf(step)), {env.batchId}) && ItemsOf(CutOf(step)) == w.client.pending.Flat()
  {
    if step.Begin? || step.TakeAll? {
      if w.client.pending.Count() > 0 { UnusedIsFresh(KeySet(w.made), w.ids, env.batchId); }
      CutIsCut(w.client.pending, env, Limits(limit, cfg.limits.maxItems), KeySet(w.made));
      CutIsNamed(w.client.pending, env, Limits(limit, cfg.limits.maxItems));
    }
  }

  // ---------------------------------------------------------------------
  // What is live stays live, or dies
  // ---------------------------------------------------------------------

  lemma DueKeys(chunks: seq<Chunk>, force: bool, now: int)
    ensures KeySet(Due(chunks, force, now)) <= KeySet(chunks) && KeySet(NotDue(chunks, force, now)) <= KeySet(chunks)
  {
    DueMembers(chunks, force, now);
  }

  lemma StepLive(w: Site, step: Step, env: Envelope, cfg: Config)
    requires Enabled(w.client, step, env.now, cfg) && !step.Restore?
    ensures Live(Stepped(w, step, env, cfg)) <= Live(w) + KeySet(CutOf(step))
  {
    match step
    case Begin(force, cut) => DueKeys(w.client.retry, force, env.now);
    case Launch => assert w.client.work[0] in w.client.work;
    case Answer(reply, jitter) =>
      assert w.client.work[0] in w.client.work;
      AnswerKeys(w.client, reply, DelayOf(w.client.work[0], reply, jitter, cfg.policy), env.now, cfg);
    case _ =>
  }

  lemma AnswerKeys(s: State, reply: Reply, delay: int, now: int, cfg: Config)
    requires Aloft(s)
    ensures var t := AnswerStep(s, reply, delay, now, cfg);
            KeySet(t.retry) <= KeySet(s.retry) + {s.work[0].key} && KeySet(t.work) <= KeySet(s.work) && t.taken == s.taken
  {
  }

  lemma SavedChunkKeys(chunks: seq<Chunk>)
    ensures SavedKeys(SaveChunks(chunks)) == KeySet(chunks)
  {
    var r := SaveChunks(chunks);
    forall c | c in chunks ensures c.key in SavedKeys(r) {
      var i :| 0 <= i < |chunks| && chunks[i] == c;
      assert r[i] in r;
    }
    forall c | c in r ensures c.key in KeySet(chunks) {
      var i :| 0 <= i < |r| && r[i] == c;
      assert chunks[i] in chunks;
    }
  }

  lemma RevivedKeys(saved: seq<SavedChunk>, now: int)
    ensures KeySet(ReviveChunks(saved, now)) == SavedKeys(saved)
  {
    var r := ReviveChunks(saved, now);
    forall c | c in saved ensures c.key in KeySet(r) {
      var i :| 0 <= i < |saved| && saved[i] == c;
      assert r[i] in r;
    }
    forall c | c in r ensures c.key in SavedKeys(saved) {
      var i :| 0 <= i < |r| && r[i] == c;
      assert saved[i] in saved;
    }
  }

  lemma StoredKeys(store: seq<SavedChunk>, c: SavedChunk)
    ensures SavedKeys(Saved(store, c)) <= SavedKeys(store) + {c.key}
  {
    forall d | d in Saved(store, c) ensures d.key in SavedKeys(store) + {c.key} {
      ShortenedMembers(Without(store, c.key) + [c], d);
    }
  }

  /** Events other than those of the queue make no chunk live. */
  lemma OtherLive(w: Site, e: Event, cfg: Config)
    requires May(w, e, cfg) && !e.Goes?
    ensures Live(Next(w, e, cfg)) <= Live(w)
  {
    match e
    case Keep(c) => StoredKeys(w.store, SaveChunk(c));
    case Resend(emptied, now) => RevivedKeys(w.store, now);
    case Save => SavedChunkKeys(w.client.retry);
    case Restart(recover, now) => if recover && w.snapshot.Some? { RevivedKeys(w.snapshot.value.retry, now); }
    case _ =>
  }

  /** After a restart only what is out and what the snapshot holds is live. */
  lemma RestartLive(w: Site, recover: bool, now: int, cfg: Config)
    ensures Live(Restarted(w, recover, now, cfg)) == Out(w) + SnapshotKeys(w)
  {
    if recover && w.snapshot.Some? { RevivedKeys(w.snapshot.value.retry, now); }
  }

  /** Every live key was made. */
  lemma LiveIsMade(w: Site)
    requires CopiesOnly(w) && w.seen <= KeySet(w.made)
    ensures Live(w) <= KeySet(w.made)
  {
  }

  // ---------------------------------------------------------------------
  // Once
  // ---------------------------------------------------------------------

  lemma AcceptOnce(g: Groups<Item>, item: Item, others: nat, captured: seq<Item>, max: int, x: Item)
    requires item !in captured && OccursInGroups(g, x) + others <= if x in captured then 1 else 0
    ensures OccursInGroups(Kept(Push(g, item), max), x) + others <= if x in captured + [item] then 1 else 0
  {
    OccursPushed(g, item, x);
    KeptFewer(Push(g, item), max, x);
    assert [item][..0] == [];
  }

  lemma StepUnder(w: Site, step: Step, env: Envelope, limit: int, cfg: Config, x: Item)
    requires Booked(w) && May(w, Goes(step, env, limit), cfg)
    ensures var v := Stepped(w, step, env, cfg);
            OccursUnder(v.made, Live(v), x) <= OccursUnder(w.made, Live(w), x) + OccursInChunks(CutOf(step), x)
  {
    var v, cut := Stepped(w, step, env, cfg), CutOf(step);
    CutIsNew(w, step, env, limit, cfg);
    StepLive(w, step, env, cfg);
    UnderFewer(v.made, Live(v), Live(w) + KeySet(cut), x);
    CutOccurs(w.made, cut, Live(w), x);
  }

  /** What a step leaves pending. */
  lemma PendingAfter(s: State, step: Step, now: int, cfg: Config)
    requires Enabled(s, step, now, cfg) && !step.Restore?
    ensures var pending := Apply(s, step, now, cfg).pending;
            if step.Accept? then pending == Kept(Push(s.pending, step.item), cfg.maxQueueItems)
            else if step.Begin? || step.TakeAll? then pending.Count() == 0 && ItemsOf(CutOf(step)) == s.pending.Flat()
            else pending == s.pending
  {
  }

  lemma StepOnce(w: Site, step: Step, env: Envelope, limit: int, cfg: Config)
    requires Once(w) && Booked(w) && May(w, Goes(step, env, limit), cfg)
    ensures Once(Stepped(w, step, env, cfg))
  {
    var v := Stepped(w, step, env, cfg);
    forall x ensures OccursInGroups(v.client.pending, x) + OccursUnder(v.made, Live(v), x) <= Room(v, x) {
      StepOnceFor(w, step, env, limit, cfg, x);
    }
  }

  lemma StepOnceFor(w: Site, step: Step, env: Envelope, limit: int, cfg: Config, x: Item)
    requires Once(w) && Booked(w) && May(w, Goes(step, env, limit), cfg)
    ensures var v := Stepped(w, step, env, cfg); OccursInGroups(v.client.pending, x) + OccursUnder(v.made, Live(v), x) <= Room(v, x)
  {
    var pending, under := Apply(w.client, step, env.now, cfg).pending, OccursUnder(w.made, Live(w), x);
    assert OccursInGroups(w.client.pending, x) + under <= Room(w, x);
    StepUnder(w, step, env, limit, cfg, x);
    PendingAfter(w.client, step, env.now, cfg);
    if step.Accept? {
      AcceptOnce(w.client.pending, step.item, under, w.captured, cfg.maxQueueItems, x);
    } else if step.Begin? || step.TakeAll? {
      CutIs(w.client.pending, CutOf(step), x);
      NoItems(pending, x);
    }
  }

  lemma RestoredFewer(s: State, items: Groups<Item>, chunks: seq<Chunk>, cfg: Config, x: Item)
    ensures OccursInGroups(RestoreStep(s, items, chunks, cfg).pending, x) <= OccursInGroups(items, x) + OccursInGroups(s.pending, x)
  {
    KeptFewer(Merged(items, s.pending), cfg.maxQueueItems, x);
    OccursMerged(items, s.pending, x);
  }

  lemma ResentPending(s: State, chunks: seq<Chunk>, cfg: Config, x: Item)
    ensures OccursInGroups(RestoreStep(s, Groups([], [], []), chunks, cfg).pending, x) <= OccursInGroups(s.pending, x)
  {
    NoItems(Groups([], [], []), x);
    RestoredFewer(s, Groups([], [], []), chunks, cfg, x);
  }

  lemma OtherOnce(w: Site, e: Event, cfg: Config)
    requires Once(w) && May(w, e, cfg) && !e.Goes? && !e.Restart?
    ensures Once(Next(w, e, cfg))
  {
    var v := Next(w, e, cfg);
    OtherLive(w, e, cfg);
    forall x ensures OccursInGroups(v.client.pending, x) + OccursUnder(v.made, Live(v), x) <= Room(v, x) {
      assert OccursInGroups(w.client.pending, x) + OccursUnder(w.made, Live(w), x) <= Room(w, x);
      UnderFewer(w.made, Live(v), Live(w), x);
      if e.Resend? { ResentPending(w.client, ReviveChunks(w.store, e.now), cfg, x); }
    }
  }

  /** A restart keeps items apart if the snapshot holds none that is out. */
  lemma RestartOnce(w: Site, recover: bool, now: int, cfg: Config)
    requires Once(w) && SnapshotKept(w, cfg) && (recover ==> Apart(w))
    ensures Once(Restarted(w, recover, now, cfg))
  {
    var v := Restarted(w, recover, now, cfg);
    RestartLive(w, recover, now, cfg);
    forall x ensures OccursInGroups(v.client.pending, x) + OccursUnder(v.made, Live(v), x) <= Room(v, x) {
      assert OccursInGroups(w.client.pending, x) + OccursUnder(w.made, Live(w), x) <= Room(w, x);
      assert OccursInGroups(Recovered(w), x) + OccursUnder(w.made, SnapshotKeys(w), x) <= Room(w, x);
      RebornPending(w, recover, now, cfg, x);
      UnderFewer(w.made, Out(w) + SnapshotKeys(w), Live(w), x);
      FlatIs(Recovered(w), x);
      CountIn(Recovered(w).Flat(), x);
      if recover && x in Recovered(w).Flat() {
        UnderNone(w.made, Out(w), x);
        UnderBoth(w.made, Out(w), SnapshotKeys(w), x);
      }
    }
  }

  lemma RebornPending(w: Site, recover: bool, now: int, cfg: Config, x: Item)
    ensures OccursInGroups(Reborn(w, recover, now, cfg).pending, x) <= if recover then OccursInGroups(Recovered(w), x) else 0
  {
    NoItems(INIT.pending, x);
    if recover && w.snapshot.Some? { RestoredFewer(INIT, Recovered(w), ReviveChunks(w.snapshot.value.retry, now), cfg, x); }
  }

  // ---------------------------------------------------------------------
  // The snapshot
  // ---------------------------------------------------------------------

  lemma StepSnapshot(w: Site, step: Step, env: Envelope, limit: int, cfg: Config)
    requires SnapshotKept(w, cfg) && Booked(w) && CopiesOnly(w) && May(w, Goes(step, env, limit), cfg)
    ensures SnapshotKept(Stepped(w, step, env, cfg), cfg)
  {
    var v, cut := Stepped(w, step, env, cfg), CutOf(step);
    CutIsNew(w, step, env, limit, cfg);
    LiveIsMade(w);
    forall x ensures OccursInGroups(Recovered(v), x) + OccursUnder(v.made, SnapshotKeys(v), x) <= Room(v, x) {
      assert OccursInGroups(Recovered(w), x) + OccursUnder(w.made, SnapshotKeys(w), x) <= Room(w, x);
      CutOccurs(w.made, cut, SnapshotKeys(w), x);
    }
  }

  lemma SaveSnapshot(w: Site, cfg: Config)
    requires Once(w) && Orderly(w.client, cfg)
    ensures SnapshotKept(Next(w, Save, cfg), cfg) && Recovered(Next(w, Save, cfg)) == w.client.pending
  {
    var v := Next(w, Save, cfg);
    PendingSurvives(w.client.pending);
    SameRevived(w.client.pending, w.client.retry);
    SavedChunkKeys(w.client.retry);
    forall x ensures OccursInGroups(Recovered(v), x) + OccursUnder(v.made, SnapshotKeys(v), x) <= Room(v, x) {
      assert OccursInGroups(w.client.pending, x) + OccursUnder(w.made, Live(w), x) <= Room(w, x);
      UnderFewer(w.made, SnapshotKeys(v), Live(w), x);
    }
  }

  lemma SameRevived(g: Groups<Item>, retry: seq<Chunk>)
    ensures SnapshotOf(g, retry).pending == SnapshotOf(g, []).pending
  {
  }

  // ---------------------------------------------------------------------
  // The server
  // ---------------------------------------------------------------------

  lemma KeysOfBoth(a: seq<Chunk>, b: seq<Chunk>)
    requires Distinct(Keys(a)) && Distinct(Keys(b)) && KeySet(a) !! KeySet(b)
    ensures Distinct(Keys(a + b)) && KeySet(a + b) == KeySet(a) + KeySet(b)
  {
    var k := Keys(a + b);
    forall i, j | 0 <= i < j < |k| ensures k[i] != k[j] {
      if j < |a| {
        assert Keys(a)[i] != Keys(a)[j];
      } else if |a| <= i {
        assert Keys(b)[i - |a|] != Keys(b)[j - |a|];
      } else {
        assert a[i].key in KeySet(a) && b[j - |a|].key in KeySet(b);
      }
    }
    forall c | c in a + b ensures c.key in KeySet(a) + KeySet(b) { }
    forall c | c in a ensures c.key in KeySet(a + b) { assert c in a + b; }
    forall c | c in b ensures c.key in KeySet(a + b) { assert c in a + b; }
  }

  /** Accepting one more key takes in the items of its chunk, once. */
  lemma {:induction false} SeenOneMore(made: seq<Chunk>, seen: set<Text>, m: Chunk, x: Item)
    requires Distinct(Keys(made)) && m in made && m.key !in seen
    ensures OccursUnder(made, seen + {m.key}, x) == OccursUnder(made, seen, x) + Occurs(m.items, x)
  {
    var init, last := made[..|made|-1], made[|made|-1];
    assert made == init + [last];
    assert forall i | 0 <= i < |init| :: Keys(made)[i] == Keys(init)[i];
    if m == last {
      forall c | c in init ensures c.key != m.key {
        var i :| 0 <= i < |init| && init[i] == c;
        assert Keys(made)[i] != Keys(made)[|made|-1];
      }
      SeenSame(init, seen, m.key, x);
    } else {
      var i :| 0 <= i < |init| && init[i] == m;
      assert Keys(made)[i] != Keys(made)[|made|-1];
      SeenOneMore(init, seen, m, x);
    }
  }

  lemma {:induction false} SeenSame(made: seq<Chunk>, seen: set<Text>, key: Text, x: Item)
    requires forall c | c in made :: c.key != key
    ensures OccursUnder(made, seen + {key}, x) == OccursUnder(made, seen, x)
  {
    if made != [] {
      assert made[|made|-1] in made;
      SeenSame(made[..|made|-1], seen, key, x);
    }
  }

  lemma StepBooked(w: Site, step: Step, env: Envelope, limit: int, cfg: Config)
    requires Booked(w) && May(w, Goes(step, env, limit), cfg)
    ensures Booked(Stepped(w, step, env, cfg))
  {
    var cut, v := CutOf(step), Stepped(w, step, env, cfg);
    CutIsNew(w, step, env, limit, cfg);
    KeysOfBoth(w.made, cut);
    if step.Begin? || step.TakeAll? { NamedUnion(KeySet(w.made), KeySet(cut), w.ids, {env.batchId}); }
    forall x ensures Occurs(v.ingested, x) == OccursUnder(v.made, v.seen, x) {
      assert Occurs(w.ingested, x) == OccursUnder(w.made, w.seen, x);
      CutOccurs(w.made, cut, w.seen, x);
    }
  }

  lemma TakenInBooked(w: Site, c: Chunk)
    requires Booked(w) && Made(w.made, c.key, c.body, c.items)
    ensures Booked(TakenIn(w, c))
  {
    if c.key !in w.seen {
      var m :| m in w.made && m.key == c.key && m.items == c.items;
      var v := TakenIn(w, c);
      forall x ensures Occurs(v.ingested, x) == OccursUnder(v.made, v.seen, x) {
        assert Occurs(w.ingested, x) == OccursUnder(w.made, w.seen, x);
        OccursAppend(w.ingested, c.items, x);
        SeenOneMore(w.made, w.seen, m, x);
      }
    }
  }

  // ---------------------------------------------------------------------
  // What the server reads
  // ---------------------------------------------------------------------

  /** The body was pasted from the items' texts. */
  ghost predicate Pasted(c: Chunk) { exists index: nat, env: Envelope :: c == ChunkOf(c.items, index, env) }

  ghost predicate Readable(w: Site) { (forall m | m in w.made :: Pasted(m)) && (forall x | x in w.captured :: IsPrinted(x)) }

  /** The server has read exactly the items it took in, kind by kind. */
  ghost predicate ReadBack(w: Site)
  {
    forall kind: Kind :: Serialized(OfKind(w.ingested, kind)) && w.read.Of(kind) == ValuesOf(OfKind(w.ingested, kind))
  }

  lemma StepReadable(w: Site, step: Step, env: Envelope, limit: int, cfg: Config)
    requires Readable(w) && May(w, Goes(step, env, limit), cfg)
    ensures Readable(Stepped(w, step, env, cfg))
  {
    if step.Begin? || step.TakeAll? { CutIsPasted(w.client.pending, env, Limits(limit, cfg.limits.maxItems)); }
  }

  lemma CutIsPasted(pending: Groups<Item>, env: Envelope, limits: Limits)
    ensures forall c | c in Cut(pending, env, limits) :: Pasted(c)
  {
    var cut := Cut(pending, env, limits);
    forall c | c in cut ensures Pasted(c) {
      var i :| 0 <= i < |cut| && cut[i] == c;
      assert c == ChunkOf(c.items, i, env);
    }
  }

  lemma ItemsSerialized(w: Site, m: Chunk)
    requires Once(w) && Readable(w) && m in w.made && m.key in Live(w)
    ensures Serialized(m.items)
  {
    forall i | 0 <= i < |m.items| ensures IsPrinted(m.items[i]) {
      UnderSome(w.made, Live(w), m, m.items[i]);
      assert OccursInGroups(w.client.pending, m.items[i]) + OccursUnder(w.made, Live(w), m.items[i]) <= Room(w, m.items[i]);
    }
  }

  lemma ReadMore(ingested: seq<Item>, read: seq<Value>, m: Chunk, kind: Kind)
    requires Serialized(OfKind(ingested, kind)) && read == ValuesOf(OfKind(ingested, kind)) && Pasted(m) && Serialized(m.items)
    ensures Serialized(OfKind(ingested + m.items, kind))
    ensures read + Received(m.body, kind) == ValuesOf(OfKind(ingested + m.items, kind))
  {
    var index: nat, env: Envelope :| m == ChunkOf(m.items, index, env);
    BodyReadsBack(m.items, index, env, kind);
    OfKindAppend(ingested, m.items, kind);
    ValuesOfAppend(OfKind(ingested, kind), OfKind(m.items, kind));
  }

  lemma TakenInReadBack(w: Site, c: Chunk)
    requires Once(w) && Readable(w) && ReadBack(w) && Made(w.made, c.key, c.body, c.items) && c.key in Live(w)
    ensures ReadBack(TakenIn(w, c))
  {
    if c.key !in w.seen {
      var m :| m in w.made && m.key == c.key && m.body == c.body && m.items == c.items;
      ItemsSerialized(w, m);
      forall kind: Kind
        ensures var v := TakenIn(w, c); Serialized(OfKind(v.ingested, kind)) && v.read.Of(kind) == ValuesOf(OfKind(v.ingested, kind))
      {
        ReadMore(w.ingested, w.read.Of(kind), m, kind);
      }
    }
  }

  // ---------------------------------------------------------------------
  // At most once
  // ---------------------------------------------------------------------

  ghost predicate Inv(w: Site, cfg: Config)
  {
    && CopiesOnly(w) && Once(w) && SnapshotKept(w, cfg) && Booked(w) && Orderly(w.client, cfg)
    && Readable(w) && ReadBack(w)
  }

  lemma RestoredOrderly(s: State, items: Groups<Item>, chunks: seq<Chunk>, cfg: Config)
    requires Orderly(s, cfg) && WellKinded(items) && forall x | x in items.Flat() :: x.bytes == Size(x.json)
    ensures Orderly(RestoreStep(s, items, chunks, cfg), cfg)
  {
    forall x | x in Merged(items, s.pending).Flat() ensures x.bytes == Size(x.json) { MergedMember(items, s.pending, x); }
    KeptOrderly(Merged(items, s.pending), cfg.maxQueueItems);
  }

  lemma RebornOrderly(w: Site, recover: bool, now: int, cfg: Config)
    ensures Orderly(Reborn(w, recover, now, cfg), cfg)
  {
    if recover && w.snapshot.Some? {
      RestoredOrderly(INIT, Recovered(w), ReviveChunks(w.snapshot.value.retry, now), cfg);
    }
  }

  lemma StepKeeps(w: Site, step: Step, env: Envelope, limit: int, cfg: Config)
    requires Inv(w, cfg) && May(w, Goes(step, env, limit), cfg)
    ensures Inv(Stepped(w, step, env, cfg), cfg)
  {
    QueueCopies(w, step, env, limit, cfg);
    StepOnce(w, step, env, limit, cfg);
    StepSnapshot(w, step, env, limit, cfg);
    StepBooked(w, step, env, limit, cfg);
    StepOrderly(w.client, step, env.now, cfg);
    StepReadable(w, step, env, limit, cfg);
  }

  lemma RestartKeeps(w: Site, recover: bool, now: int, cfg: Config)
    requires Inv(w, cfg) && (recover ==> Apart(w))
    ensures Inv(Restarted(w, recover, now, cfg), cfg)
  {
    RestartCopies(w, recover, now, cfg);
    RestartOnce(w, recover, now, cfg);
    RebornOrderly(w, recover, now, cfg);
  }

  lemma TakenInCopies(w: Site, c: Chunk)
    requires CopiesOnly(w) && c in w.wire
    ensures CopiesOnly(TakenIn(w, c)) && Made(w.made, c.key, c.body, c.items) && c.key in Live(w)
  {
  }

  lemma ArriveKeeps(w: Site, c: Chunk, cfg: Config)
    requires Inv(w, cfg) && c in w.wire
    ensures Inv(TakenIn(w, c), cfg)
  {
    TakenInCopies(w, c);
    TakenInOnce(w, c, cfg);
    TakenInBooked(w, c);
    TakenInReadBack(w, c);
  }

  lemma TakenInOnce(w: Site, c: Chunk, cfg: Config)
    requires Once(w) && SnapshotKept(w, cfg) && c in w.wire
    ensures var v := TakenIn(w, c); Once(v) && SnapshotKept(v, cfg) && v.client == w.client && (Readable(w) ==> Readable(v))
  {
    var v := TakenIn(w, c);
    assert Live(v) == Live(w);
    forall x ensures OccursInGroups(Recovered(v), x) + OccursUnder(v.made, SnapshotKeys(v), x) <= Room(v, x) {
      assert OccursInGroups(Recovered(w), x) + OccursUnder(w.made, SnapshotKeys(w), x) <= Room(w, x);
    }
  }

  /** What the unsent store and the snapshots do leaves the server's books and
      the history alone. */
  lemma OtherBooks(w: Site, e: Event, cfg: Config)
    requires SnapshotKept(w, cfg) && Booked(w) && Readable(w) && ReadBack(w) && (e.Beacon? || e.Keep? || e.Forget? || e.Resend?)
    ensures var v := Next(w, e, cfg); SnapshotKept(v, cfg) && Booked(v) && Readable(v) && ReadBack(v)
  {
    var v := Next(w, e, cfg);
    forall x ensures OccursInGroups(Recovered(v), x) + OccursUnder(v.made, SnapshotKeys(v), x) <= Room(v, x) {
      assert OccursInGroups(Recovered(w), x) + OccursUnder(w.made, SnapshotKeys(w), x) <= Room(w, x);
    }
  }

  lemma OtherKeeps(w: Site, e: Event, cfg: Config)
    requires Inv(w, cfg) && May(w, e, cfg) && (e.Beacon? || e.Keep? || e.Forget? || e.Resend?)
    ensures Inv(Next(w, e, cfg), cfg)
  {
    NextCopies(w, e, cfg);
    OtherOnce(w, e, cfg);
    OtherBooks(w, e, cfg);
    if e.Resend? { RestoredOrderly(w.client, Groups([], [], []), ReviveChunks(w.store, e.now), cfg); }
  }

  lemma SaveKeeps(w: Site, cfg: Config)
    requires Inv(w, cfg)
    ensures Inv(Next(w, Save, cfg), cfg)
  {
    NextCopies(w, Save, cfg);
    OtherOnce(w, Save, cfg);
    SaveSnapshot(w, cfg);
  }

  lemma NextKeeps(w: Site, e: Event, cfg: Config)
    requires Inv(w, cfg) && May(w, e, cfg)
    ensures Inv(Next(w, e, cfg), cfg)
  {
    match e
    case Goes(step, env, limit) => StepKeeps(w, step, env, limit, cfg);
    case Arrive(c) => ArriveKeeps(w, c, cfg);
    case Restart(recover, now) => RestartKeeps(w, recover, now, cfg);
    case Save => SaveKeeps(w, cfg);
    case _ => OtherKeeps(w, e, cfg);
  }

  lemma {:induction false} RunKeeps(w: Site, events: seq<Event>, cfg: Config)
    requires Inv(w, cfg) && RunOn(w, events, cfg).Some?
    ensures Inv(RunOn(w, events, cfg).value, cfg)
  {
    if events != [] {
      RunKeeps(w, events[..|events|-1], cfg);
      NextKeeps(RunOn(w, events[..|events|-1], cfg).value, events[|events|-1], cfg);
    }
  }

  lemma EmptySite(w: Site, cfg: Config)
    requires |w.client.work| + |w.client.retry| + |w.client.taken| + |w.wire| + |w.store| + |w.made| + |w.ingested| + |w.captured| == 0
    requires w.client.pending.Count() == 0 && w.snapshot.None? && |w.seen| == 0 && w.read.Count() == 0
    ensures Inv(w, cfg)
  {
    forall x ensures OccursInGroups(w.client.pending, x) + OccursInGroups(Recovered(w), x) == 0 {
      NoItems(w.client.pending, x);
      NoItems(Recovered(w), x);
    }
  }

  lemma ReachableKeeps(events: seq<Event>, cfg: Config)
    requires Run(events, cfg).Some?
    ensures Inv(Run(events, cfg).value, cfg)
  {
    EmptySite(EMPTY_SITE, cfg);
    RunKeeps(EMPTY_SITE, events, cfg);
  }

  lemma IngestedOnce(w: Site, cfg: Config, x: Item)
    requires Inv(w, cfg)
    ensures Occurs(w.ingested, x) <= Room(w, x)
  {
    assert Occurs(w.ingested, x) == OccursUnder(w.made, w.seen, x);
    assert OccursInGroups(w.client.pending, x) + OccursUnder(w.made, Live(w), x) <= Room(w, x);
    UnderFewer(w.made, w.seen, Live(w), x);
  }

  /** At-most-once ingestion: whatever is sent, lost, repeated, taken, stored,
      resent, saved and restored, the server takes in each captured item at most
      once, and nothing that was not captured. */
  lemma AtMostOnce(events: seq<Event>, cfg: Config, x: Item)
    requires Run(events, cfg).Some?
    ensures Occurs(Run(events, cfg).value.ingested, x) <= if x in Run(events, cfg).value.captured then 1 else 0
  {
    ReachableKeeps(events, cfg);
    IngestedOnce(Run(events, cfg).value, cfg, x);
  }

  /** Two requests that hold the same item carry the same key and the same body. */
  lemma OneKeyPerItem(events: seq<Event>, cfg: Config, c: Chunk, d: Chunk, x: Item)
    requires Run(events, cfg).Some? && c in Run(events, cfg).value.wire && d in Run(events, cfg).value.wire
    requires x in c.items && x in d.items
    ensures c.key == d.key && c.body == d.body
  {
    ReachableKeeps(events, cfg);
    var w := Run(events, cfg).value;
    var m :| m in w.made && m.key == c.key && m.body == c.body && m.items == c.items;
    var n :| n in w.made && n.key == d.key && n.body == d.body && n.items == d.items;
    assert OccursInGroups(w.client.pending, x) + OccursUnder(w.made, Live(w), x) <= Room(w, x);
    if m != n { UnderTwo(w.made, Live(w), m, n, x); }
  }
}
