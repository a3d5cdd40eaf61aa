/** Nothing is lost and nothing is duplicated: in every reachable state each
    item that was taken in is in exactly one place. */
module Conservation {
  import opened Chunker
  import opened Packing
  import opened Delivery

  datatype Place = Pending | Retrying | InPass | Delivered | Rejected | Exhausted | Evicted | Taken | Overflowed

  function At(s: State, place: Place): seq<Item>
  {
    match place
    case Pending => s.pending.Flat()
    case Retrying => ItemsOf(s.retry)
    case InPass => ItemsOf(s.work)
    case Delivered => ItemsOf(s.delivered)
    case Rejected => ItemsOf(s.rejected)
    case Exhausted => ItemsOf(s.exhausted)
    case Evicted => ItemsOf(s.evicted)
    case Taken => ItemsOf(s.taken)
    case Overflowed => s.overflowed
  }

  /** How often an item occurs in a list. */
  function Occurs(items: seq<Item>, x: Item): nat
  {
    if items == [] then 0 else Occurs(items[..|items|-1], x) + if items[|items|-1] == x then 1 else 0
  }

  function OccursInChunks(chunks: seq<Chunk>, x: Item): nat
  {
    if chunks == [] then 0 else OccursInChunks(chunks[..|chunks|-1], x) + Occurs(chunks[|chunks|-1].items, x)
  }

  function OccursInGroups(g: Groups<Item>, x: Item): nat { Occurs(g.errors, x) + Occurs(g.traces, x) + Occurs(g.events, x) }

  function Total(s: State, x: Item): nat
  {
    OccursInGroups(s.pending, x) + OccursInChunks(s.retry, x) + OccursInChunks(s.work, x)
    + OccursInChunks(s.delivered, x) + OccursInChunks(s.rejected, x) + OccursInChunks(s.exhausted, x)
    + OccursInChunks(s.evicted, x) + OccursInChunks(s.taken, x) + Occurs(s.overflowed, x)
  }

  ghost predicate Conserved(s: State) { forall x :: Total(s, x) == Occurs(s.accepted, x) }

  lemma {:induction false} CountIn(items: seq<Item>, x: Item)
    ensures Occurs(items, x) >= 1 <==> x in items
  {
    if items != [] {
      CountIn(items[..|items|-1], x);
      assert items == items[..|items|-1] + [items[|items|-1]];
    }
  }

  lemma {:induction false} OccursAppend(a: seq<Item>, b: seq<Item>, x: Item)
    ensures Occurs(a + b, x) == Occurs(a, x) + Occurs(b, x)
  {
    if b == [] {
      assert a + b == a;
    } else {
      assert (a + b)[..|a + b|-1] == a + b[..|b|-1];
      OccursAppend(a, b[..|b|-1], x);
    }
  }

  lemma {:induction false} OccursInChunksAppend(a: seq<Chunk>, b: seq<Chunk>, x: Item)
    ensures OccursInChunks(a + b, x) == OccursInChunks(a, x) + OccursInChunks(b, x)
  {
    if b == [] {
      assert a + b == a;
    } else {
      assert (a + b)[..|a + b|-1] == a + b[..|b|-1];
      OccursInChunksAppend(a, b[..|b|-1], x);
    }
  }

  lemma OneChunk(c: Chunk, x: Item)
    ensures OccursInChunks([c], x) == Occurs(c.items, x)
  {
    assert [c][..0] == [];
  }

  lemma PushChunk(chunks: seq<Chunk>, c: Chunk, x: Item)
    ensures OccursInChunks(chunks + [c], x) == OccursInChunks(chunks, x) + Occurs(c.items, x)
  {
    OccursInChunksAppend(chunks, [c], x);
    OneChunk(c, x);
  }

  lemma HeadChunk(chunks: seq<Chunk>, x: Item)
    requires chunks != []
    ensures OccursInChunks(chunks, x) == Occurs(chunks[0].items, x) + OccursInChunks(chunks[1..], x)
  {
    assert chunks == [chunks[0]] + chunks[1..];
    OccursInChunksAppend([chunks[0]], chunks[1..], x);
    OneChunk(chunks[0], x);
  }

  lemma {:induction false} OccursInChunksIs(chunks: seq<Chunk>, x: Item)
    ensures OccursInChunks(chunks, x) == Occurs(ItemsOf(chunks), x)
  {
    if chunks != [] {
      OccursInChunksIs(chunks[..|chunks|-1], x);
      OccursAppend(ItemsOf(chunks[..|chunks|-1]), chunks[|chunks|-1].items, x);
    }
  }

  lemma FlatIs(g: Groups<Item>, x: Item)
    ensures OccursInGroups(g, x) == Occurs(g.Flat(), x)
  {
    OccursAppend(g.errors, g.traces, x);
    OccursAppend(g.errors + g.traces, g.events, x);
  }

  lemma {:induction false} DuePartition(chunks: seq<Chunk>, force: bool, now: int, x: Item)
    ensures OccursInChunks(chunks, x) == OccursInChunks(Due(chunks, force, now), x) + OccursInChunks(NotDue(chunks, force, now), x)
  {
    if chunks != [] {
      var init, c := chunks[..|chunks|-1], chunks[|chunks|-1];
      DuePartition(init, force, now, x);
      if IsDue(c, force, now) {
        PushChunk(Due(init, force, now), c, x);
      } else {
        PushChunk(NotDue(init, force, now), c, x);
      }
    }
  }

  lemma Split(a: seq<Item>, i: nat, x: Item)
    requires i <= |a|
    ensures Occurs(a, x) == Occurs(a[..i], x) + Occurs(a[i..], x)
  {
    assert a == a[..i] + a[i..];
    OccursAppend(a[..i], a[i..], x);
  }

  /** The bound splits the pending items into kept and dropped ones. */
  lemma KeptAndDropped(g: Groups<Item>, max: int, x: Item)
    ensures OccursInGroups(g, x) == OccursInGroups(Kept(g, max), x) + Occurs(Dropped(g, max), x)
  {
    var c := DropCounts(g, max);
    var e, t, v := g.errors[..c.errors], g.traces[..c.traces], g.events[..c.events];
    Split(g.errors, c.errors, x);
    Split(g.traces, c.traces, x);
    Split(g.events, c.events, x);
    OccursAppend(v + t, e, x);
    OccursAppend(v, t, x);
  }

  lemma OccursPushed(g: Groups<Item>, item: Item, x: Item)
    ensures OccursInGroups(Push(g, item), x) == OccursInGroups(g, x) + Occurs([item], x)
  {
    OccursAppend(g.Of(item.kind), [item], x);
  }

  /** Bounding a pending queue moves what it drops to the overflow. */
  lemma BoundConserves(g: Groups<Item>, overflowed: seq<Item>, max: int, x: Item)
    ensures OccursInGroups(Kept(g, max), x) + Occurs(overflowed + Dropped(g, max), x) == OccursInGroups(g, x) + Occurs(overflowed, x)
  {
    KeptAndDropped(g, max, x);
    OccursAppend(overflowed, Dropped(g, max), x);
  }

  lemma AcceptConserves(s: State, item: Item, cfg: Config, x: Item)
    ensures Total(AcceptStep(s, item, cfg), x) == Total(s, x) + Occurs([item], x)
    ensures Occurs(AcceptStep(s, item, cfg).accepted, x) == Occurs(s.accepted, x) + Occurs([item], x)
  {
    OccursPushed(s.pending, item, x);
    BoundConserves(Push(s.pending, item), s.overflowed, cfg.maxQueueItems, x);
    OccursAppend(s.accepted, [item], x);
  }

  lemma CutIs(pending: Groups<Item>, cut: seq<Chunk>, x: Item)
    requires ItemsOf(cut) == pending.Flat()
    ensures OccursInChunks(cut, x) == OccursInGroups(pending, x)
  {
    OccursInChunksIs(cut, x);
    FlatIs(pending, x);
  }

  lemma BeginConserves(s: State, force: bool, cut: seq<Chunk>, now: int, x: Item)
    requires s.work == [] && ItemsOf(cut) == s.pending.Flat()
    ensures Total(BeginStep(s, force, cut, now), x) == Total(s, x)
  {
    CutIs(s.pending, cut, x);
    DuePartition(s.retry, force, now, x);
    OccursInChunksAppend(Due(s.retry, force, now), cut, x);
  }

  lemma LaunchConserves(s: State, now: int, x: Item)
    requires s.work != []
    ensures Total(LaunchStep(s, now), x) == Total(s, x)
  {
    var t := LaunchStep(s, now);
    HeadChunk(s.work, x);
    HeadChunk(t.work, x);
    assert t.work[1..] == s.work[1..];
  }

  lemma EvictConserves(waiting: seq<Chunk>, evicted: seq<Chunk>, c: Chunk, n: nat, x: Item)
    requires n <= |waiting| + 1
    ensures OccursInChunks((waiting + [c])[n..], x) + OccursInChunks(evicted + (waiting + [c])[..n], x)
            == OccursInChunks(waiting, x) + Occurs(c.items, x) + OccursInChunks(evicted, x)
  {
    var retry := waiting + [c];
    PushChunk(waiting, c, x);
    assert retry == retry[..n] + retry[n..];
    OccursInChunksAppend(retry[..n], retry[n..], x);
    OccursInChunksAppend(evicted, retry[..n], x);
  }

  lemma AnswerConserves(s: State, reply: Reply, delay: int, now: int, cfg: Config, x: Item)
    requires Aloft(s)
    ensures Total(AnswerStep(s, reply, delay, now, cfg), x) == Total(s, x)
  {
    var c := s.work[0];
    HeadChunk(s.work, x);
    if reply.Ok? {
      PushChunk(s.delivered, c, x);
    } else if IsPermanent(reply) {
      PushChunk(s.rejected, c, x);
    } else if c.attempts >= cfg.policy.maxAttempts {
      PushChunk(s.exhausted, c, x);
    } else {
      var d := c.(nextAttemptAt := now + delay);
      EvictConserves(s.retry, s.evicted, d, Excess(s.retry + [d]), x);
    }
  }

  lemma TakeAllConserves(s: State, cut: seq<Chunk>, x: Item)
    requires ItemsOf(cut) == s.pending.Flat()
    ensures Total(TakeAllStep(s, cut), x) == Total(s, x)
  {
    CutIs(s.pending, cut, x);
    OccursInChunksAppend(s.retry, cut, x);
    OccursInChunksAppend(s.taken, s.retry + cut, x);
  }

  lemma OccursMerged(items: Groups<Item>, pending: Groups<Item>, x: Item)
    ensures OccursInGroups(Merged(items, pending), x) == OccursInGroups(items, x) + OccursInGroups(pending, x)
  {
    OccursAppend(items.errors, pending.errors, x);
    OccursAppend(items.traces, pending.traces, x);
    OccursAppend(items.events, pending.events, x);
  }

  lemma RestoreConserves(s: State, items: Groups<Item>, chunks: seq<Chunk>, cfg: Config, x: Item)
    ensures var t, more := RestoreStep(s, items, chunks, cfg), OccursInGroups(items, x) + OccursInChunks(chunks, x);
            Total(t, x) == Total(s, x) + more && Occurs(t.accepted, x) == Occurs(s.accepted, x) + more
  {
    OccursMerged(items, s.pending, x);
    BoundConserves(Merged(items, s.pending), s.overflowed, cfg.maxQueueItems, x);
    OccursInChunksAppend(s.retry, chunks, x);
    OccursAppend(s.accepted + items.Flat(), ItemsOf(chunks), x);
    OccursAppend(s.accepted, items.Flat(), x);
    FlatIs(items, x);
    OccursInChunksIs(chunks, x);
  }

  lemma EffectConserves(s: State, step: Step, now: int, cfg: Config, x: Item)
    requires Enabled(s, step, now, cfg)
    ensures var t := Effect(s, step, now, cfg); Total(t, x) - Occurs(t.accepted, x) == Total(s, x) - Occurs(s.accepted, x)
  {
    match step
    case Accept(item) => AcceptConserves(s, item, cfg, x);
    case Begin(force, cut) => BeginConserves(s, force, cut, now, x);
    case Launch => LaunchConserves(s, now, x);
    case Answer(reply, jitter) => AnswerConserves(s, reply, DelayOf(s.work[0], reply, jitter, cfg.policy), now, cfg, x);
    case TakeAll(cut) => TakeAllConserves(s, cut, x);
    case Restore(items, chunks) => RestoreConserves(s, items, chunks, cfg, x);
    case Tick =>
  }

  /** Every step conserves. */
  lemma ApplyConserves(s: State, step: Step, now: int, cfg: Config)
    requires Conserved(s) && Enabled(s, step, now, cfg)
    ensures Conserved(Apply(s, step, now, cfg))
  {
    forall x ensures Total(Apply(s, step, now, cfg), x) == Occurs(Apply(s, step, now, cfg).accepted, x) {
      EffectConserves(s, step, now, cfg, x);
    }
  }

  /** Conservation over whole runs. */
  lemma {:induction false} RunConserves(trace: seq<Timed>, cfg: Config)
    requires Run(trace, cfg).Some?
    ensures Conserved(Run(trace, cfg).value)
  {
    if trace != [] {
      var init, t := trace[..|trace|-1], trace[|trace|-1];
      RunConserves(init, cfg);
      ApplyConserves(Run(init, cfg).value, t.step, t.now, cfg);
    }
  }

  lemma PlaceCount(s: State, place: Place, x: Item)
    ensures Occurs(At(s, place), x) == CountAt(s, place, x)
  {
    match place {
      case Pending => FlatIs(s.pending, x);
      case Retrying => OccursInChunksIs(s.retry, x);
      case InPass => OccursInChunksIs(s.work, x);
      case Delivered => OccursInChunksIs(s.delivered, x);
      case Rejected => OccursInChunksIs(s.rejected, x);
      case Exhausted => OccursInChunksIs(s.exhausted, x);
      case Evicted => OccursInChunksIs(s.evicted, x);
      case Taken => OccursInChunksIs(s.taken, x);
      case Overflowed =>
    }
  }

  function CountAt(s: State, place: Place, x: Item): nat
  {
    match place
    case Pending => OccursInGroups(s.pending, x)
    case Retrying => OccursInChunks(s.retry, x)
    case InPass => OccursInChunks(s.work, x)
    case Delivered => OccursInChunks(s.delivered, x)
    case Rejected => OccursInChunks(s.rejected, x)
    case Exhausted => OccursInChunks(s.exhausted, x)
    case Evicted => OccursInChunks(s.evicted, x)
    case Taken => OccursInChunks(s.taken, x)
    case Overflowed => Occurs(s.overflowed, x)
  }

  lemma OnePlace(s: State, x: Item) returns (place: Place)
    requires Total(s, x) == 1
    ensures CountAt(s, place, x) == 1 && forall other | other != place :: CountAt(s, other, x) == 0
  {
    place :=
      if OccursInGroups(s.pending, x) == 1 then Pending else if OccursInChunks(s.retry, x) == 1 then Retrying
      else if OccursInChunks(s.work, x) == 1 then InPass else if OccursInChunks(s.delivered, x) == 1 then Delivered
      else if OccursInChunks(s.rejected, x) == 1 then Rejected else if OccursInChunks(s.exhausted, x) == 1 then Exhausted
      else if OccursInChunks(s.evicted, x) == 1 then Evicted else if OccursInChunks(s.taken, x) == 1 then Taken else Overflowed;
  }

  /** In every reachable state, also between any two steps of a pass, an item
      taken in once is in exactly one place, once. */
  lemma EachItemInOnePlace(trace: seq<Timed>, cfg: Config, x: Item) returns (place: Place)
    requires Run(trace, cfg).Some? && Occurs(Run(trace, cfg).value.accepted, x) == 1
    ensures Occurs(At(Run(trace, cfg).value, place), x) == 1
    ensures forall other | other != place :: Occurs(At(Run(trace, cfg).value, other), x) == 0
  {
    RunConserves(trace, cfg);
    var s := Run(trace, cfg).value;
    place := OnePlace(s, x);
    forall p ensures Occurs(At(s, p), x) == CountAt(s, p, x) {
      PlaceCount(s, p, x);
    }
  }
}
