/** The bounded queue: which items an overflow drops, and why first sends keep
    the capture order. */
module Overflow {
  import opened Chunker
  import opened Packing
  import opened History
  import opened Delivery
  import opened KeyHistory

  function SumBytes(items: seq<Item>): int
  {
    if items == [] then 0 else SumBytes(items[..|items|-1]) + items[|items|-1].bytes
  }

  function PendingBytes(g: Groups<Item>): int { SumBytes(g.errors) + SumBytes(g.traces) + SumBytes(g.events) }

  lemma {:induction false} SumBytesAppend(a: seq<Item>, b: seq<Item>)
    ensures SumBytes(a + b) == SumBytes(a) + SumBytes(b)
  {
    if b == [] {
      assert a + b == a;
    } else {
      assert (a + b)[..|a + b|-1] == a + b[..|b|-1];
      SumBytesAppend(a, b[..|b|-1]);
    }
  }

  lemma SumBytesSplit(a: seq<Item>, i: nat)
    requires i <= |a|
    ensures SumBytes(a) == SumBytes(a[..i]) + SumBytes(a[i..])
  {
    assert a == a[..i] + a[i..];
    SumBytesAppend(a[..i], a[i..]);
  }

  /** The overflow policy: the newest items of each kind are kept, as many in all
      as the bound allows; a trace is dropped only when no event remains, an error
      only when neither remains; and what is dropped accounts for all the bytes. */
  lemma OverflowPolicy(g: Groups<Item>, max: int, kind: Kind)
    ensures var k := Kept(g, max);
            && k.Count() == Min(g.Count(), Max(0, max))
            && k.Count() + |Dropped(g, max)| == g.Count()
            && |k.Of(kind)| <= |g.Of(kind)| && k.Of(kind) == g.Of(kind)[|g.Of(kind)| - |k.Of(kind)|..]
            && (|k.traces| < |g.traces| ==> k.events == [])
            && (|k.errors| < |g.errors| ==> k.events == [] && k.traces == [])
            && PendingBytes(k) + SumBytes(Dropped(g, max)) == PendingBytes(g)
  {
    OverflowBytes(g, max);
    match kind
    case Errors =>
    case Traces =>
    case Events =>
  }

  lemma OverflowBytes(g: Groups<Item>, max: int)
    ensures PendingBytes(Kept(g, max)) + SumBytes(Dropped(g, max)) == PendingBytes(g)
  {
    var c := DropCounts(g, max);
    var e, t, v := g.errors[..c.errors], g.traces[..c.traces], g.events[..c.events];
    SumBytesSplit(g.errors, c.errors);
    SumBytesSplit(g.traces, c.traces);
    SumBytesSplit(g.events, c.events);
    SumBytesAppend(v + t, e);
    SumBytesAppend(v, t);
  }

  lemma KeptWellKinded(g: Groups<Item>, max: int)
    requires WellKinded(g)
    ensures WellKinded(Kept(g, max))
  {
  }

  lemma KeptIsSuffix(g: Groups<Item>, max: int, kind: Kind) returns (gone: seq<Item>)
    ensures g.Of(kind) == gone + Kept(g, max).Of(kind)
  {
    var c := DropCounts(g, max);
    match kind {
      case Errors => gone := g.errors[..c.errors];
      case Traces => gone := g.traces[..c.traces];
      case Events => gone := g.events[..c.events];
    }
  }

  // ---------------------------------------------------------------------
  // First sends keep the capture order
  // ---------------------------------------------------------------------

  /** Capture numbers are positions in the list of everything taken in, and the
      items are listed in that order. */
  ghost predicate InCaptureOrder(items: seq<Item>, accepted: seq<Item>)
  {
    && (forall i | 0 <= i < |items| :: items[i].id < |accepted| && accepted[items[i].id] == items[i])
    && (forall i, j | 0 <= i < j < |items| :: items[i].id < items[j].id)
  }

  /** Chunks of the pass that have never been sent. */
  function Unsent(chunks: seq<Chunk>): seq<Chunk>
  {
    if chunks == [] then []
    else
      var rest, c := Unsent(chunks[..|chunks|-1]), chunks[|chunks|-1];
      if c.attempts == 0 then rest + [c] else rest
  }

  /** Everything of one kind on its way to a first send, the earliest first. */
  function Line(s: State, kind: Kind): seq<Item>
  {
    OfKind(s.firsts, kind) + OfKind(ItemsOf(Unsent(ToSend(s))), kind) + s.pending.Of(kind)
  }

  lemma {:induction false} UnsentAppend(a: seq<Chunk>, b: seq<Chunk>)
    ensures Unsent(a + b) == Unsent(a) + Unsent(b)
  {
    if b == [] {
      assert a + b == a;
    } else {
      assert (a + b)[..|a + b|-1] == a + b[..|b|-1];
      UnsentAppend(a, b[..|b|-1]);
    }
  }

  lemma {:induction false} UnsentAll(chunks: seq<Chunk>)
    ensures (forall c | c in chunks :: c.attempts == 0) ==> Unsent(chunks) == chunks
    ensures (forall c | c in chunks :: c.attempts > 0) ==> Unsent(chunks) == []
  {
    if chunks != [] {
      UnsentAll(chunks[..|chunks|-1]);
      assert chunks == chunks[..|chunks|-1] + [chunks[|chunks|-1]];
    }
  }

  lemma UnsentHead(chunks: seq<Chunk>, kind: Kind)
    requires chunks != []
    ensures OfKind(ItemsOf(Unsent(chunks)), kind) ==
            (if chunks[0].attempts == 0 then OfKind(chunks[0].items, kind) else []) + OfKind(ItemsOf(Unsent(chunks[1..])), kind)
  {
    var c, rest := chunks[0], chunks[1..];
    assert chunks == [c] + rest;
    UnsentAppend([c], rest);
    assert [c][..0] == [];
    if c.attempts == 0 {
      assert Unsent([c]) == [c];
      ItemsOfCons(c, Unsent(rest));
      OfKindAppend(c.items, ItemsOf(Unsent(rest)), kind);
    } else {
      assert Unsent([c]) == [] && [] + Unsent(rest) == Unsent(rest);
    }
  }

  lemma ItemsOfCons(c: Chunk, chunks: seq<Chunk>)
    ensures ItemsOf([c] + chunks) == c.items + ItemsOf(chunks)
  {
    ItemsOfAppend([c], chunks);
    assert [c][..0] == [];
  }

  ghost predicate Ordered(s: State)
  {
    WellKinded(s.pending) && forall kind :: InCaptureOrder(Line(s, kind), s.accepted)
  }

  /** Leaving out a stretch keeps the order, and so does adding the newest item. */
  lemma OrderKept(a: seq<Item>, gone: seq<Item>, b: seq<Item>, accepted: seq<Item>)
    requires InCaptureOrder(a + (gone + b), accepted)
    ensures InCaptureOrder(a + b, accepted)
  {
    var whole, part := a + (gone + b), a + b;
    assert forall i | 0 <= i < |a| :: part[i] == whole[i];
    assert forall i | |a| <= i < |part| :: part[i] == whole[i + |gone|];
  }

  lemma OrderPush(a: seq<Item>, x: Item, accepted: seq<Item>)
    requires InCaptureOrder(a, accepted) && x.id == |accepted|
    ensures InCaptureOrder(a + [x], accepted + [x])
  {
  }

  lemma OrderMore(a: seq<Item>, x: Item, accepted: seq<Item>)
    requires InCaptureOrder(a, accepted)
    ensures InCaptureOrder(a, accepted + [x])
  {
  }

  lemma AcceptOrdered(s: State, item: Item, cfg: Config, kind: Kind)
    requires Ordered(s) && item.id == |s.accepted|
    ensures InCaptureOrder(Line(AcceptStep(s, item, cfg), kind), AcceptStep(s, item, cfg).accepted)
  {
    var t, g := AcceptStep(s, item, cfg), Push(s.pending, item);
    var front := OfKind(s.firsts, kind) + OfKind(ItemsOf(Unsent(ToSend(s))), kind);
    assert ToSend(t) == ToSend(s);
    assert InCaptureOrder(Line(s, kind), s.accepted);
    PushOrdered(front, s.pending, item, s.accepted, kind);
    var gone := KeptIsSuffix(g, cfg.maxQueueItems, kind);
    OrderKept(front, gone, t.pending.Of(kind), t.accepted);
  }

  lemma PushOrdered(front: seq<Item>, g: Groups<Item>, item: Item, accepted: seq<Item>, kind: Kind)
    requires InCaptureOrder(front + g.Of(kind), accepted) && item.id == |accepted|
    ensures InCaptureOrder(front + Push(g, item).Of(kind), accepted + [item])
  {
    if item.kind == kind {
      OrderPush(front + g.Of(kind), item, accepted);
      assert (front + g.Of(kind)) + [item] == front + (g.Of(kind) + [item]);
    } else {
      OrderMore(front + g.Of(kind), item, accepted);
    }
  }

  lemma {:induction false} DueSubset(chunks: seq<Chunk>, force: bool, now: int)
    requires forall c | c in chunks :: c.attempts > 0
    ensures forall c | c in Due(chunks, force, now) :: c.attempts > 0
  {
    DueMembers(chunks, force, now);
  }

  lemma UnsentWork(due: seq<Chunk>, cut: seq<Chunk>)
    requires forall c | c in due :: c.attempts > 0
    requires forall c | c in cut :: c.attempts == 0
    ensures Unsent(due + cut) == cut
  {
    UnsentAll(due);
    UnsentAll(cut);
    UnsentAppend(due, cut);
  }

  lemma BeginOrdered(s: State, force: bool, cut: seq<Chunk>, now: int, kind: Kind)
    requires WellKinded(s.pending) && s.work == [] && ItemsOf(cut) == s.pending.Flat()
    requires forall c | c in s.retry :: c.attempts > 0
    requires forall c | c in cut :: c.attempts == 0
    requires !s.flying
    ensures Line(BeginStep(s, force, cut, now), kind) == Line(s, kind)
  {
    var t, due := BeginStep(s, force, cut, now), Due(s.retry, force, now);
    DueSubset(s.retry, force, now);
    UnsentWork(due, cut);
    assert ToSend(t) == due + cut && ToSend(s) == [];
    GroupedKind(s.pending, kind);
    LineWith(OfKind(s.firsts, kind), s.pending.Of(kind));
    assert OfKind([], kind) == [] && ItemsOf(Unsent([])) == [] && EMPTY.Of(kind) == [];
  }

  lemma LineWith(a: seq<Item>, b: seq<Item>)
    ensures a + [] + b == a + b == a + b + []
  {
  }

  lemma LaunchOrdered(s: State, now: int, kind: Kind)
    requires s.work != [] && !s.flying
    ensures Line(LaunchStep(s, now), kind) == Line(s, kind)
  {
    var t, c := LaunchStep(s, now), s.work[0];
    assert ToSend(s) == s.work && ToSend(t) == s.work[1..];
    UnsentHead(s.work, kind);
    var a, b, r := OfKind(s.firsts, kind), OfKind(c.items, kind), OfKind(ItemsOf(Unsent(s.work[1..])), kind);
    if c.attempts == 0 {
      OfKindAppend(s.firsts, c.items, kind);
      assert (a + b) + r == a + (b + r);
    } else {
      assert [] + r == r;
    }
  }

  lemma TakeAllOrdered(s: State, cut: seq<Chunk>, kind: Kind)
    requires InCaptureOrder(Line(s, kind), s.accepted)
    ensures InCaptureOrder(Line(TakeAllStep(s, cut), kind), s.accepted)
  {
    var t := TakeAllStep(s, cut);
    var front, p := OfKind(s.firsts, kind) + OfKind(ItemsOf(Unsent(ToSend(s))), kind), s.pending.Of(kind);
    assert ToSend(t) == ToSend(s);
    assert p + [] == p && EMPTY.Of(kind) == [];
    OrderKept(front, p, [], s.accepted);
  }

  lemma AnswerOrdered(s: State, reply: Reply, delay: int, now: int, cfg: Config, kind: Kind)
    requires s.flying && Aloft(s)
    ensures var t := AnswerStep(s, reply, delay, now, cfg);
            Line(t, kind) == Line(s, kind) && t.accepted == s.accepted && t.pending == s.pending
  {
    var t := AnswerStep(s, reply, delay, now, cfg);
    assert ToSend(t) == s.work[1..] == ToSend(s);
  }

  lemma EffectOrdered(s: State, step: Step, now: int, cfg: Config, kind: Kind)
    requires Ordered(s) && Enabled(s, step, now, cfg) && (forall c | c in s.retry :: c.attempts > 0)
    requires !step.Restore? && (step.Accept? ==> step.item.id == |s.accepted|)
    ensures var t := Effect(s, step, now, cfg); InCaptureOrder(Line(t, kind), t.accepted)
  {
    assert InCaptureOrder(Line(s, kind), s.accepted);
    match step
    case Accept(item) => AcceptOrdered(s, item, cfg, kind);
    case Begin(force, cut) => BeginOrdered(s, force, cut, now, kind);
    case Launch => LaunchOrdered(s, now, kind);
    case Answer(reply, jitter) => AnswerOrdered(s, reply, DelayOf(s.work[0], reply, jitter, cfg.policy), now, cfg, kind);
    case TakeAll(cut) => TakeAllOrdered(s, cut, kind);
    case Tick =>
  }

  lemma EffectWellKinded(s: State, step: Step, now: int, cfg: Config)
    requires WellKinded(s.pending) && Enabled(s, step, now, cfg) && !step.Restore?
    ensures WellKinded(Effect(s, step, now, cfg).pending)
  {
    match step
    case Accept(item) => KeptWellKinded(Push(s.pending, item), cfg.maxQueueItems);
    case Begin(_, _) =>
    case Launch =>
    case Answer(reply, jitter) => AnswerOrdered(s, reply, DelayOf(s.work[0], reply, jitter, cfg.policy), now, cfg, Errors);
    case TakeAll(_) =>
    case Tick =>
  }

  lemma ApplyOrdered(s: State, step: Step, now: int, cfg: Config)
    requires Ordered(s) && Enabled(s, step, now, cfg) && (forall c | c in s.retry :: c.attempts > 0)
    requires !step.Restore? && (step.Accept? ==> step.item.id == |s.accepted|)
    ensures Ordered(Apply(s, step, now, cfg))
  {
    var t := Effect(s, step, now, cfg);
    EffectWellKinded(s, step, now, cfg);
    forall kind ensures InCaptureOrder(Line(t.(clock := now), kind), t.accepted) {
      EffectOrdered(s, step, now, cfg, kind);
      assert ToSend(t.(clock := now)) == ToSend(t);
    }
  }

  /** Every captured item carries its place in the capture order. */
  ghost predicate Numbered(trace: seq<Timed>, cfg: Config)
  {
    forall i | 0 <= i < |trace| && trace[i].step.Accept? && Run(trace[..i], cfg).Some? ::
      trace[i].step.item.id == |Run(trace[..i], cfg).value.accepted|
  }

  lemma {:induction false} RunOrdered(trace: seq<Timed>, cfg: Config)
    requires Run(trace, cfg).Some? && NoRestore(trace) && Numbered(trace, cfg)
    ensures Ordered(Run(trace, cfg).value)
  {
    if trace != [] {
      var init, t := trace[..|trace|-1], trace[|trace|-1];
      forall i | 0 <= i < |init| ensures trace[i] == init[i] && trace[..i] == init[..i] { }
      RunOrdered(init, cfg);
      RunKeeps(init, cfg);
      assert trace[..|trace|-1] == init;
      assert forall c | c in Run(init, cfg).value.retry :: Parked(Run(init, cfg).value.log, c, cfg.policy);
      ApplyOrdered(Run(init, cfg).value, t.step, t.now, cfg);
    } else {
      forall kind ensures InCaptureOrder(Line(INIT, kind), INIT.accepted) {
        assert Line(INIT, kind) == [];
      }
    }
  }

  /** Over any run without restore the first sends of each kind are a
      subsequence of the capture order: an index into what was captured grows
      along them. */
  lemma FirstSendsInCaptureOrder(trace: seq<Timed>, cfg: Config, kind: Kind)
    requires Run(trace, cfg).Some? && NoRestore(trace) && Numbered(trace, cfg)
    ensures var s := Run(trace, cfg).value; InCaptureOrder(OfKind(s.firsts, kind), s.accepted)
  {
    RunOrdered(trace, cfg);
    var s := Run(trace, cfg).value;
    var line, f := Line(s, kind), OfKind(s.firsts, kind);
    assert InCaptureOrder(line, s.accepted);
    assert forall i | 0 <= i < |f| :: line[i] == f[i];
  }
}
