/** How pending items are split into chunks: the greedy loops of the TypeScript
    and Go versions, what they compute, and why no split needs fewer chunks. */
module Packing {
  import opened Utf8
  import opened Json
  import opened Chunker

  /** Everything about a cut that is the same for all its chunks. */
  datatype Envelope = Envelope(base: EnvelopeBase, batchId: Text, sentAt: Text, now: int)

  // ---------------------------------------------------------------------
  // The greedy split, item by item
  // ---------------------------------------------------------------------

  predicate Fits(chunk: seq<Item>, overhead: nat, limits: Limits)
  {
    overhead + Weight(chunk) <= limits.maxBytes && |chunk| <= limits.maxItems
  }

  /** An item that does not fit on its own travels alone. */
  predicate Allowed(chunk: seq<Item>, overhead: nat, limits: Limits)
  {
    chunk != [] && (|chunk| == 1 || Fits(chunk, overhead, limits))
  }

  function Pack(items: seq<Item>, overhead: nat, limits: Limits): (p: seq<seq<Item>>)
    ensures items == [] <==> p == []
    ensures forall i | 0 <= i < |p| :: p[i] != []
  {
    if items == [] then []
    else
      var p, x := Pack(items[..|items|-1], overhead, limits), items[|items|-1];
      if p != [] && Fits(p[|p|-1] + [x], overhead, limits) then p[..|p|-1] + [p[|p|-1] + [x]]
      else p + [[x]]
  }

  function Concat(p: seq<seq<Item>>): seq<Item>
  {
    if p == [] then [] else Concat(p[..|p|-1]) + p[|p|-1]
  }

  /** A split of the items, in order, into chunks that respect the limits. */
  ghost predicate IsSplit(p: seq<seq<Item>>, items: seq<Item>, overhead: nat, limits: Limits)
  {
    Concat(p) == items && forall i | 0 <= i < |p| :: Allowed(p[i], overhead, limits)
  }

  lemma PackPush(items: seq<Item>, x: Item, overhead: nat, limits: Limits)
    ensures var p := Pack(items, overhead, limits);
            Pack(items + [x], overhead, limits) ==
              if p != [] && Fits(p[|p|-1] + [x], overhead, limits) then p[..|p|-1] + [p[|p|-1] + [x]] else p + [[x]]
  {
    assert (items + [x])[..|items|] == items;
  }

  lemma ConcatPush(p: seq<seq<Item>>, c: seq<Item>)
    ensures Concat(p + [c]) == Concat(p) + c
  {
    assert (p + [c])[..|p|] == p;
  }

  lemma ConcatExtend(p: seq<seq<Item>>, x: Item)
    requires p != []
    ensures Concat(p[..|p|-1] + [p[|p|-1] + [x]]) == Concat(p) + [x]
  {
    ConcatPush(p[..|p|-1], p[|p|-1] + [x]);
    assert (Concat(p[..|p|-1]) + p[|p|-1]) + [x] == Concat(p[..|p|-1]) + (p[|p|-1] + [x]);
  }

  lemma {:induction false} PackConcat(items: seq<Item>, overhead: nat, limits: Limits)
    ensures Concat(Pack(items, overhead, limits)) == items
  {
    if items != [] {
      var init, x := items[..|items|-1], items[|items|-1];
      var p := Pack(init, overhead, limits);
      PackConcat(init, overhead, limits);
      assert items == init + [x];
      if p != [] && Fits(p[|p|-1] + [x], overhead, limits) {
        ConcatExtend(p, x);
      } else {
        ConcatPush(p, [x]);
      }
    }
  }

  lemma {:induction false} PackAllowed(items: seq<Item>, overhead: nat, limits: Limits)
    ensures forall i | 0 <= i < |Pack(items, overhead, limits)| :: Allowed(Pack(items, overhead, limits)[i], overhead, limits)
  {
    if items != [] {
      PackAllowed(items[..|items|-1], overhead, limits);
    }
  }

  lemma PackIsSplit(items: seq<Item>, overhead: nat, limits: Limits)
    ensures IsSplit(Pack(items, overhead, limits), items, overhead, limits)
  {
    PackConcat(items, overhead, limits);
    PackAllowed(items, overhead, limits);
  }

  lemma {:induction false} WeightSuffix(a: seq<Item>, b: seq<Item>)
    ensures Weight(b) <= Weight(a + b) && Weight(a) <= Weight(a + b)
  {
    if b == [] {
      assert a + b == a;
    } else {
      var init, x := b[..|b|-1], b[|b|-1];
      WeightSuffix(a, init);
      assert b == init + [x] && a + b == (a + init) + [x];
      WeightPush(init, x);
      WeightPush(a + init, x);
      KindsOfAppend(a, init, x.kind);
    }
  }

  /** The last chunk of a split that holds at least as many items as `c` ends
      in `c`, so it fits only if `c` does. */
  lemma SuffixFits(whole: seq<Item>, c: seq<Item>, overhead: nat, limits: Limits)
    requires |c| <= |whole| && whole[|whole|-|c|..] == c
    requires Fits(whole, overhead, limits)
    ensures Fits(c, overhead, limits)
  {
    var front := whole[..|whole|-|c|];
    assert whole == front + c;
    WeightSuffix(front, c);
  }

  lemma LastIsSuffix(p: seq<seq<Item>>)
    requires p != []
    ensures |p[|p|-1]| <= |Concat(p)| && Concat(p)[|Concat(p)|-|p[|p|-1]|..] == p[|p|-1]
  {
  }

  /** A split of all but the last item, obtained by taking that item away. */
  function DropLast(p: seq<seq<Item>>): seq<seq<Item>>
    requires p != [] && p[|p|-1] != []
  {
    var c := p[|p|-1];
    if |c| == 1 then p[..|p|-1] else p[..|p|-1] + [c[..|c|-1]]
  }

  lemma DropLastConcat(p: seq<seq<Item>>)
    requires p != [] && p[|p|-1] != []
    ensures var c := p[|p|-1]; Concat(DropLast(p)) + [c[|c|-1]] == Concat(p)
  {
    var front, c := p[..|p|-1], p[|p|-1];
    var d := c[..|c|-1];
    assert c == d + [c[|c|-1]];
    assert (Concat(front) + d) + [c[|c|-1]] == Concat(front) + c;
    if |c| == 1 {
      assert d == [] && Concat(front) + d == Concat(front);
    } else {
      ConcatPush(front, d);
    }
  }

  lemma DropLastIsSplit(p: seq<seq<Item>>, items: seq<Item>, x: Item, overhead: nat, limits: Limits)
    requires IsSplit(p, items + [x], overhead, limits)
    ensures p != [] && IsSplit(DropLast(p), items, overhead, limits)
  {
    var c := p[|p|-1];
    DropLastConcat(p);
    assert Concat(DropLast(p)) == (Concat(DropLast(p)) + [c[|c|-1]])[..|Concat(p)|-1] == (items + [x])[..|items|] == items;
    if |c| > 1 {
      assert c == c[..|c|-1] + [c[|c|-1]];
      WeightSuffix(c[..|c|-1], [c[|c|-1]]);
    }
  }

  /** Greedy packing stays ahead: a split has at least as many chunks, and one
      with equally many has at least as many items in its last chunk. */
  lemma {:induction false} GreedyIsAhead(p: seq<seq<Item>>, items: seq<Item>, overhead: nat, limits: Limits)
    requires IsSplit(p, items, overhead, limits)
    ensures var g := Pack(items, overhead, limits);
            |g| <= |p| && (|g| == |p| && p != [] ==> |g[|g|-1]| <= |p[|p|-1]|)
    decreases |items|
  {
    if items != [] {
      var init, x := items[..|items|-1], items[|items|-1];
      assert items == init + [x];
      var g := Pack(init, overhead, limits);
      PackPush(init, x, overhead, limits);
      DropLastIsSplit(p, init, x, overhead, limits);
      GreedyIsAhead(DropLast(p), init, overhead, limits);
      PackConcat(init, overhead, limits);
      if |p[|p|-1]| > 1 && |p| == |g| {
        LastExtends(p, g, init, x, overhead, limits);
      }
    }
  }

  /** If a split's last chunk reaches back beyond the last greedy chunk, the
      greedy chunk can take the next item too. */
  lemma LastExtends(p: seq<seq<Item>>, g: seq<seq<Item>>, init: seq<Item>, x: Item, overhead: nat, limits: Limits)
    requires IsSplit(p, init + [x], overhead, limits) && p != [] && |p[|p|-1]| > 1
    requires g != [] && Concat(g) == init && |g[|g|-1]| < |p[|p|-1]|
    ensures Fits(g[|g|-1] + [x], overhead, limits)
  {
    var c, last := p[|p|-1], g[|g|-1];
    LastIsSuffix(g);
    LastIsSuffix(p);
    var items := init + [x];
    assert c == items[|items| - |c|..];
    assert last + [x] == items[|items| - |last| - 1..];
    assert c[|c| - |last| - 1..] == last + [x];
    SuffixFits(c, last + [x], overhead, limits);
  }

  /** No split in send order that respects the limits uses fewer chunks. */
  lemma PackIsOptimal(p: seq<seq<Item>>, items: seq<Item>, overhead: nat, limits: Limits)
    requires IsSplit(p, items, overhead, limits)
    ensures IsSplit(Pack(items, overhead, limits), items, overhead, limits)
    ensures |Pack(items, overhead, limits)| <= |p|
  {
    PackIsSplit(items, overhead, limits);
    GreedyIsAhead(p, items, overhead, limits);
  }

  // ---------------------------------------------------------------------
  // Chunks
  // ---------------------------------------------------------------------

  function OfKind(items: seq<Item>, kind: Kind): seq<Item>
  {
    if items == [] then []
    else
      var init, x := OfKind(items[..|items|-1], kind), items[|items|-1];
      if x.kind == kind then init + [x] else init
  }

  function Grouped(items: seq<Item>): Groups<Item>
  {
    Groups(OfKind(items, Errors), OfKind(items, Traces), OfKind(items, Events))
  }

  function ChunkOf(items: seq<Item>, index: nat, env: Envelope): Chunk
  {
    var g := Grouped(items);
    var key := IdempotencyKey(env.batchId, index);
    var body := AssembleBody(GroupJsons(g), env.base, key, env.sentAt);
    Chunk(key, body, Size(body), Counts(|g.errors|, |g.traces|, |g.events|), items, 0, env.now)
  }

  function ChunksOf(p: seq<seq<Item>>, env: Envelope): (r: seq<Chunk>)
    ensures |r| == |p| && forall i | 0 <= i < |p| :: r[i] == ChunkOf(p[i], i, env)
  {
    seq(|p|, i requires 0 <= i < |p| => ChunkOf(p[i], i, env))
  }

  /** The chunks that a cut makes of the pending items. */
  function Cut(pending: Groups<Item>, env: Envelope, limits: Limits): seq<Chunk>
  {
    ChunksOf(Pack(pending.Flat(), EnvelopeOverhead(env.base, env.sentAt), limits), env)
  }

  lemma {:induction false} OfKindAppend(a: seq<Item>, b: seq<Item>, kind: Kind)
    ensures OfKind(a + b, kind) == OfKind(a, kind) + OfKind(b, kind)
  {
    if b == [] {
      assert a + b == a;
    } else {
      assert (a + b)[..|a + b|-1] == a + b[..|b|-1];
      OfKindAppend(a, b[..|b|-1], kind);
    }
  }

  lemma {:induction false} OfKindAll(items: seq<Item>, kind: Kind, other: Kind)
    requires OnlyKind(items, kind)
    ensures OfKind(items, other) == if other == kind then items else []
  {
    if items != [] {
      OfKindAll(items[..|items|-1], kind, other);
      assert items == items[..|items|-1] + [items[|items|-1]];
    }
  }

  lemma GroupedFlat(g: Groups<Item>)
    requires WellKinded(g)
    ensures Grouped(g.Flat()) == g
  {
    GroupedKind(g, Errors);
    GroupedKind(g, Traces);
    GroupedKind(g, Events);
  }

  lemma GroupedKind(g: Groups<Item>, kind: Kind)
    requires WellKinded(g)
    ensures OfKind(g.Flat(), kind) == g.Of(kind)
  {
    OfKindAppend(g.errors + g.traces, g.events, kind);
    OfKindAppend(g.errors, g.traces, kind);
    OfKindAll(g.errors, Errors, kind);
    OfKindAll(g.traces, Traces, kind);
    OfKindAll(g.events, Events, kind);
  }

  // ---------------------------------------------------------------------
  // The loops
  // ---------------------------------------------------------------------

  const KIND_ORDER: seq<Kind> := [Errors, Traces, Events]

  const EMPTY: Groups<Item> := Groups([], [], [])

  /** What the loops have done with the items so far: the closed chunks and the
      open one are the greedy split of them, and the byte counter is exact. */
  ghost predicate Packed(done: seq<Item>, m: Packer, overhead: nat, limits: Limits)
  {
    && WellKinded(m.open)
    && m.bytes == overhead + Weight(m.open.Flat())
    && (m.open.Count() > 0 ==> m.bytes <= limits.maxBytes)
    && if m.open.Count() > 0 then Pack(done, overhead, limits) == m.closed + [m.open.Flat()]
       else
         && Pack(done, overhead, limits) == m.closed
         && (m.closed != [] ==> overhead + Weight(m.closed[|m.closed|-1]) > limits.maxBytes)
  }

  /** No item of a kind that comes later in send order. */
  predicate UpTo(g: Groups<Item>, kind: Kind)
  {
    && (kind == Errors ==> g.traces == [] && g.events == [])
    && (kind == Traces ==> g.events == [])
  }

  function Push(g: Groups<Item>, x: Item): Groups<Item> { g.With(x.kind, g.Of(x.kind) + [x]) }

  /** Bytes that the next item adds to the open chunk. */
  function Added(g: Groups<Item>, x: Item): nat { x.bytes + if |g.Of(x.kind)| > 0 then 1 else 0 }

  lemma PushFlat(g: Groups<Item>, x: Item)
    requires WellKinded(g) && UpTo(g, x.kind)
    ensures WellKinded(Push(g, x)) && UpTo(Push(g, x), x.kind) && Push(g, x).Count() == g.Count() + 1
    ensures Push(g, x).Flat() == g.Flat() + [x]
  {
    match x.kind
    case Errors => PushErrors(g, x);
    case Traces => PushTraces(g, x);
    case Events => assert Push(g, x).Flat() == g.Flat() + [x];
  }

  lemma PushErrors(g: Groups<Item>, x: Item)
    requires x.kind == Errors && UpTo(g, Errors)
    ensures Push(g, x).Flat() == g.Flat() + [x]
  {
    assert Push(g, x).Flat() == g.errors + [x] && g.Flat() == g.errors;
  }

  lemma PushTraces(g: Groups<Item>, x: Item)
    requires x.kind == Traces && UpTo(g, Traces)
    ensures Push(g, x).Flat() == g.Flat() + [x]
  {
    assert Push(g, x).Flat() == g.errors + (g.traces + [x]) && g.Flat() == g.errors + g.traces;
  }

  lemma PushWeight(g: Groups<Item>, x: Item)
    requires WellKinded(g)
    ensures Weight(g.Flat() + [x]) == Weight(g.Flat()) + Added(g, x)
  {
    WeightPush(g.Flat(), x);
    GroupedKind(g, x.kind);
    HasKindIff(g.Flat(), x.kind);
  }

  lemma {:induction false} HasKindIff(items: seq<Item>, kind: Kind)
    ensures HasKind(items, kind) <==> OfKind(items, kind) != []
  {
    if items != [] {
      var init, x := items[..|items|-1], items[|items|-1];
      HasKindIff(init, kind);
      KindsOfAppend(init, [x], kind);
      assert items == init + [x];
      assert HasKind([x], kind) <==> [x][0].kind == kind;
    }
  }

  /** The guard of the loops closes the open chunk exactly when the item does
      not fit in it. */
  predicate MustClose(g: Groups<Item>, bytes: int, x: Item, limits: Limits)
  {
    g.Count() > 0 && (bytes + Added(g, x) > limits.maxBytes || g.Count() + 1 > limits.maxItems)
  }

  lemma PackExtend(done: seq<Item>, closed: seq<seq<Item>>, c: seq<Item>, x: Item, overhead: nat, limits: Limits)
    requires Pack(done, overhead, limits) == closed + [c] && Fits(c + [x], overhead, limits)
    ensures Pack(done + [x], overhead, limits) == closed + [c + [x]]
  {
    PackPush(done, x, overhead, limits);
    var p := closed + [c];
    assert p[|p|-1] == c && p[..|p|-1] == closed;
  }

  lemma PackOpen(done: seq<Item>, closed: seq<seq<Item>>, x: Item, overhead: nat, limits: Limits)
    requires Pack(done, overhead, limits) == closed
    requires closed == [] || !Fits(closed[|closed|-1] + [x], overhead, limits)
    ensures Pack(done + [x], overhead, limits) == closed + [[x]]
  {
    PackPush(done, x, overhead, limits);
  }

  /** The variables of the loops: closed chunks, open chunk and its byte count. */
  datatype Packer = Packer(closed: seq<seq<Item>>, open: Groups<Item>, bytes: int) {
    function Close(overhead: nat): Packer { Packer(closed + [open.Flat()], EMPTY, overhead) }

    function Taken(x: Item): Packer { Packer(closed, Push(open, x), bytes + Added(open, x)) }

    /** The effect of one round of the inner loop. */
    function Next(x: Item, overhead: nat, limits: Limits): Packer
    {
      var a := if MustClose(open, bytes, x, limits) then Close(overhead) else this;
      var b := a.Taken(x);
      if b.bytes > limits.maxBytes then b.Close(overhead) else b
    }
  }

  /** After an item is pushed and before the size check, the open chunk is the
      last chunk of the greedy split. */
  ghost predicate Pushed(done: seq<Item>, n: Packer, kind: Kind, overhead: nat, limits: Limits)
  {
    && WellKinded(n.open) && UpTo(n.open, kind) && n.open.Count() > 0
    && n.bytes == overhead + Weight(n.open.Flat())
    && Pack(done, overhead, limits) == n.closed + [n.open.Flat()]
  }

  lemma PushExtends(done: seq<Item>, m: Packer, x: Item, overhead: nat, limits: Limits)
    requires Packed(done, m, overhead, limits) && UpTo(m.open, x.kind)
    requires !MustClose(m.open, m.bytes, x, limits) && m.open.Count() > 0
    ensures Pushed(done + [x], m.Taken(x), x.kind, overhead, limits)
  {
    PushFlat(m.open, x);
    PushWeight(m.open, x);
    PackExtend(done, m.closed, m.open.Flat(), x, overhead, limits);
  }

  lemma TooHeavy(c: seq<Item>, x: Item, overhead: nat, limits: Limits)
    requires overhead + Weight(c) > limits.maxBytes
    ensures !Fits(c + [x], overhead, limits)
  {
    WeightSuffix(c, [x]);
  }

  lemma PushOpens(done: seq<Item>, m: Packer, x: Item, overhead: nat, limits: Limits)
    requires m.open == EMPTY && m.bytes == overhead && Pack(done, overhead, limits) == m.closed
    requires m.closed == [] || !Fits(m.closed[|m.closed|-1] + [x], overhead, limits)
    ensures Pushed(done + [x], m.Taken(x), x.kind, overhead, limits)
  {
    PushEmpty(x);
    PackOpen(done, m.closed, x, overhead, limits);
  }

  lemma PushEmpty(x: Item)
    ensures var g := Push(EMPTY, x);
            WellKinded(g) && UpTo(g, x.kind) && g.Count() == 1 && g.Flat() == [x]
            && Weight([x]) == x.bytes == Added(EMPTY, x)
  {
    PushFlat(EMPTY, x);
    WeightOfOne([x]);
  }

  /** The size check closes an oversized item's chunk. */
  lemma CheckKeeps(done: seq<Item>, n: Packer, kind: Kind, overhead: nat, limits: Limits)
    requires Pushed(done, n, kind, overhead, limits)
    ensures var r := if n.bytes > limits.maxBytes then n.Close(overhead) else n;
            Packed(done, r, overhead, limits) && UpTo(r.open, kind)
  {
    assert EMPTY.Flat() == [];
  }

  lemma CloseNotFits(m: Packer, x: Item, overhead: nat, limits: Limits)
    requires WellKinded(m.open) && m.bytes == overhead + Weight(m.open.Flat()) && MustClose(m.open, m.bytes, x, limits)
    ensures !Fits(m.open.Flat() + [x], overhead, limits)
  {
    PushWeight(m.open, x);
    assert |m.open.Flat() + [x]| == m.open.Count() + 1;
  }

  lemma NextKeeps(done: seq<Item>, m: Packer, x: Item, overhead: nat, limits: Limits)
    requires Packed(done, m, overhead, limits) && UpTo(m.open, x.kind)
    ensures var n := m.Next(x, overhead, limits);
            Packed(done + [x], n, overhead, limits) && UpTo(n.open, x.kind)
  {
    if MustClose(m.open, m.bytes, x, limits) {
      CloseNotFits(m, x, overhead, limits);
      PushOpens(done, m.Close(overhead), x, overhead, limits);
      CheckKeeps(done + [x], m.Close(overhead).Taken(x), x.kind, overhead, limits);
    } else {
      if m.open.Count() > 0 {
        PushExtends(done, m, x, overhead, limits);
      } else {
        assert m.open == EMPTY && EMPTY.Flat() == [];
        if m.closed != [] { TooHeavy(m.closed[|m.closed|-1], x, overhead, limits); }
        PushOpens(done, m, x, overhead, limits);
      }
      CheckKeeps(done + [x], m.Taken(x), x.kind, overhead, limits);
    }
  }

  /** Takes the item into the open chunk, closing chunks where the loop does. */
  method Take(item: Item, groups: Groups<Item>, bytes: int, chunks: seq<Chunk>, env: Envelope, limits: Limits, overhead: nat,
              ghost closed: seq<seq<Item>>)
    returns (groups': Groups<Item>, bytes': int, chunks': seq<Chunk>, ghost closed': seq<seq<Item>>)
    requires UpTo(groups, item.kind)
    requires chunks == ChunksOf(closed, env)
    requires WellKinded(groups)
    ensures Packer(closed', groups', bytes') == Packer(closed, groups, bytes).Next(item, overhead, limits)
    ensures chunks' == ChunksOf(closed', env)
  {
    groups', bytes', chunks', closed' := groups, bytes, chunks, closed;
    var added := item.bytes + if |groups.Of(item.kind)| > 0 then 1 else 0;
    if groups.Count() > 0 && (bytes + added > limits.maxBytes || groups.Count() + 1 > limits.maxItems) {
      chunks', closed' := Close(groups, chunks, closed, env);
      groups', bytes' := Groups([], [], []), overhead;
    }
    PushFlat(groups', item);
    groups' := groups'.With(item.kind, groups'.Of(item.kind) + [item]);
    bytes' := bytes' + item.bytes + if |groups'.Of(item.kind)| > 1 then 1 else 0;
    if bytes' > limits.maxBytes {
      chunks', closed' := Close(groups', chunks', closed', env);
      groups', bytes' := Groups([], [], []), overhead;
    }
  }

  method BuildChunks(pending: Groups<Item>, env: Envelope, limits: Limits) returns (chunks: seq<Chunk>)
    requires WellKinded(pending)
    ensures chunks == Cut(pending, env, limits)
  {
    var overhead := EnvelopeOverhead(env.base, env.sentAt);
    chunks := BuildWith(pending, overhead, env, limits);
  }

  method BuildWith(pending: Groups<Item>, overhead: nat, env: Envelope, limits: Limits) returns (chunks: seq<Chunk>)
    requires WellKinded(pending)
    ensures chunks == ChunksOf(Pack(pending.Flat(), overhead, limits), env)
  {
    chunks := [];
    var groups, bytes := Groups([], [], []), overhead;
    ghost var closed: seq<seq<Item>> := [];
    var k := 0;
    while k < |KIND_ORDER|
      invariant 0 <= k <= 3
      invariant k < 3 ==> UpTo(groups, KIND_ORDER[k])
      invariant Packed(Before(pending, k), Packer(closed, groups, bytes), overhead, limits)
      invariant chunks == ChunksOf(closed, env)
    {
      var kind := KIND_ORDER[k];
      KindAt(pending, k);
      groups, bytes, chunks, closed :=
        TakeKind(kind, pending.Of(kind), groups, bytes, chunks, env, limits, overhead, Before(pending, k), closed);
      k := k + 1;
    }
    if groups.Count() > 0 {
      chunks, closed := Close(groups, chunks, closed, env);
    }
  }

  /** The items of the first `k` kinds in send order. */
  function Before(g: Groups<Item>, k: nat): seq<Item>
  {
    if k == 0 then [] else if k == 1 then [] + g.errors else if k == 2 then [] + g.errors + g.traces
    else g.Flat()
  }

  /** One kind more. */
  lemma KindAt(g: Groups<Item>, k: nat)
    requires WellKinded(g) && k < 3
    ensures OnlyKind(g.Of(KIND_ORDER[k]), KIND_ORDER[k]) && Before(g, k) + g.Of(KIND_ORDER[k]) == Before(g, k + 1)
    ensures k < 2 ==> forall open: Groups<Item> :: UpTo(open, KIND_ORDER[k]) ==> UpTo(open, KIND_ORDER[k + 1])
  {
    assert [] + g.errors == g.errors;
  }

  /** The loop over the items of one kind. */
  method TakeKind(kind: Kind, list: seq<Item>, groups: Groups<Item>, bytes: int, chunks: seq<Chunk>, env: Envelope,
                  limits: Limits, overhead: nat, ghost before: seq<Item>, ghost closed: seq<seq<Item>>)
    returns (groups': Groups<Item>, bytes': int, chunks': seq<Chunk>, ghost closed': seq<seq<Item>>)
    requires OnlyKind(list, kind)
    requires Packed(before, Packer(closed, groups, bytes), overhead, limits) && UpTo(groups, kind)
    requires chunks == ChunksOf(closed, env)
    ensures Packed(before + list, Packer(closed', groups', bytes'), overhead, limits) && UpTo(groups', kind)
    ensures chunks' == ChunksOf(closed', env)
  {
    groups', bytes', chunks', closed' := groups, bytes, chunks, closed;
    ghost var done := before;
    assert before + list[..0] == before;
    var i := 0;
    while i < |list|
      invariant 0 <= i <= |list| && done == before + list[..i]
      invariant Packed(done, Packer(closed', groups', bytes'), overhead, limits) && UpTo(groups', kind)
      invariant chunks' == ChunksOf(closed', env)
    {
      NextKeeps(done, Packer(closed', groups', bytes'), list[i], overhead, limits);
      groups', bytes', chunks', closed' := Take(list[i], groups', bytes', chunks', env, limits, overhead, closed');
      TakeOneMore(before, list, i);
      done := done + [list[i]];
      i := i + 1;
    }
    assert list[..|list|] == list;
  }

  lemma TakeOneMore(before: seq<Item>, list: seq<Item>, i: nat)
    requires i < |list|
    ensures (before + list[..i]) + [list[i]] == before + list[..i + 1]
  {
  }

  /** Emits the open chunk. */
  method Close(groups: Groups<Item>, chunks: seq<Chunk>, ghost closed: seq<seq<Item>>, env: Envelope)
    returns (more: seq<Chunk>, ghost all: seq<seq<Item>>)
    requires WellKinded(groups) && chunks == ChunksOf(closed, env)
    ensures all == closed + [groups.Flat()] && more == ChunksOf(all, env)
  {
    var key := IdempotencyKey(env.batchId, |chunks|);
    var body := AssembleBody(GroupJsons(groups), env.base, key, env.sentAt);
    var bytes := ByteLength(body);
    var counts := Counts(|groups.errors|, |groups.traces|, |groups.events|);
    all := closed + [groups.Flat()];
    GroupedFlat(groups);
    more := chunks + [Chunk(key, body, bytes, counts, groups.Flat(), 0, env.now)];
  }

  // ---------------------------------------------------------------------
  // The Go loops: one `added` per item, reset when a chunk is closed
  // ---------------------------------------------------------------------

  /** A chunk of the Go client; its byte count is not kept. */
  datatype GoChunk = GoChunk(key: Text, body: Text, counts: Counts)

  function GoChunkOf(items: seq<Item>, index: nat, env: Envelope): GoChunk
  {
    var c := ChunkOf(items, index, env);
    GoChunk(c.key, c.body, c.counts)
  }

  function GoChunksOf(p: seq<seq<Item>>, env: Envelope): (r: seq<GoChunk>)
    ensures |r| == |p| && forall i | 0 <= i < |p| :: r[i] == GoChunkOf(p[i], i, env)
  {
    seq(|p|, i requires 0 <= i < |p| => GoChunkOf(p[i], i, env))
  }

  method GoClose(groups: Groups<Item>, chunks: seq<GoChunk>, ghost closed: seq<seq<Item>>, env: Envelope)
    returns (more: seq<GoChunk>, ghost all: seq<seq<Item>>)
    requires WellKinded(groups) && chunks == GoChunksOf(closed, env)
    ensures all == closed + [groups.Flat()] && more == GoChunksOf(all, env)
  {
    var key := IdempotencyKey(env.batchId, |chunks|);
    var body := AssembleBody(GroupJsons(groups), env.base, key, env.sentAt);
    all := closed + [groups.Flat()];
    GroupedFlat(groups);
    more := chunks + [GoChunk(key, body, Counts(|groups.errors|, |groups.traces|, |groups.events|))];
  }

  method GoTake(item: Item, groups: Groups<Item>, size: int, chunks: seq<GoChunk>, env: Envelope, limits: Limits, overhead: nat,
                ghost closed: seq<seq<Item>>)
    returns (groups': Groups<Item>, size': int, chunks': seq<GoChunk>, ghost closed': seq<seq<Item>>)
    requires UpTo(groups, item.kind) && WellKinded(groups) && chunks == GoChunksOf(closed, env)
    ensures Packer(closed', groups', size') == Packer(closed, groups, size).Next(item, overhead, limits)
    ensures chunks' == GoChunksOf(closed', env)
  {
    groups', size', chunks', closed' := groups, size, chunks, closed;
    var added := item.bytes;
    if |groups.Of(item.kind)| > 0 {
      added := added + 1;
    }
    if groups.Count() > 0 && (size + added > limits.maxBytes || groups.Count() + 1 > limits.maxItems) {
      chunks', closed' := GoClose(groups, chunks, closed, env);
      groups', size' := Groups([], [], []), overhead;
      added := item.bytes;
    }
    PushFlat(groups', item);
    groups' := groups'.With(item.kind, groups'.Of(item.kind) + [item]);
    size' := size' + added;
    if size' > limits.maxBytes {
      chunks', closed' := GoClose(groups', chunks', closed', env);
      groups', size' := Groups([], [], []), overhead;
    }
  }

  method GoTakeKind(kind: Kind, list: seq<Item>, groups: Groups<Item>, size: int, chunks: seq<GoChunk>, env: Envelope,
                    limits: Limits, overhead: nat, ghost before: seq<Item>, ghost closed: seq<seq<Item>>)
    returns (groups': Groups<Item>, size': int, chunks': seq<GoChunk>, ghost closed': seq<seq<Item>>)
    requires OnlyKind(list, kind)
    requires Packed(before, Packer(closed, groups, size), overhead, limits) && UpTo(groups, kind)
    requires chunks == GoChunksOf(closed, env)
    ensures Packed(before + list, Packer(closed', groups', size'), overhead, limits) && UpTo(groups', kind)
    ensures chunks' == GoChunksOf(closed', env)
  {
    groups', size', chunks', closed' := groups, size, chunks, closed;
    ghost var done := before;
    assert before + list[..0] == before;
    var i := 0;
    while i < |list|
      invariant 0 <= i <= |list| && done == before + list[..i]
      invariant Packed(done, Packer(closed', groups', size'), overhead, limits) && UpTo(groups', kind)
      invariant chunks' == GoChunksOf(closed', env)
    {
      NextKeeps(done, Packer(closed', groups', size'), list[i], overhead, limits);
      groups', size', chunks', closed' := GoTake(list[i], groups', size', chunks', env, limits, overhead, closed');
      TakeOneMore(before, list, i);
      done := done + [list[i]];
      i := i + 1;
    }
    assert list[..|list|] == list;
  }

  /** The Go bookkeeping arrives at the same split, keys, bodies and counts. */
  method GoBuildChunks(pending: Groups<Item>, env: Envelope, limits: Limits) returns (chunks: seq<GoChunk>)
    requires WellKinded(pending)
    ensures chunks == GoChunksOf(Pack(pending.Flat(), EnvelopeOverhead(env.base, env.sentAt), limits), env)
  {
    chunks := GoBuildWith(pending, EnvelopeOverhead(env.base, env.sentAt), env, limits);
  }

  method GoBuildWith(pending: Groups<Item>, overhead: nat, env: Envelope, limits: Limits) returns (chunks: seq<GoChunk>)
    requires WellKinded(pending)
    ensures chunks == GoChunksOf(Pack(pending.Flat(), overhead, limits), env)
  {
    chunks := [];
    var groups, size := Groups([], [], []), overhead;
    ghost var closed: seq<seq<Item>> := [];
    var k := 0;
    while k < |KIND_ORDER|
      invariant 0 <= k <= 3
      invariant k < 3 ==> UpTo(groups, KIND_ORDER[k])
      invariant Packed(Before(pending, k), Packer(closed, groups, size), overhead, limits)
      invariant chunks == GoChunksOf(closed, env)
    {
      var kind := KIND_ORDER[k];
      KindAt(pending, k);
      groups, size, chunks, closed :=
        GoTakeKind(kind, pending.Of(kind), groups, size, chunks, env, limits, overhead, Before(pending, k), closed);
      k := k + 1;
    }
    if groups.Count() > 0 {
      chunks, closed := GoClose(groups, chunks, closed, env);
    }
  }

  // ---------------------------------------------------------------------
  // Nothing lost, repeated or reordered
  // ---------------------------------------------------------------------

  function ItemsOf(chunks: seq<Chunk>): seq<Item>
  {
    if chunks == [] then [] else ItemsOf(chunks[..|chunks|-1]) + chunks[|chunks|-1].items
  }

  lemma {:induction false} ItemsOfAppend(a: seq<Chunk>, b: seq<Chunk>)
    ensures ItemsOf(a + b) == ItemsOf(a) + ItemsOf(b)
  {
    if b == [] {
      assert a + b == a;
    } else {
      assert (a + b)[..|a + b|-1] == a + b[..|b|-1];
      ItemsOfAppend(a, b[..|b|-1]);
    }
  }

  lemma ItemsOfHead(chunks: seq<Chunk>)
    requires chunks != []
    ensures ItemsOf(chunks) == chunks[0].items + ItemsOf(chunks[1..])
  {
    assert chunks == [chunks[0]] + chunks[1..];
    ItemsOfAppend([chunks[0]], chunks[1..]);
    assert [chunks[0]][..0] == [];
  }

  lemma {:induction false} ItemsOfChunks(p: seq<seq<Item>>, env: Envelope)
    ensures ItemsOf(ChunksOf(p, env)) == Concat(p)
  {
    if p != [] {
      assert ChunksOf(p, env)[..|p|-1] == ChunksOf(p[..|p|-1], env);
      ItemsOfChunks(p[..|p|-1], env);
    }
  }

  /** A cut puts every pending item into exactly one chunk, in send order. */
  lemma CutKeepsItems(pending: Groups<Item>, env: Envelope, limits: Limits)
    ensures ItemsOf(Cut(pending, env, limits)) == pending.Flat()
  {
    var overhead := EnvelopeOverhead(env.base, env.sentAt);
    PackConcat(pending.Flat(), overhead, limits);
    ItemsOfChunks(Pack(pending.Flat(), overhead, limits), env);
  }

  /** The text is what `JSON.stringify` printed for some value. */
  predicate IsPrinted(x: Item) { Parse(x.json).Some? && Print(Parse(x.json).value) == x.json }

  predicate Serialized(items: seq<Item>) { forall i | 0 <= i < |items| :: IsPrinted(items[i]) }

  function ValuesOf(items: seq<Item>): (r: seq<Value>)
    requires Serialized(items)
    ensures |r| == |items| && forall i | 0 <= i < |items| :: r[i] == Parse(items[i].json).value
  {
    seq(|items|, i requires 0 <= i < |items| => Parse(items[i].json).value)
  }

  /** The value of a member as `JSON.parse` reads it: the last one wins. */
  function Member(fields: seq<Field>, name: Text): Option<Value>
  {
    if fields == [] then None
    else if fields[|fields|-1].key == name then Some(fields[|fields|-1].value)
    else Member(fields[..|fields|-1], name)
  }

  function ArrayName(kind: Kind): Text
  {
    match kind
    case Errors => Ascii("errors")
    case Traces => Ascii("traces")
    case Events => Ascii("events")
  }

  /** The items of one kind that a server reads from a body. */
  function Received(body: Text, kind: Kind): seq<Value>
  {
    match Parse(body)
    case Some(Obj(fields)) =>
      (match Member(fields, ArrayName(kind))
       case Some(Arr(items)) => items
       case _ => [])
    case _ => []
  }

  function ReceivedAll(chunks: seq<Chunk>, kind: Kind): seq<Value>
  {
    if chunks == [] then []
    else ReceivedAll(chunks[..|chunks|-1], kind) + Received(chunks[|chunks|-1].body, kind)
  }

  lemma {:induction false} MemberSkips(fields: seq<Field>, more: seq<Field>, name: Text)
    requires forall i | 0 <= i < |more| :: more[i].key != name
    ensures Member(fields + more, name) == Member(fields, name)
  {
    if more == [] {
      assert fields + more == fields;
    } else {
      assert (fields + more)[..|fields + more|-1] == fields + more[..|more|-1];
      MemberSkips(fields, more[..|more|-1], name);
    }
  }

  lemma NamesDiffer()
    ensures Ascii("errors") != Ascii("traces") && Ascii("errors") != Ascii("events") && Ascii("traces") != Ascii("events")
    ensures forall kind :: ArrayName(kind) != IDEMPOTENCY_KEY && ArrayName(kind) != SENT_AT
  {
    assert Ascii("errors")[0] == 0x65 && Ascii("traces")[0] == 0x74 && Ascii("events")[1] == 0x76 && Ascii("errors")[1] == 0x72;
    assert |IDEMPOTENCY_KEY| == 15 && |SENT_AT| == 7;
  }

  lemma MemberOfThree(a: Field, b: Field, c: Field, name: Text)
    requires a.key != b.key && a.key != c.key && b.key != c.key
    ensures name == a.key ==> Member([a, b, c], name) == Some(a.value)
    ensures name == b.key ==> Member([a, b, c], name) == Some(b.value)
    ensures name == c.key ==> Member([a, b, c], name) == Some(c.value)
  {
    assert [a, b, c][..2] == [a, b] && [a, b][..1] == [a];
    assert Member([a], name) == if a.key == name then Some(a.value) else Member([], name);
    assert Member([a, b], name) == if b.key == name then Some(b.value) else Member([a], name);
  }

  lemma EnvelopeMember(groups: Groups<Value>, base: EnvelopeBase, key: Text, sentAt: Text, kind: Kind)
    ensures Member(ArrayFields(groups) + TailFields(base, key, sentAt), ArrayName(kind)) == Some(Arr(groups.Of(kind)))
  {
    var tail, f := TailFields(base, key, sentAt), ArrayFields(groups);
    NamesDiffer();
    forall i | 0 <= i < |tail| ensures tail[i].key != ArrayName(kind) {
      if i < |base| { assert tail[i] == base[i] && !IsReserved(base[i].key); }
    }
    MemberSkips(f, tail, ArrayName(kind));
    MemberOfThree(f[0], f[1], f[2], ArrayName(kind));
  }

  lemma ReceivedEnvelope(groups: Groups<Value>, base: EnvelopeBase, key: Text, sentAt: Text, kind: Kind)
    ensures Received(Print(Chunker.Envelope(groups, base, key, sentAt)), kind) == groups.Of(kind)
  {
    RoundTrip(Chunker.Envelope(groups, base, key, sentAt));
    EnvelopeMember(groups, base, key, sentAt, kind);
  }

  lemma {:induction false} SerializedPart(items: seq<Item>, kind: Kind)
    requires Serialized(items)
    ensures Serialized(OfKind(items, kind))
  {
    if items != [] { SerializedPart(items[..|items|-1], kind); }
  }

  /** A chunk's body is the serialization of its whole envelope, and reading it
      gives back its items, by kind. */
  lemma BodyReadsBack(items: seq<Item>, index: nat, env: Envelope, kind: Kind)
    requires Serialized(items)
    ensures Serialized(OfKind(items, kind))
    ensures Received(ChunkOf(items, index, env).body, kind) == ValuesOf(OfKind(items, kind))
  {
    SerializedPart(items, Errors);
    SerializedPart(items, Traces);
    SerializedPart(items, Events);
    var g := Grouped(items);
    var values := Groups(ValuesOf(g.errors), ValuesOf(g.traces), ValuesOf(g.events));
    PrintedBack(g.errors);
    PrintedBack(g.traces);
    PrintedBack(g.events);
    var key := IdempotencyKey(env.batchId, index);
    BodyIsEnvelope(values, env.base, key, env.sentAt);
    ReceivedEnvelope(values, env.base, key, env.sentAt, kind);
  }

  /** What `JSON.parse` reads under a name of the envelope. */
  function ReadMember(body: Text, name: Text): Option<Value>
  {
    match Parse(body)
    case Some(Obj(fields)) => Member(fields, name)
    case _ => None
  }

  /** The text says what it should under every name: the key, the time, and what
      the base has under each other name. */
  ghost predicate Says(body: Text, key: Text, sentAt: Text, base: seq<Field>)
  {
    && ReadMember(body, Ascii("idempotency_key")) == Some(Str(key))
    && ReadMember(body, Ascii("sent_at")) == Some(Str(sentAt))
    && forall name: Text :: !IsReserved(name) ==> ReadMember(body, name) == Member(base, name)
  }

  lemma {:induction false} MemberAppend(a: seq<Field>, b: seq<Field>, name: Text)
    ensures Member(a + b, name) == if Member(b, name).Some? then Member(b, name) else Member(a, name)
  {
    if b == [] {
      assert a + b == a;
    } else {
      assert (a + b)[..|a + b|-1] == a + b[..|b|-1];
      MemberAppend(a, b[..|b|-1], name);
    }
  }

  lemma TwoMembers(f: Field, g: Field, name: Text)
    ensures Member([f, g], name) == if g.key == name then Some(g.value) else if f.key == name then Some(f.value) else None
  {
    assert [f, g][..1] == [f] && [f][..0] == [];
    assert Member([f], name) == if f.key == name then Some(f.value) else Member([], name);
  }

  lemma {:induction false} MemberAbsent(fields: seq<Field>, name: Text)
    requires forall i | 0 <= i < |fields| :: fields[i].key != name
    ensures Member(fields, name) == None
  {
    if fields != [] { MemberAbsent(fields[..|fields|-1], name); }
  }

  lemma EnvelopeMembers(groups: Groups<Value>, base: EnvelopeBase, key: Text, sentAt: Text, name: Text)
    requires !IsReserved(name) || name == IDEMPOTENCY_KEY || name == SENT_AT
    ensures Member(ArrayFields(groups) + TailFields(base, key, sentAt), name)
            == if name == IDEMPOTENCY_KEY then Some(Str(key)) else if name == SENT_AT then Some(Str(sentAt)) else Member(base, name)
  {
    var f := ArrayFields(groups);
    NamesDiffer();
    assert ArrayName(Errors) == Ascii("errors") && ArrayName(Traces) == Ascii("traces") && ArrayName(Events) == Ascii("events");
    assert |IDEMPOTENCY_KEY| == 15 && |SENT_AT| == 7;
    MemberAppend(f, TailFields(base, key, sentAt), name);
    MemberAppend(base, [Field(IDEMPOTENCY_KEY, Str(key)), Field(SENT_AT, Str(sentAt))], name);
    TwoMembers(Field(IDEMPOTENCY_KEY, Str(key)), Field(SENT_AT, Str(sentAt)), name);
    MemberAbsent(f, name);
  }

  /** A chunk's body carries the chunk's own key, the time, and the base. */
  lemma BodySays(items: seq<Item>, index: nat, env: Envelope)
    requires Serialized(items)
    ensures Says(ChunkOf(items, index, env).body, ChunkOf(items, index, env).key, env.sentAt, env.base)
  {
    SerializedPart(items, Errors);
    SerializedPart(items, Traces);
    SerializedPart(items, Events);
    var g, key := Grouped(items), IdempotencyKey(env.batchId, index);
    var values := Groups(ValuesOf(g.errors), ValuesOf(g.traces), ValuesOf(g.events));
    PrintedBack(g.errors);
    PrintedBack(g.traces);
    PrintedBack(g.events);
    BodyIsEnvelope(values, env.base, key, env.sentAt);
    RoundTrip(Chunker.Envelope(values, env.base, key, env.sentAt));
    EnvelopeMembers(values, env.base, key, env.sentAt, IDEMPOTENCY_KEY);
    EnvelopeMembers(values, env.base, key, env.sentAt, SENT_AT);
    assert |IDEMPOTENCY_KEY| == 15 && |SENT_AT| == 7;
    forall name: Text | !IsReserved(name) ensures ReadMember(ChunkOf(items, index, env).body, name) == Member(env.base, name) {
      EnvelopeMembers(values, env.base, key, env.sentAt, name);
    }
  }

  /** The counts of a chunk are the numbers of items that its body holds. */
  lemma CountsAreRead(items: seq<Item>, index: nat, env: Envelope)
    requires Serialized(items)
    ensures var c := ChunkOf(items, index, env);
            && c.counts.errors == |Received(c.body, Errors)| && c.counts.traces == |Received(c.body, Traces)|
            && c.counts.events == |Received(c.body, Events)|
  {
    BodyReadsBack(items, index, env, Errors);
    BodyReadsBack(items, index, env, Traces);
    BodyReadsBack(items, index, env, Events);
  }

  lemma {:induction false} PartSerialized(p: seq<seq<Item>>, i: nat)
    requires Serialized(Concat(p)) && i < |p|
    ensures Serialized(p[i])
  {
    SerializedParts(Concat(p[..|p|-1]), p[|p|-1]);
    if i < |p| - 1 { PartSerialized(p[..|p|-1], i); }
  }

  /** Every chunk of a cut is new and has the next key of the batch; its body says
      that key, the time and the base, and its counts are right. */
  lemma CutSays(pending: Groups<Item>, env: Envelope, limits: Limits, i: nat)
    requires Serialized(pending.Flat()) && i < |Cut(pending, env, limits)|
    ensures var c := Cut(pending, env, limits)[i];
            && c.key == Ascii("wu_") + env.batchId + Ascii("_") + Decimal(i) && Says(c.body, c.key, env.sentAt, env.base)
            && c.counts.errors == |Received(c.body, Errors)| && c.counts.traces == |Received(c.body, Traces)|
            && c.counts.events == |Received(c.body, Events)| && c.attempts == 0
  {
    var p := Pack(pending.Flat(), EnvelopeOverhead(env.base, env.sentAt), limits);
    PackConcat(pending.Flat(), EnvelopeOverhead(env.base, env.sentAt), limits);
    PartSerialized(p, i);
    BodySays(p[i], i, env);
    CountsAreRead(p[i], i, env);
  }

  /** And so does every chunk that the Go client cuts. */
  lemma GoCutSays(pending: Groups<Item>, env: Envelope, limits: Limits, i: nat)
    requires Serialized(pending.Flat()) && i < |Pack(pending.Flat(), EnvelopeOverhead(env.base, env.sentAt), limits)|
    ensures var c := GoChunksOf(Pack(pending.Flat(), EnvelopeOverhead(env.base, env.sentAt), limits), env)[i];
            && c.key == Ascii("wu_") + env.batchId + Ascii("_") + Decimal(i) && Says(c.body, c.key, env.sentAt, env.base)
            && c.counts.errors == |Received(c.body, Errors)| && c.counts.traces == |Received(c.body, Traces)|
            && c.counts.events == |Received(c.body, Events)|
  {
    CutSays(pending, env, limits, i);
  }

  lemma PrintedBack(items: seq<Item>)
    requires Serialized(items)
    ensures PrintAll(ValuesOf(items)) == Jsons(items)
  {
  }

  lemma ValuesOfAppend(a: seq<Item>, b: seq<Item>)
    requires Serialized(a) && Serialized(b)
    ensures Serialized(a + b) && ValuesOf(a + b) == ValuesOf(a) + ValuesOf(b)
  {
  }

  lemma SerializedParts(a: seq<Item>, b: seq<Item>)
    requires Serialized(a + b)
    ensures Serialized(a) && Serialized(b)
  {
    assert forall i | 0 <= i < |a| :: a[i] == (a + b)[i];
    assert forall i | 0 <= i < |b| :: b[i] == (a + b)[|a| + i];
  }

  lemma {:induction false} ReceivedSplit(p: seq<seq<Item>>, env: Envelope, kind: Kind)
    requires Serialized(Concat(p))
    ensures Serialized(OfKind(Concat(p), kind))
    ensures ReceivedAll(ChunksOf(p, env), kind) == ValuesOf(OfKind(Concat(p), kind))
  {
    SerializedPart(Concat(p), kind);
    if p != [] {
      var init, last := p[..|p|-1], p[|p|-1];
      SerializedParts(Concat(init), last);
      ReceivedSplit(init, env, kind);
      BodyReadsBack(last, |p| - 1, env, kind);
      OfKindAppend(Concat(init), last, kind);
      ValuesOfAppend(OfKind(Concat(init), kind), OfKind(last, kind));
      assert ChunksOf(p, env)[..|p|-1] == ChunksOf(init, env);
    }
  }

  /** Reading the chunks of a cut in order gives, for each kind, exactly the
      pending items of that kind in capture order. */
  lemma CutReadsBack(pending: Groups<Item>, env: Envelope, limits: Limits, kind: Kind)
    requires WellKinded(pending) && Serialized(pending.Flat())
    ensures Serialized(pending.Of(kind))
    ensures ReceivedAll(Cut(pending, env, limits), kind) == ValuesOf(pending.Of(kind))
  {
    var p := Pack(pending.Flat(), EnvelopeOverhead(env.base, env.sentAt), limits);
    PackConcat(pending.Flat(), EnvelopeOverhead(env.base, env.sentAt), limits);
    GroupedKind(pending, kind);
    ReceivedSplit(p, env, kind);
  }

  // ---------------------------------------------------------------------
  // The byte bound
  // ---------------------------------------------------------------------

  lemma {:induction false} MeasuredPart(items: seq<Item>, kind: Kind)
    requires Measured(items)
    ensures Measured(OfKind(items, kind)) && OnlyKind(OfKind(items, kind), kind)
  {
    if items != [] { MeasuredPart(items[..|items|-1], kind); }
  }

  /** Items in send order: errors before traces before events. */
  predicate InOrder(items: seq<Item>) { Grouped(items).Flat() == items }

  lemma GroupedMeasured(items: seq<Item>)
    requires Measured(items)
    ensures WellKinded(Grouped(items)) && Measured(Grouped(items).Flat())
  {
    MeasuredPart(items, Errors);
    MeasuredPart(items, Traces);
    MeasuredPart(items, Events);
  }

  lemma ChunkSize(items: seq<Item>, index: nat, env: Envelope)
    requires Measured(items) && InOrder(items) && Plain(env.batchId)
    ensures ChunkOf(items, index, env).bytes
            == EnvelopeOverhead(env.base, env.sentAt) + Weight(items) - 42 + |env.batchId| + |Decimal(index)|
  {
    GroupedMeasured(items);
    BodySize(Grouped(items), env.base, env.batchId, index, env.sentAt);
  }

  function Rank(kind: Kind): nat
  {
    match kind
    case Errors => 0
    case Traces => 1
    case Events => 2
  }

  predicate SendOrder(items: seq<Item>)
  {
    forall i, j | 0 <= i < j < |items| :: Rank(items[i].kind) <= Rank(items[j].kind)
  }

  lemma FlatSendOrder(g: Groups<Item>)
    requires WellKinded(g)
    ensures SendOrder(g.Flat())
  {
  }

  lemma {:induction false} SendOrderInOrder(items: seq<Item>)
    requires SendOrder(items)
    ensures InOrder(items) && WellKinded(Grouped(items))
  {
    if items != [] {
      var init, x := items[..|items|-1], items[|items|-1];
      SendOrderInOrder(init);
      var g := Grouped(init);
      forall kind | Rank(kind) > Rank(x.kind) ensures OfKind(init, kind) == [] {
        HasKindIff(init, kind);
      }
      assert UpTo(g, x.kind);
      PushFlat(g, x);
      assert items == init + [x];
      assert Grouped(items) == Push(g, x);
    }
  }

  lemma SendOrderParts(a: seq<Item>, b: seq<Item>)
    requires SendOrder(a + b) && Measured(a + b)
    ensures SendOrder(a) && Measured(a) && SendOrder(b) && Measured(b)
  {
    assert forall i | 0 <= i < |a| :: a[i] == (a + b)[i];
    assert forall i | 0 <= i < |b| :: b[i] == (a + b)[|a| + i];
  }

  lemma {:induction false} SplitSendOrder(p: seq<seq<Item>>, i: nat)
    requires SendOrder(Concat(p)) && Measured(Concat(p)) && i < |p|
    ensures SendOrder(p[i]) && Measured(p[i])
  {
    SendOrderParts(Concat(p[..|p|-1]), p[|p|-1]);
    if i < |p| - 1 { SplitSendOrder(p[..|p|-1], i); }
  }

  /** Every body stays within the limit, unless it holds a single item that is
      larger than what an empty envelope leaves; and the byte count that a chunk
      carries is the exact size of its body. Holds while the batch id has at
      most 36 characters and the chunk index at most six digits, which is what
      the reserved key allows for. */
  lemma CutWithinLimit(pending: Groups<Item>, env: Envelope, limits: Limits, i: nat)
    requires WellKinded(pending) && Measured(pending.Flat())
    requires Plain(env.batchId) && |env.batchId| <= 36
    requires i < |Cut(pending, env, limits)| && i < 1_000_000
    ensures var c := Cut(pending, env, limits)[i];
            var overhead := EnvelopeOverhead(env.base, env.sentAt);
            && c.bytes == Size(c.body)
            && c.bytes == overhead + Weight(c.items) - 42 + |env.batchId| + |Decimal(i)| <= overhead + Weight(c.items)
            && (c.bytes <= limits.maxBytes || (|c.items| == 1 && overhead + c.items[0].bytes > limits.maxBytes))
            && (|c.items| == 1 || |c.items| <= limits.maxItems)
  {
    var overhead := EnvelopeOverhead(env.base, env.sentAt);
    var p := Pack(pending.Flat(), overhead, limits);
    PartInOrder(pending, overhead, limits, i);
    ChunkSize(p[i], i, env);
    DecimalLength(i, 6);
    assert Pow10(6) == 1_000_000;
    WeightOfOne(p[i]);
  }

  lemma WeightOfOne(items: seq<Item>)
    ensures |items| == 1 ==> Weight(items) == items[0].bytes
  {
    if |items| == 1 { WeightPush([], items[0]); assert items == [] + [items[0]]; }
  }

  lemma PartInOrder(pending: Groups<Item>, overhead: nat, limits: Limits, i: nat)
    requires WellKinded(pending) && Measured(pending.Flat()) && i < |Pack(pending.Flat(), overhead, limits)|
    ensures var c := Pack(pending.Flat(), overhead, limits)[i];
            Allowed(c, overhead, limits) && Measured(c) && InOrder(c)
  {
    PackIsSplit(pending.Flat(), overhead, limits);
    FlatSendOrder(pending);
    SplitSendOrder(Pack(pending.Flat(), overhead, limits), i);
    SendOrderInOrder(Pack(pending.Flat(), overhead, limits)[i]);
  }

  // ---------------------------------------------------------------------
  // Keys
  // ---------------------------------------------------------------------

  const UNDERSCORE: Unit := 0x5F

  /** Batch ids and indices can be read back from a key, so the keys of one cut
      are distinct and differ from those of a cut with another batch id: the
      last underscore of a key is the one before its index. */
  lemma KeyInjective(b1: Text, i1: nat, b2: Text, i2: nat)
    requires IdempotencyKey(b1, i1) == IdempotencyKey(b2, i2)
    ensures b1 == b2 && i1 == i2
  {
    LastUnderscore(b1, i1);
    LastUnderscore(b2, i2);
    var k1, k2 := IdempotencyKey(b1, i1), IdempotencyKey(b2, i2);
    assert k1[3..][..|b1|] == b1 && k2[3..][..|b2|] == b2;
    assert k1[4 + |b1|..] == Decimal(i1) && k2[4 + |b2|..] == Decimal(i2);
    DecimalRoundTrip(i1);
    DecimalRoundTrip(i2);
  }

  lemma LastUnderscore(batchId: Text, index: nat)
    ensures var k := IdempotencyKey(batchId, index);
            |k| > 3 + |batchId| && k[3 + |batchId|] == UNDERSCORE && forall j | 3 + |batchId| < j < |k| :: k[j] != UNDERSCORE
  {
    var k := IdempotencyKey(batchId, index);
    forall j | 3 + |batchId| < j < |k| ensures k[j] != UNDERSCORE {
      assert k[j] == Decimal(index)[j - 4 - |batchId|];
    }
  }
}
