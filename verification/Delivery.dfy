/** The delivery machine that every version of the queue implements: items are
    pending, then pasted into a chunk, then sent, retried and finally delivered
    or dropped. Its steps are the parts of the code that run without
    interruption; the versions differ in what triggers them. */
module Delivery {
  import opened Utf8
  import opened Json
  import opened Chunker
  import opened Packing
  import opened History

  const MAX_RETRY_CHUNKS: nat := 50

  datatype Config = Config(limits: Limits, maxQueueItems: int, policy: Policy)

  /** What the sender reports for one attempt. */
  datatype Reply = Ok | Failed(status: Option<int>, retryAfter: Option<int>)

  predicate IsRetryableStatus(status: int) { status == 408 || status == 425 || status == 429 || status >= 500 }

  predicate IsPermanent(r: Reply) { r.Failed? && r.status.Some? && !IsRetryableStatus(r.status.value) }

  datatype State = State(
    accepted: seq<Item>,      // everything ever taken in
    pending: Groups<Item>,
    retry: seq<Chunk>,
    work: seq<Chunk>,         // what is left of the current pass
    flying: bool,             // the first of `work` is being sent
    forced: bool,             // the current pass ignores retry times
    delivered: seq<Chunk>,
    rejected: seq<Chunk>,
    exhausted: seq<Chunk>,
    evicted: seq<Chunk>,
    taken: seq<Chunk>,
    overflowed: seq<Item>,
    attempted: seq<Item>,     // items of every send, in order
    firsts: seq<Item>,        // items of every first send, in order
    keys: set<Text>,          // every key ever used
    clock: int,
    log: seq<Event>)

  const INIT: State :=
    State([], EMPTY, [], [], false, false, [], [], [], [], [], [], [], [], {}, 0, [])

  datatype Step =
    | Accept(item: Item)
    | Begin(force: bool, cut: seq<Chunk>)
    | Launch
    | Answer(reply: Reply, jitter: real)
    | TakeAll(cut: seq<Chunk>)
    | Restore(items: Groups<Item>, chunks: seq<Chunk>)
    | Tick

  // ---------------------------------------------------------------------
  // Parts of steps
  // ---------------------------------------------------------------------

  function Clamp(n: int, low: int, high: int): int
    requires low <= high
  {
    if n < low then low else if n > high then high else n
  }

  /** How many of each kind the bound drops: events first, then traces, then errors. */
  function DropCounts(g: Groups<Item>, max: int): (c: Counts)
    ensures c.errors <= |g.errors| && c.traces <= |g.traces| && c.events <= |g.events|
  {
    var excess := g.Count() - max;
    var events := Clamp(excess, 0, |g.events|);
    var traces := Clamp(excess - events, 0, |g.traces|);
    var errors := Clamp(excess - events - traces, 0, |g.errors|);
    Counts(errors, traces, events)
  }

  function Kept(g: Groups<Item>, max: int): Groups<Item>
  {
    var c := DropCounts(g, max);
    Groups(g.errors[c.errors..], g.traces[c.traces..], g.events[c.events..])
  }

  /** Dropped items in the order in which they are dropped. */
  function Dropped(g: Groups<Item>, max: int): seq<Item>
  {
    var c := DropCounts(g, max);
    g.events[..c.events] + g.traces[..c.traces] + g.errors[..c.errors]
  }

  predicate IsDue(c: Chunk, force: bool, now: int) { force || c.nextAttemptAt <= now }

  function Due(chunks: seq<Chunk>, force: bool, now: int): seq<Chunk>
  {
    if chunks == [] then []
    else
      var c := chunks[|chunks|-1];
      var rest := Due(chunks[..|chunks|-1], force, now);
      if IsDue(c, force, now) then rest + [c] else rest
  }

  function NotDue(chunks: seq<Chunk>, force: bool, now: int): seq<Chunk>
  {
    if chunks == [] then []
    else
      var c := chunks[|chunks|-1];
      var rest := NotDue(chunks[..|chunks|-1], force, now);
      if IsDue(c, force, now) then rest else rest + [c]
  }

  function Keys(chunks: seq<Chunk>): (r: seq<Text>)
    ensures |r| == |chunks| && forall i | 0 <= i < |chunks| :: r[i] == chunks[i].key
  {
    seq(|chunks|, i requires 0 <= i < |chunks| => chunks[i].key)
  }

  predicate Distinct(keys: seq<Text>) { forall i, j | 0 <= i < j < |keys| :: keys[i] != keys[j] }

  function KeySet(chunks: seq<Chunk>): set<Text> { set c | c in chunks :: c.key }

  predicate Counted(c: Chunk) { c.counts.errors + c.counts.traces + c.counts.events == |c.items| }

  /** Chunks that a cut may make of the pending items. */
  ghost predicate IsCut(pending: Groups<Item>, cut: seq<Chunk>, used: set<Text>)
  {
    && ItemsOf(cut) == pending.Flat()
    && Distinct(Keys(cut)) && KeySet(cut) !! used
    && forall c | c in cut :: c.attempts == 0 && Counted(c)
  }

  /** The wait that `backoff` computes after a failure; `jitter` is its random number. */
  function DelayOf(c: Chunk, reply: Reply, jitter: real, policy: Policy): int
    requires c.attempts >= 1
  {
    if reply.Ok? then 0 else Backoff(c.attempts, reply.retryAfter, jitter, policy)
  }

  function Excess(retry: seq<Chunk>): nat { if |retry| > MAX_RETRY_CHUNKS then |retry| - MAX_RETRY_CHUNKS else 0 }

  // ---------------------------------------------------------------------
  // Steps
  // ---------------------------------------------------------------------

  /** There is a chunk that has been sent at least once to reply to. */
  predicate Aloft(s: State) { s.work != [] && s.work[0].attempts >= 1 }

  ghost predicate Enabled(s: State, step: Step, now: int, cfg: Config)
  {
    && s.clock <= now
    && match step
       case Accept(_) => true
       case Begin(_, cut) => s.work == [] && !s.flying && IsCut(s.pending, cut, s.keys)
       case Launch => s.work != [] && !s.flying
       case Answer(_, jitter) => s.flying && Aloft(s) && 0.0 <= jitter < 1.0
       case TakeAll(cut) => IsCut(s.pending, cut, s.keys)
       case Restore(items, chunks) => WellKinded(items) && forall c | c in chunks :: Counted(c)
       case Tick => true
  }

  function AcceptStep(s: State, item: Item, cfg: Config): State
  {
    var g := Push(s.pending, item);
    s.(accepted := s.accepted + [item], pending := Kept(g, cfg.maxQueueItems),
       overflowed := s.overflowed + Dropped(g, cfg.maxQueueItems))
  }

  function BeginStep(s: State, force: bool, cut: seq<Chunk>, now: int): State
  {
    s.(pending := EMPTY, retry := NotDue(s.retry, force, now), work := Due(s.retry, force, now) + cut,
       forced := force, keys := s.keys + KeySet(cut))
  }

  function LaunchStep(s: State, now: int): State
    requires s.work != []
  {
    var c := s.work[0].(attempts := s.work[0].attempts + 1);
    s.(work := [c] + s.work[1..], flying := true,
       attempted := s.attempted + c.items,
       firsts := if c.attempts == 1 then s.firsts + c.items else s.firsts,
       log := s.log + [Sent(c.key, c.body, c.attempts, now, s.forced)])
  }

  function AnswerStep(s: State, reply: Reply, delay: int, now: int, cfg: Config): State
    requires Aloft(s)
  {
    var c := s.work[0];
    var t := s.(work := s.work[1..], flying := false);
    if reply.Ok? then t.(delivered := s.delivered + [c], log := s.log + [Accepted(c.key)])
    else if IsPermanent(reply) then t.(rejected := s.rejected + [c], log := s.log + [Refused(c.key)])
    else if c.attempts >= cfg.policy.maxAttempts then t.(exhausted := s.exhausted + [c], log := s.log + [GaveUp(c.key)])
    else
      var retry := s.retry + [c.(nextAttemptAt := now + delay)];
      var n := Excess(retry);
      t.(retry := retry[n..], evicted := s.evicted + retry[..n],
         log := s.log + [Waits(c.key, c.attempts, now, delay, reply.retryAfter)])
  }

  function TakeAllStep(s: State, cut: seq<Chunk>): State
  {
    s.(pending := EMPTY, retry := [], taken := s.taken + (s.retry + cut), keys := s.keys + KeySet(cut))
  }

  /** Restored items go ahead of what is pending, kind by kind. */
  function Merged(items: Groups<Item>, pending: Groups<Item>): Groups<Item>
  {
    Groups(items.errors + pending.errors, items.traces + pending.traces, items.events + pending.events)
  }

  function RestoreStep(s: State, items: Groups<Item>, chunks: seq<Chunk>, cfg: Config): State
  {
    var g := Merged(items, s.pending);
    s.(accepted := s.accepted + items.Flat() + ItemsOf(chunks),
       pending := Kept(g, cfg.maxQueueItems), overflowed := s.overflowed + Dropped(g, cfg.maxQueueItems),
       retry := s.retry + chunks, keys := s.keys + KeySet(chunks))
  }

  function Effect(s: State, step: Step, now: int, cfg: Config): State
    requires (step.Launch? ==> s.work != []) && (step.Answer? ==> Aloft(s))
  {
    match step
    case Accept(item) => AcceptStep(s, item, cfg)
    case Begin(force, cut) => BeginStep(s, force, cut, now)
    case Launch => LaunchStep(s, now)
    case Answer(reply, jitter) => AnswerStep(s, reply, DelayOf(s.work[0], reply, jitter, cfg.policy), now, cfg)
    case TakeAll(cut) => TakeAllStep(s, cut)
    case Restore(items, chunks) => RestoreStep(s, items, chunks, cfg)
    case Tick => s
  }

  function Apply(s: State, step: Step, now: int, cfg: Config): State
    requires (step.Launch? ==> s.work != []) && (step.Answer? ==> Aloft(s))
  {
    Effect(s, step, now, cfg).(clock := now)
  }

  datatype Timed = Timed(step: Step, now: int)

  /** The state after a run from the empty queue; `None` if a step is not enabled. */
  ghost function Run(trace: seq<Timed>, cfg: Config): Option<State>
  {
    if trace == [] then Some(INIT)
    else
      match Run(trace[..|trace|-1], cfg)
      case None => None
      case Some(s) =>
        var t := trace[|trace|-1];
        if Enabled(s, t.step, t.now, cfg) then Some(Apply(s, t.step, t.now, cfg)) else None
  }
}
