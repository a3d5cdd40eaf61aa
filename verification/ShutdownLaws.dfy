/** Why a drain and the shutdown loop end, and what they leave of the items that
    were queued. */
module ShutdownLaws {
  import opened Json
  import opened Chunker
  import opened Packing
  import opened History
  import opened Delivery
  import opened KeyHistory
  import opened QueueSteps
  import opened QueueRefines
  import opened Counters
  import Triggers

  // ---------------------------------------------------------------------
  // Remaining attempts
  // ---------------------------------------------------------------------

  /** How often a waiting chunk may still be sent. */
  function Tries(c: Chunk, max: int): nat { Max(1, max - c.attempts) }

  function AllTries(chunks: seq<Chunk>, max: int): nat
  {
    if chunks == [] then 0 else AllTries(chunks[..|chunks|-1], max) + Tries(chunks[|chunks|-1], max)
  }

  /** How often anything may still be sent if nothing is taken in. */
  function Remaining(c: State, max: int): nat
  {
    AllTries(c.retry, max) + AllTries(ToSend(c), max) + if c.flying && c.work != [] then Max(0, max - c.work[0].attempts) else 0
  }

  lemma {:induction false} TriesAppend(a: seq<Chunk>, b: seq<Chunk>, max: int)
    ensures AllTries(a + b, max) == AllTries(a, max) + AllTries(b, max)
  {
    if b == [] {
      assert a + b == a;
    } else {
      assert (a + b)[..|a + b|-1] == a + b[..|b|-1];
      TriesAppend(a, b[..|b|-1], max);
    }
  }

  lemma TriesOne(c: Chunk, max: int)
    ensures AllTries([c], max) == Tries(c, max)
  {
    assert [c][..0] == [];
  }

  lemma TriesHead(chunks: seq<Chunk>, max: int)
    requires chunks != []
    ensures AllTries(chunks, max) == Tries(chunks[0], max) + AllTries(chunks[1..], max)
  {
    assert chunks == [chunks[0]] + chunks[1..];
    TriesAppend([chunks[0]], chunks[1..], max);
    TriesOne(chunks[0], max);
  }

  lemma {:induction false} TriesOfDue(chunks: seq<Chunk>, force: bool, now: int, max: int)
    ensures AllTries(chunks, max) == AllTries(Due(chunks, force, now), max) + AllTries(NotDue(chunks, force, now), max)
  {
    if chunks != [] {
      var init, c := chunks[..|chunks|-1], chunks[|chunks|-1];
      TriesOfDue(init, force, now, max);
      TriesAppend(if IsDue(c, force, now) then Due(init, force, now) else NotDue(init, force, now), [c], max);
      TriesOne(c, max);
    }
  }

  lemma BeginRemaining(c: State, force: bool, cut: seq<Chunk>, now: int, max: int)
    requires c.work == [] && !c.flying
    ensures Remaining(BeginStep(c, force, cut, now), max) == Remaining(c, max) + AllTries(cut, max)
  {
    TriesOfDue(c.retry, force, now, max);
    TriesAppend(Due(c.retry, force, now), cut, max);
  }

  /** Every send uses up one. */
  lemma LaunchRemaining(c: State, now: int, max: int)
    requires c.work != [] && !c.flying
    ensures Remaining(LaunchStep(c, now), max) + 1 == Remaining(c, max)
  {
    TriesHead(c.work, max);
    assert ToSend(LaunchStep(c, now)) == c.work[1..];
  }

  lemma TriesOfNewest(waiting: seq<Chunk>, d: Chunk, n: nat, max: int)
    requires n <= |waiting| + 1
    ensures AllTries((waiting + [d])[n..], max) <= AllTries(waiting, max) + Tries(d, max)
  {
    var all := waiting + [d];
    assert all == all[..n] + all[n..];
    TriesAppend(all[..n], all[n..], max);
    TriesAppend(waiting, [d], max);
    TriesOne(d, max);
  }

  lemma AnswerRemaining(c: State, reply: Reply, delay: int, now: int, cfg: Config)
    requires Aloft(c) && c.flying
    ensures Remaining(AnswerStep(c, reply, delay, now, cfg), cfg.policy.maxAttempts) <= Remaining(c, cfg.policy.maxAttempts)
  {
    var d := c.work[0].(nextAttemptAt := now + delay);
    assert ToSend(AnswerStep(c, reply, delay, now, cfg)) == c.work[1..] == ToSend(c);
    TriesOfNewest(c.retry, d, Excess(c.retry + [d]), cfg.policy.maxAttempts);
  }

  // ---------------------------------------------------------------------
  // Items
  // ---------------------------------------------------------------------

  /** Items that the queue holds. */
  function Held(c: State): nat { c.pending.Count() + |ItemsOf(c.retry)| + |ItemsOf(c.work)| }

  function DeliveredItems(c: State): nat { |ItemsOf(c.delivered)| }

  /** Items of chunks that were given up. */
  function LostItems(c: State): nat { |ItemsOf(c.rejected)| + |ItemsOf(c.exhausted)| + |ItemsOf(c.evicted)| }

  function Ledger(c: State): nat { Held(c) + DeliveredItems(c) + LostItems(c) }

  lemma {:induction false} ItemsOfDue(chunks: seq<Chunk>, force: bool, now: int)
    ensures |ItemsOf(chunks)| == |ItemsOf(Due(chunks, force, now))| + |ItemsOf(NotDue(chunks, force, now))|
  {
    if chunks != [] {
      var init, c := chunks[..|chunks|-1], chunks[|chunks|-1];
      ItemsOfDue(init, force, now);
      DeliveredPush(if IsDue(c, force, now) then Due(init, force, now) else NotDue(init, force, now), c);
    }
  }

  lemma BeginLedger(c: State, force: bool, cut: seq<Chunk>, now: int)
    requires c.work == [] && ItemsOf(cut) == c.pending.Flat()
    ensures Ledger(BeginStep(c, force, cut, now)) == Ledger(c)
  {
    ItemsOfDue(c.retry, force, now);
    ItemsOfAppend(Due(c.retry, force, now), cut);
  }

  lemma LaunchLedger(c: State, now: int)
    requires c.work != []
    ensures Ledger(LaunchStep(c, now)) == Ledger(c)
  {
    var t := LaunchStep(c, now);
    ItemsOfHead(c.work);
    ItemsOfHead(t.work);
    assert t.work[1..] == c.work[1..];
  }

  lemma ItemsOfNewest(waiting: seq<Chunk>, d: Chunk, evicted: seq<Chunk>, n: nat)
    requires n <= |waiting| + 1
    ensures |ItemsOf((waiting + [d])[n..])| + |ItemsOf(evicted + (waiting + [d])[..n])|
            == |ItemsOf(waiting)| + |d.items| + |ItemsOf(evicted)|
  {
    var all := waiting + [d];
    assert all == all[..n] + all[n..];
    ItemsOfAppend(all[..n], all[n..]);
    ItemsOfAppend(evicted, all[..n]);
    DeliveredPush(waiting, d);
  }

  lemma AnswerLedger(c: State, reply: Reply, delay: int, now: int, cfg: Config)
    requires Aloft(c)
    ensures Ledger(AnswerStep(c, reply, delay, now, cfg)) == Ledger(c)
  {
    var x, d := c.work[0], c.work[0].(nextAttemptAt := now + delay);
    ItemsOfHead(c.work);
    if reply.Ok? {
      DeliveredPush(c.delivered, x);
    } else if IsPermanent(reply) {
      DeliveredPush(c.rejected, x);
    } else if c.work[0].attempts >= cfg.policy.maxAttempts {
      DeliveredPush(c.exhausted, x);
    } else {
      ItemsOfNewest(c.retry, d, c.evicted, Excess(c.retry + [d]));
    }
  }

  // ---------------------------------------------------------------------
  // The queue
  // ---------------------------------------------------------------------

  /** From `a` to `b` nothing was sent before its time. */
  ghost predicate Unforced(a: State, b: State)
  {
    && |a.log| <= |b.log| && b.log[..|a.log|] == a.log
    && forall i | |a.log| <= i < |b.log| && b.log[i].Sent? :: !b.log[i].forced
  }

  lemma UnforcedOn(a: State, b: State, c: State)
    requires Unforced(a, b) && Unforced(b, c)
    ensures Unforced(a, c)
  {
    assert c.log[..|a.log|] == c.log[..|b.log|][..|a.log|];
    forall i | |a.log| <= i < |c.log| && c.log[i].Sent? ensures !c.log[i].forced {
      if i < |b.log| { assert c.log[i] == c.log[..|b.log|][i]; }
    }
  }

  /** No pass ignores retry times, and none is going to. */
  predicate Patient(q: Queue) { !q.forceNext && (q.draining ==> !q.core.forced) }

  /** A patient queue stays patient, and sends nothing before its time. */
  ghost predicate Patience(q: Queue, s: Queue) { Patient(q) ==> Patient(s) && Unforced(q.core, s.core) }

  lemma PatienceOn(a: Queue, b: Queue, c: Queue)
    requires Patience(a, b) && Patience(b, c)
    ensures Patience(a, c)
  {
    if Patient(a) { UnforcedOn(a.core, b.core, c.core); }
  }

  lemma LaunchUnforced(c: State, now: int)
    requires c.work != [] && !c.forced
    ensures Unforced(c, LaunchStep(c, now).(clock := now)) && !LaunchStep(c, now).forced
  {
  }

  lemma AnswerUnforced(c: State, reply: Reply, delay: int, now: int, cfg: Config)
    requires Aloft(c)
    ensures var t := AnswerStep(c, reply, delay, now, cfg).(clock := now); Unforced(c, t) && t.forced == c.forced
  {
  }

  lemma SendPatience(q: Queue, r: Reading, o: Options)
    requires q.draining
    ensures Patience(q, SendNext(q, r, o))
  {
    Triggers.SendIs(q, r, o);
    if q.core.work != [] && !q.core.forced { LaunchUnforced(q.core, r.now); }
  }

  lemma StartIsPatient(q: Queue, r: Reading, o: Options)
    ensures var s := StartPass(q, r, o);
            s.core.log == q.core.log && s.core.forced == q.forceNext && !s.forceNext && s.draining == q.draining
  {
  }

  lemma PassPatience(q: Queue, r: Reading, o: Options)
    requires q.draining && !q.forceNext
    ensures var s := SendNext(StartPass(q, r, o), r, o); Patient(s) && Unforced(q.core, s.core)
  {
    StartIsPatient(q, r, o);
    SendPatience(StartPass(q, r, o), r, o);
  }

  lemma FlushPatience(q: Queue, r: Reading, o: Options)
    requires Control(q) && !q.paused
    ensures Patience(q, Flush(q, false, None, r, o))
  {
    if !q.draining {
      FlushIs(q, false, None, r, o);
      PassPatience(Begun(q, false, None, r, o), r, o);
    }
  }

  lemma ContinuePatience(q: Queue, r: Reading, o: Options)
    requires q.draining
    ensures Patience(q, Continue(q, r, o))
  {
    if q.core.work == [] && q.rerun {
      if !q.forceNext { PassPatience(q, r, o); }
    } else {
      var t := q.(core := q.core.(clock := r.now));
      SendPatience(t, r, o);
    }
  }

  /** The counters of `s` are exact, and its books those of `q`. */
  ghost predicate Books(q: Queue, s: Queue)
  {
    CountedCore(s.core) && Exact(s) && Ledger(s.core) == Ledger(q.core) && s.paused == q.paused && s.stopped == q.stopped
  }

  ghost predicate Sound(q: Queue) { Control(q) && CountedCore(q.core) && Exact(q) }

  lemma CutCounted(pending: Groups<Item>, env: Envelope, limits: Limits)
    ensures AllCounted(Cut(pending, env, limits)) && ItemsOf(Cut(pending, env, limits)) == pending.Flat()
    ensures pending.Count() == 0 ==> Cut(pending, env, limits) == []
  {
    var cut := Cut(pending, env, limits);
    CutKeepsItems(pending, env, limits);
    forall c | c in cut ensures Counted(c) {
      var i :| 0 <= i < |cut| && cut[i] == c;
      CutChunk(pending, env, limits, i);
    }
  }

  lemma BeginBooks(c: State, force: bool, cut: seq<Chunk>, now: int, max: int)
    requires c.work == [] && !c.flying && CountedCore(c) && AllCounted(cut) && ItemsOf(cut) == c.pending.Flat()
    ensures var t := BeginStep(c, force, cut, now).(clock := now);
            && CountedCore(t) && Ledger(t) == Ledger(c) && Remaining(t, max) == Remaining(c, max) + AllTries(cut, max)
            && t.pending.Count() == 0 && !t.flying && t.work == Due(c.retry, force, now) + cut
  {
    BeginCounted(c, force, cut, now);
    BeginLedger(c, force, cut, now);
    BeginRemaining(c, force, cut, now, max);
    ClockBooks(BeginStep(c, force, cut, now), now, max);
  }

  lemma ClockBooks(c: State, now: int, max: int)
    ensures var t := c.(clock := now);
            Ledger(t) == Ledger(c) && Remaining(t, max) == Remaining(c, max) && (CountedCore(c) ==> CountedCore(t))
  {
    assert ToSend(c.(clock := now)) == ToSend(c);
  }

  lemma PassBooks(q: Queue, r: Reading, o: Options, max: int)
    requires Between(q) && q.core.work == [] && CountedCore(q.core) && Exact(q)
    ensures var s := StartPass(q, r, o);
            && Books(q, s) && Between(s) && !s.rerun && s.core.pending.Count() == 0
            && s.core.work == Due(q.core.retry, q.forceNext, r.now) + CutOf(q, q.drainBytes, r, o)
            && Remaining(s.core, max) == Remaining(q.core, max) + AllTries(CutOf(q, q.drainBytes, r, o), max)
  {
    CutCounted(q.core.pending, r.env, Limits(q.drainBytes, o.config.limits.maxItems));
    BeginBooks(q.core, q.forceNext, CutOf(q, q.drainBytes, r, o), r.now, max);
    PassExact(q, r, o);
  }

  lemma LaunchBooks(c: State, now: int, max: int)
    requires c.work != [] && !c.flying && CountedCore(c)
    ensures var t := LaunchStep(c, now).(clock := now);
            && CountedCore(t) && Ledger(t) == Ledger(c) && Remaining(t, max) + 1 == Remaining(c, max)
  {
    LaunchCounted(c, now);
    LaunchLedger(c, now);
    LaunchRemaining(c, now, max);
    ClockBooks(LaunchStep(c, now), now, max);
  }

  lemma SendBooks(q: Queue, r: Reading, o: Options, max: int)
    requires Between(q) && CountedCore(q.core) && Exact(q)
    ensures var s := SendNext(q, r, o);
            && Books(q, s) && s.rerun == q.rerun && s.core.pending == q.core.pending
            && s.draining == s.core.flying == (q.core.work != []) && |s.core.work| == |q.core.work|
            && Remaining(s.core, max) + (if q.core.work != [] then 1 else 0) == Remaining(q.core, max)
  {
    SendNextExact(q, r, o);
    if q.core.work != [] { LaunchBooks(q.core, r.now, max); } else { FinishBooks(q); }
  }

  lemma FinishBooks(q: Queue)
    ensures var s := Finish(q);
            s.core == q.core && s.rerun == q.rerun && s.paused == q.paused && s.stopped == q.stopped && !s.draining
  {
  }

  lemma DrainBooks(q: Queue, r: Reading, o: Options, max: int)
    requires Between(q) && q.core.work == [] && CountedCore(q.core) && Exact(q)
    ensures var s := SendNext(StartPass(q, r, o), r, o);
            && Books(q, s) && !s.rerun && s.core.pending.Count() == 0 && s.draining == s.core.flying
            && (q.core.pending.Count() == 0 ==> Remaining(s.core, max) <= Remaining(q.core, max))
            && (q.core.pending.Count() == 0 && Due(q.core.retry, q.forceNext, r.now) != [] ==>
                  Remaining(s.core, max) < Remaining(q.core, max))
  {
    PassBooks(q, r, o, max);
    SendBooks(StartPass(q, r, o), r, o, max);
    CutCounted(q.core.pending, r.env, Limits(q.drainBytes, o.config.limits.maxItems));
    assert AllTries([], max) == 0;
  }

  /** A flush that starts a drain. */
  lemma FlushBooks(q: Queue, r: Reading, o: Options, max: int)
    requires Sound(q) && !q.paused && !q.draining
    ensures var s := Flush(q, false, None, r, o);
            && Sound(s) && Books(q, s) && !s.rerun && s.core.pending.Count() == 0 && s.draining == s.core.flying
            && (q.core.pending.Count() == 0 ==> Remaining(s.core, max) <= Remaining(q.core, max))
            && (q.core.pending.Count() == 0 && Due(q.core.retry, false, r.now) != [] ==> Remaining(s.core, max) < Remaining(q.core, max))
  {
    FlushIs(q, false, None, r, o);
    var b := Begun(q, false, None, r, o);
    ClockBooks(q.core, r.now, max);
    BegunExact(q, false, None, r, o);
    DrainBooks(b, r, o, max);
    FlushControl(q, false, None, r, o);
    FlushExact(q, false, None, r, o);
  }

  /** A flush that joins a drain. */
  lemma JoinBooks(q: Queue, r: Reading, o: Options)
    requires Sound(q) && !q.paused && q.draining
    ensures var s := Flush(q, false, None, r, o); Sound(s) && Books(q, s) && s.rerun && s.draining
  {
    ClockBooks(q.core, r.now, 0);
    FlushControl(q, false, None, r, o);
    FlushExact(q, false, None, r, o);
  }

  lemma AnswerBooks(c: State, reply: Reply, delay: int, now: int, cfg: Config)
    requires Aloft(c) && CountedCore(c)
    ensures var t := AnswerStep(c, reply, delay, now, cfg).(clock := now); CountedCore(t) && Ledger(t) == Ledger(c)
  {
    AnswerCounted(c, reply, delay, now, cfg);
    AnswerLedger(c, reply, delay, now, cfg);
    ClockBooks(AnswerStep(c, reply, delay, now, cfg), now, 0);
  }

  lemma AnswerLeft(c: State, reply: Reply, delay: int, now: int, cfg: Config)
    requires Aloft(c) && c.flying
    ensures var t := AnswerStep(c, reply, delay, now, cfg).(clock := now);
            && t.pending == c.pending && !t.flying && t.work == c.work[1..]
            && Remaining(t, cfg.policy.maxAttempts) <= Remaining(c, cfg.policy.maxAttempts)
  {
    AnswerRemaining(c, reply, delay, now, cfg);
    ClockBooks(AnswerStep(c, reply, delay, now, cfg), now, cfg.policy.maxAttempts);
  }

  lemma AnsweredBooks(q: Queue, reply: Reply, delay: int, now: int, o: Options)
    requires Sound(q) && q.draining && q.core.flying
    ensures var s := Answered(q, reply, delay, now, o);
            && Sound(s) && Books(q, s) && s.rerun == q.rerun && s.core.pending == q.core.pending
            && Between(s) && |s.core.work| + 1 == |q.core.work|
            && Remaining(s.core, o.config.policy.maxAttempts) <= Remaining(q.core, o.config.policy.maxAttempts)
  {
    AnsweredControl(q, reply, delay, now, o);
    AnsweredExact(q, reply, delay, now, o);
    AnswerBooks(q.core, reply, delay, now, o.config);
    AnswerLeft(q.core, reply, delay, now, o.config);
  }

  lemma ContinueBooks(q: Queue, r: Reading, o: Options, max: int)
    requires Sound(q) && Between(q)
    ensures var s := Continue(q, r, o);
            && Sound(s) && Books(q, s) && s.draining == s.core.flying
            && (if q.core.work == [] && q.rerun then !s.rerun && s.core.pending.Count() == 0
                else s.rerun == q.rerun && s.core.pending == q.core.pending && |s.core.work| == |q.core.work|
                     && Remaining(s.core, max) <= Remaining(q.core, max) && (s.draining || !s.rerun))
  {
    ContinueControl(q, r, o);
    if q.core.work == [] && q.rerun {
      DrainBooks(q, r, o, max);
    } else {
      var t := q.(core := q.core.(clock := r.now));
      ClockBooks(q.core, r.now, max);
      ClockFigures(q.core, r.now);
      SendBooks(t, r, o, max);
    }
  }

  /** A queue that is not stopped by the loop's own tests: something waits that
      is due by the deadline. */
  predicate LoopsAgain(q: Queue, deadline: int) { q.core.retry != [] && Earliest(q.core.retry) <= deadline }

  /** What happens to a queue that nobody calls. */
  predicate OwnEvent(e: QueueSteps.Event) { e.Answers? || e.Continues? || e.Settles? || e.Fires? }

  ghost function Turn(q: Queue, turn: Option<Happening>, o: Options): Option<Queue>
  {
    match turn
    case None => Some(q)
    case Some(h) => if OwnEvent(h.event) && Possible(q, h.event, h.reading, o) then Some(Next(q, h.event, h.reading, o)) else None
  }

  /** The queue after n moments at which something may happen to it, or nothing. */
  ghost function After(q: Queue, turns: nat -> Option<Happening>, n: nat, o: Options): Option<Queue>
  {
    if n == 0 then Some(q)
    else
      match After(q, turns, n - 1, o)
      case None => None
      case Some(s) => Turn(s, turns(n - 1), o)
  }

  ghost predicate Lasting(q: Queue, turns: nat -> Option<Happening>, o: Options) { forall n: nat :: After(q, turns, n, o).Some? }

  /** The test at the end of a round, made at moment n, does not leave the loop. */
  ghost predicate GoesAround(q: Queue, turns: nat -> Option<Happening>, n: nat, deadline: int, o: Options)
  {
    After(q, turns, n, o).Some? && LoopsAgain(After(q, turns, n, o).value, deadline)
  }

  /** No test that the loop makes leaves it. A flush of a paused queue does
      nothing, so the tests are all that the loop does. */
  ghost predicate NeverEnds(q: Queue, turns: nat -> Option<Happening>, tests: nat -> bool, deadline: int, o: Options)
  {
    forall n: nat :: tests(n) ==> GoesAround(q, turns, n, deadline, o)
  }

  lemma PausedFlush(q: Queue, force: bool, maxBytes: Option<int>, r: Reading, o: Options)
    requires q.paused
    ensures Flush(q, force, maxBytes, r, o) == q && FlushPromise(q) == None
  {
  }

  lemma IdleStays(q: Queue, e: QueueSteps.Event, r: Reading, o: Options)
    requires q.paused && !q.draining && OwnEvent(e) && Possible(q, e, r, o)
    ensures var s := Next(q, e, r, o); s.paused && !s.draining && s.core == q.core
  {
    match e
    case Fires => PausedFlush(q.(timer := None, gap := q.gap || q.paused), false, None, r, o);
    case _ =>
  }

  lemma ContinuePaused(q: Queue, r: Reading, o: Options)
    ensures Continue(q, r, o).paused == q.paused
  {
    if q.core.work == [] && q.rerun {
      SendPaused(StartPass(q, r, o), r, o);
    } else {
      SendPaused(q.(core := q.core.(clock := r.now)), r, o);
    }
  }

  lemma SendPaused(q: Queue, r: Reading, o: Options)
    ensures SendNext(q, r, o).paused == q.paused
  {
    if q.core.work == [] { FinishBooks(q); }
  }

  lemma PausedStays(q: Queue, e: QueueSteps.Event, r: Reading, o: Options)
    requires q.paused && OwnEvent(e) && Possible(q, e, r, o)
    ensures Next(q, e, r, o).paused
  {
    match e
    case Continues => ContinuePaused(q, r, o);
    case Fires => PausedFlush(q.(timer := None, gap := q.gap || q.paused), false, None, r, o);
    case _ =>
  }

  lemma PausedTurn(q: Queue, turn: Option<Happening>, o: Options)
    requires q.paused && Turn(q, turn, o).Some?
    ensures var s := Turn(q, turn, o).value; s.paused && (!q.draining ==> !s.draining && s.core == q.core)
  {
    if turn.Some? {
      PausedStays(q, turn.value.event, turn.value.reading, o);
      if !q.draining { IdleStays(q, turn.value.event, turn.value.reading, o); }
    }
  }

  /** A paused queue stays paused, and once the drain is over nothing changes what
      waits. */
  lemma {:induction false} PausedAfter(q: Queue, turns: nat -> Option<Happening>, n: nat, o: Options)
    requires q.paused && After(q, turns, n, o).Some?
    ensures After(q, turns, n, o).value.paused
  {
    if n > 0 {
      PausedAfter(q, turns, n - 1, o);
      PausedTurn(After(q, turns, n - 1, o).value, turns(n - 1), o);
    }
  }

  lemma {:induction false} IdleAfter(q: Queue, turns: nat -> Option<Happening>, m: nat, n: nat, o: Options)
    requires q.paused && m <= n && Lasting(q, turns, o) && !After(q, turns, m, o).value.draining
    ensures var a, b := After(q, turns, m, o).value, After(q, turns, n, o).value; !b.draining && b.core == a.core
    decreases n
  {
    if m < n {
      IdleAfter(q, turns, m, n - 1, o);
      PausedAfter(q, turns, n - 1, o);
      assert After(q, turns, n, o).Some?;
      PausedTurn(After(q, turns, n - 1, o).value, turns(n - 1), o);
    }
  }

  /** The shutdown of a paused queue, whatever a drain that is still live does:
      if the drain is over at moment m, and the loop comes round after that, it
      never ends exactly if no earlier test leaves it and at that moment something
      waits that is due by the deadline. */
  lemma PausedShutdown(q: Queue, turns: nat -> Option<Happening>, tests: nat -> bool, m: nat, k: nat, deadline: int, o: Options)
    requires q.paused && Lasting(Stop(q), turns, o) && !After(Stop(q), turns, m, o).value.draining && m <= k && tests(k)
    ensures NeverEnds(Stop(q), turns, tests, deadline, o)
            <==> (forall n: nat | n < m :: tests(n) ==> GoesAround(Stop(q), turns, n, deadline, o))
                 && GoesAround(Stop(q), turns, m, deadline, o)
  {
    forall n: nat | m <= n ensures GoesAround(Stop(q), turns, n, deadline, o) <==> GoesAround(Stop(q), turns, m, deadline, o) {
      IdleAfter(Stop(q), turns, m, n, o);
    }
  }

  /** If no drain is live at the call, that is so exactly if at the call something
      waits that is due by the deadline. */
  lemma PausedIdleShutdown(q: Queue, turns: nat -> Option<Happening>, tests: nat -> bool, k: nat, deadline: int, o: Options)
    requires q.paused && !q.draining && Lasting(Stop(q), turns, o) && tests(k)
    ensures NeverEnds(Stop(q), turns, tests, deadline, o) <==> LoopsAgain(q, deadline)
  {
    assert After(Stop(q), turns, 0, o) == Some(Stop(q));
    PausedShutdown(q, turns, tests, 0, k, deadline, o);
  }

  /** With a live drain what waits at the call decides nothing: if another round
      was asked for that takes all that waits, one reply ends the loop. */
  lemma LiveDrainMayEndIt(q: Queue, jitter: real, r: Reading, deadline: int, o: Options)
    requires q.draining && Aloft(q.core) && |q.core.work| == 1 && q.rerun && forall c | c in q.core.retry :: IsDue(c, q.forceNext, r.now)
    ensures !LoopsAgain(Next(Next(q, Answers(Ok, jitter), r, o), Continues, r, o), deadline)
  {
    AllTaken(q.core.retry, q.forceNext, r.now);
    var s := Next(q, Answers(Ok, jitter), r, o);
    assert s.core.work == [] && s.core.retry == q.core.retry;
  }

  lemma {:induction false} AllTaken(chunks: seq<Chunk>, force: bool, now: int)
    requires forall c | c in chunks :: IsDue(c, force, now)
    ensures NotDue(chunks, force, now) == []
  {
    if chunks != [] {
      assert chunks == chunks[..|chunks|-1] + [chunks[|chunks|-1]];
      AllTaken(chunks[..|chunks|-1], force, now);
    }
  }

  lemma RunMore(run: seq<Happening>, h: Happening, o: Options)
    requires QueueSteps.Run(run, o).Some? && Possible(QueueSteps.Run(run, o).value, h.event, h.reading, o)
    ensures QueueSteps.Run(run + [h], o) == Some(Next(QueueSteps.Run(run, o).value, h.event, h.reading, o))
  {
    assert (run + [h])[..|run|] == run;
  }

  lemma RestoreWaits(q: Queue, items: Groups<Item>, c: Chunk, r: Reading, o: Options)
    requires |q.core.retry| == 0 && q.core.clock <= r.now && q.core.pending.Count() == 0 && Counted(c) && items.Count() == 0
    ensures Possible(q, Restores(items, [c]), r, o)
    ensures var s := Next(q, Restores(items, [c]), r, o); s.core.retry == [c] && s.paused == q.paused && s.draining == q.draining
  {
  }

  /** A queue that is paused and then gets a chunk back never ends. */
  lemma PausedForever(c: Chunk, r: Reading, deadline: int, o: Options) returns (run: seq<Happening>)
    requires Counted(c) && r.now >= 0 && c.nextAttemptAt <= deadline
    ensures QueueSteps.Run(run, o).Some? && QueueSteps.Run(run, o).value.paused && !QueueSteps.Run(run, o).value.draining
    ensures LoopsAgain(QueueSteps.Run(run, o).value, deadline)
    ensures forall turns, tests | Lasting(Stop(QueueSteps.Run(run, o).value), turns, o) ::
              NeverEnds(Stop(QueueSteps.Run(run, o).value), turns, tests, deadline, o)
  {
    var nothing: Groups<Item> := Groups([], [], []);
    RunMore([], Happening(Pauses, r), o);
    var q := Pause(EMPTY_QUEUE);
    assert QueueSteps.Run([] + [Happening(Pauses, r)], o) == Some(q);
    RestoreWaits(q, nothing, c, r, o);
    RunMore([] + [Happening(Pauses, r)], Happening(Restores(nothing, [c]), r), o);
    run := [] + [Happening(Pauses, r)] + [Happening(Restores(nothing, [c]), r)];
    var s := Next(q, Restores(nothing, [c]), r, o);
    forall turns, tests: nat -> bool | Lasting(Stop(s), turns, o) ensures NeverEnds(Stop(s), turns, tests, deadline, o) {
      forall n: nat | tests(n) ensures GoesAround(Stop(s), turns, n, deadline, o) {
        PausedIdleShutdown(s, turns, tests, n, deadline, o);
      }
    }
  }

  lemma SomethingDue(chunks: seq<Chunk>, now: int)
    requires chunks != [] && Earliest(chunks) <= now
    ensures Due(chunks, false, now) != []
  {
    DueMembers(chunks, false, now);
    var c :| c in chunks && c.nextAttemptAt == Earliest(chunks);
    assert c in Due(chunks, false, now);
  }

  /** From one moment at which the drain waits for the sender to a later one:
      a further round that was asked for empties what is pending, and without
      one nothing pending is touched and no send becomes possible. */
  ghost predicate Onward(q: Queue, s: Queue, max: int)
  {
    && Sound(s) && Books(q, s) && Patience(q, s) && (s.draining || !s.rerun) && (s.rerun ==> q.rerun)
    && (if q.rerun && !s.rerun then s.core.pending.Count() == 0
        else s.core.pending == q.core.pending && Remaining(s.core, max) <= Remaining(q.core, max))
  }

  lemma OnwardOn(a: Queue, b: Queue, c: Queue, max: int)
    requires Onward(a, b, max) && Onward(b, c, max)
    ensures Onward(a, c, max)
  {
    PatienceOn(a, b, c);
  }

  /** One reply, and what the drain does next. */
  function RoundOf(q: Queue, reply: Reply, delay: int, r: Reading, o: Options): Queue
    requires q.core.flying ==> Aloft(q.core)
  {
    Continue(if q.core.flying then Answered(q, reply, delay, r.now, o) else q, r, o)
  }

  /** A round brings the end of the drain nearer. */
  ghost predicate Nearer(q: Queue, s: Queue)
  {
    || (q.rerun && !s.rerun)
    || (q.rerun == s.rerun && |s.core.work| < |q.core.work|)
    || (q.rerun == s.rerun && |s.core.work| == |q.core.work| && (s.draining ==> s.core.flying && !q.core.flying))
  }

  lemma RoundOnward(q: Queue, reply: Reply, delay: int, r: Reading, o: Options)
    requires Sound(q) && q.draining
    ensures var s := RoundOf(q, reply, delay, r, o); Onward(q, s, o.config.policy.maxAttempts) && Nearer(q, s)
  {
    var t := if q.core.flying then Answered(q, reply, delay, r.now, o) else q;
    if q.core.flying { AnsweredBooks(q, reply, delay, r.now, o); }
    ContinueBooks(t, r, o, o.config.policy.maxAttempts);
    RoundPatience(q, reply, delay, r, o);
  }

  lemma AnsweredPatience(q: Queue, reply: Reply, delay: int, now: int, o: Options)
    requires q.draining && Aloft(q.core)
    ensures var s := Answered(q, reply, delay, now, o); Patience(q, s) && s.draining
  {
    AnswerUnforced(q.core, reply, delay, now, o.config);
  }

  lemma RoundPatience(q: Queue, reply: Reply, delay: int, r: Reading, o: Options)
    requires q.draining && (q.core.flying ==> Aloft(q.core))
    ensures Patience(q, RoundOf(q, reply, delay, r, o))
  {
    if q.core.flying {
      var t := Answered(q, reply, delay, r.now, o);
      AnsweredPatience(q, reply, delay, r.now, o);
      ContinuePatience(t, r, o);
      PatienceOn(q, t, Continue(t, r, o));
    } else {
      ContinuePatience(q, r, o);
    }
  }

  /** What waiting for a flush brings about. */
  ghost predicate Flushed(q: Queue, s: Queue, now: int, max: int)
  {
    && Sound(s) && Books(q, s) && Patience(q, s) && !s.draining && s.core.pending.Count() == 0
    && (!q.draining && q.core.pending.Count() == 0 ==>
          Remaining(s.core, max) + (if Due(q.core.retry, false, now) != [] then 1 else 0) <= Remaining(q.core, max))
  }

  lemma FlushedIs(q: Queue, t: Queue, s: Queue, r: Reading, o: Options, max: int)
    requires Sound(q) && !q.paused && t == Flush(q, false, None, r, o) && Onward(t, s, max) && !s.draining
    ensures Flushed(q, s, r.now, max)
  {
    if q.draining { JoinBooks(q, r, o); } else { FlushBooks(q, r, o, max); }
    FlushPatience(q, r, o);
    PatienceOn(q, t, s);
  }

  lemma FlushReady(q: Queue, r: Reading, o: Options, max: int)
    requires Sound(q) && !q.paused
    ensures var t := Flush(q, false, None, r, o); Sound(t) && (t.draining || !t.rerun)
  {
    if q.draining { JoinBooks(q, r, o); } else { FlushBooks(q, r, o, max); }
  }

  lemma SettledSound(q: Queue, p: nat)
    requires Sound(q) && !q.draining
    ensures var s := Settle(q, p);
            && Sound(s) && s.core == q.core && !s.draining && s.paused == q.paused && s.stopped == q.stopped
            && s.forceNext == q.forceNext
  {
  }

  lemma StoppedSound(q: Queue)
    requires Sound(q)
    ensures var s := Stop(q);
            && Sound(s) && s.core == q.core && s.draining == q.draining && s.paused == q.paused && s.stopped
            && s.forceNext == q.forceNext
  {
  }

  /** Every reachable queue is sound. */
  lemma ReachableIsSound(run: seq<Happening>, o: Options)
    requires QueueSteps.Run(run, o).Some?
    ensures Sound(QueueSteps.Run(run, o).value)
  {
    RunControl(run, o);
    QueueCounted(run, o);
    CountersAreExact(run, o);
  }

  /** Between two rounds of the shutdown loop, when the sleep is over. */
  ghost predicate Resting(q: Queue, s: Queue, again: bool, wake: int, deadline: int)
  {
    && Sound(s) && Books(q, s) && Patience(q, s) && !s.draining && !s.paused && s.core.pending.Count() == 0
    && again == LoopsAgain(s, deadline)
    && (again ==> Due(s.core.retry, false, wake) != [])
  }

  /** A round that starts when something is due uses up an attempt. */
  ghost predicate UsesUp(s: Queue, t: Queue, now: int, max: int)
  {
    !s.draining && s.core.pending.Count() == 0 && Due(s.core.retry, false, now) != [] ==> Remaining(t.core, max) < Remaining(s.core, max)
  }

  /** What a round of the shutdown loop leaves. */
  lemma RoundLeaves(q: Queue, s: Queue, t: Queue, now: int, again: bool, wake: int, deadline: int, max: int)
    requires Books(q, s) && Patience(q, s) && !s.paused && Flushed(s, t, now, max) && again == LoopsAgain(t, deadline)
    requires again ==> Earliest(t.core.retry) <= wake
    ensures Resting(q, t, again, wake, deadline) && UsesUp(s, t, now, max)
  {
    PatienceOn(q, s, t);
    if again { SomethingDue(t.core.retry, wake); }
  }

  datatype Sleep = Sleep(start: int, ms: nat)

  /** A sleep after which the loop goes on: it ends exactly when the first of the
      waiting chunks is due, which is no later than the deadline, or at once. */
  ghost predicate Rested(q: Queue, sleep: Sleep, deadline: int)
  {
    LoopsAgain(q, deadline) && sleep.start + sleep.ms == Max(sleep.start, Earliest(q.core.retry))
  }

  /** From one test of the loop to the next. */
  ghost predicate SleepsBetween(a: Queue, sleep: Sleep, b: Queue, deadline: int, max: int)
  {
    Rested(a, sleep, deadline) && Flushed(a, b, sleep.start + sleep.ms, max)
  }

  /** `tests` is the queue after each flush of the loop: after every one but the
      last the loop sleeps until something is due, and flushes then. */
  ghost predicate Slept(tests: seq<Queue>, sleeps: seq<Sleep>, deadline: int, max: int)
  {
    |tests| == |sleeps| + 1 && forall k | 0 <= k < |sleeps| :: SleepsBetween(tests[k], sleeps[k], tests[k + 1], deadline, max)
  }

  lemma SleptOn(tests: seq<Queue>, sleeps: seq<Sleep>, sleep: Sleep, s: Queue, deadline: int, max: int)
    requires Slept(tests, sleeps, deadline, max) && SleepsBetween(tests[|sleeps|], sleep, s, deadline, max)
    ensures Slept(tests + [s], sleeps + [sleep], deadline, max)
  {
    var ts, ss := tests + [s], sleeps + [sleep];
    forall k | 0 <= k < |ss| ensures SleepsBetween(ts[k], ss[k], ts[k + 1], deadline, max) {
      if k < |sleeps| {
        assert ts[k] == tests[k] && ts[k + 1] == tests[k + 1] && ss[k] == sleeps[k];
      } else {
        assert ts[k] == tests[|sleeps|] && ts[k + 1] == s && ss[k] == sleep;
      }
    }
  }

  /** The loop before a test: it was called with `q` at `start`, has flushed and
      slept, and goes on with `sleep` if it goes on. */
  ghost predicate Going(q: Queue, start: int, tests: seq<Queue>, sleeps: seq<Sleep>, again: bool, sleep: Sleep, deadline: int, max: int)
  {
    && Slept(tests, sleeps, deadline, max) && Flushed(q, tests[0], start, max)
    && Resting(q, tests[|sleeps|], again, sleep.start + sleep.ms, deadline)
    && (again ==> Rested(tests[|sleeps|], sleep, deadline))
  }

  lemma FirstTest(q: Queue, start: int, s: Queue, again: bool, sleep: Sleep, deadline: int, max: int)
    requires Flushed(q, s, start, max) && Resting(q, s, again, sleep.start + sleep.ms, deadline) && (again ==> Rested(s, sleep, deadline))
    ensures Going(q, start, [s], [], again, sleep, deadline, max)
  {
  }

  lemma StillResting(q: Queue, start: int, tests: seq<Queue>, sleeps: seq<Sleep>, sleep: Sleep, deadline: int, max: int)
    requires Going(q, start, tests, sleeps, true, sleep, deadline, max)
    ensures Resting(q, tests[|sleeps|], true, sleep.start + sleep.ms, deadline)
  {
  }

  lemma GoesOn(q: Queue, start: int, tests: seq<Queue>, sleeps: seq<Sleep>, sleep: Sleep, before: Queue, s: Queue, again: bool,
               clock: int, ms: nat, deadline: int, max: int)
    requires Going(q, start, tests, sleeps, true, sleep, deadline, max) && tests[|sleeps|] == before
    requires Flushed(before, s, sleep.start + sleep.ms, max)
    requires Resting(q, s, again, clock + ms, deadline) && (again ==> Rested(s, Sleep(clock, ms), deadline))
    ensures Going(q, start, tests + [s], sleeps + [sleep], again, Sleep(clock, ms), deadline, max)
  {
    var ts, ss := tests + [s], sleeps + [sleep];
    assert SleepsBetween(before, sleep, s, deadline, max);
    SleptOn(tests, sleeps, sleep, s, deadline, max);
    assert ts[0] == tests[0] && ts[|ss|] == s;
  }

  /** No sleep reaches past the deadline. */
  lemma SleepsInTime(tests: seq<Queue>, sleeps: seq<Sleep>, deadline: int, max: int, k: nat)
    requires Slept(tests, sleeps, deadline, max) && k < |sleeps| && sleeps[k].ms > 0
    ensures sleeps[k].start + sleeps[k].ms <= deadline
  {
    assert SleepsBetween(tests[k], sleeps[k], tests[k + 1], deadline, max);
  }

  /** What the shutdown loop leaves. */
  ghost predicate Left(q: Queue, s: Queue, deadline: int)
  {
    Sound(s) && Books(q, s) && Patience(q, s) && !s.draining && !LoopsAgain(s, deadline) && (s.paused || s.core.pending.Count() == 0)
  }

  lemma SelfPatience(q: Queue)
    ensures Patience(q, q)
  {
  }

  /** Every reachable idle queue is patient. */
  lemma IdleIsPatient(run: seq<Happening>, o: Options)
    requires QueueSteps.Run(run, o).Some? && !QueueSteps.Run(run, o).value.draining
    ensures Patient(QueueSteps.Run(run, o).value)
  {
    Triggers.RunForces(run, o);
  }

  /** What was held is delivered, given up or left. */
  lemma AccountedFor(q: Queue, s: Queue)
    requires Exact(q) && Books(q, s) && !s.draining && Control(s)
    ensures s.delivered - q.delivered == DeliveredItems(s.core) - DeliveredItems(q.core)
    ensures s.core.pending.Count() + |ItemsOf(s.core.retry)| == Held(s.core)
    ensures DeliveredItems(s.core) - DeliveredItems(q.core) + (LostItems(s.core) - LostItems(q.core)) + Held(s.core) == Held(q.core)
  {
    assert |s.core.work| == 0;
  }
}
