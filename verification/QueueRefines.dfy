/** The event-loop queue is a delivery machine: whatever happens to it, in any
    order, is a sequence of enabled steps of that machine. */
module QueueRefines {
  import opened Utf8
  import opened Json
  import opened Chunker
  import opened Packing
  import opened Delivery
  import opened KeyHistory
  import opened Overflow
  import opened QueueSteps

  // ---------------------------------------------------------------------
  // A cut with a fresh batch id is a cut in the sense of the machine
  // ---------------------------------------------------------------------

  lemma {:induction false} KindsCount(items: seq<Item>)
    ensures |OfKind(items, Errors)| + |OfKind(items, Traces)| + |OfKind(items, Events)| == |items|
  {
    if items != [] { KindsCount(items[..|items|-1]); }
  }

  lemma SameBatch(batchId: Text, i: nat, j: nat)
    requires IdempotencyKey(batchId, i) == IdempotencyKey(batchId, j)
    ensures i == j
  {
    var k, l := IdempotencyKey(batchId, i), IdempotencyKey(batchId, j);
    assert k[4 + |batchId|..] == Decimal(i) && l[4 + |batchId|..] == Decimal(j);
    DecimalRoundTrip(i);
    DecimalRoundTrip(j);
  }

  lemma CutChunk(pending: Groups<Item>, env: Envelope, limits: Limits, i: nat)
    requires i < |Cut(pending, env, limits)|
    ensures var c := Cut(pending, env, limits)[i];
            c.attempts == 0 && Counted(c) && c.key == IdempotencyKey(env.batchId, i)
  {
    KindsCount(Cut(pending, env, limits)[i].items);
  }

  lemma KeysOfCut(cut: seq<Chunk>, batchId: Text, used: set<Text>)
    requires forall i | 0 <= i < |cut| :: cut[i].key == IdempotencyKey(batchId, i)
    requires cut != [] ==> FreshBatch(used, batchId)
    ensures Distinct(Keys(cut)) && KeySet(cut) !! used
  {
    forall i, j | 0 <= i < j < |cut| ensures Keys(cut)[i] != Keys(cut)[j] {
      if Keys(cut)[i] == Keys(cut)[j] { SameBatch(batchId, i, j); }
    }
    forall c | c in cut ensures c.key !in used {
      var i :| 0 <= i < |cut| && cut[i] == c;
    }
  }

  lemma CutIsCut(pending: Groups<Item>, env: Envelope, limits: Limits, used: set<Text>)
    requires pending.Count() > 0 ==> FreshBatch(used, env.batchId)
    ensures IsCut(pending, Cut(pending, env, limits), used)
  {
    var cut := Cut(pending, env, limits);
    CutKeepsItems(pending, env, limits);
    assert pending.Count() == |pending.Flat()|;
    forall i | 0 <= i < |cut| ensures cut[i].attempts == 0 && Counted(cut[i]) && cut[i].key == IdempotencyKey(env.batchId, i) {
      CutChunk(pending, env, limits, i);
    }
    KeysOfCut(cut, env.batchId, used);
  }

  // ---------------------------------------------------------------------
  // The control state
  // ---------------------------------------------------------------------

  /** One drain loop at most is live, and it is the one whose promise `running`
      holds; work exists only while it runs. */
  ghost predicate Control(q: Queue)
  {
    && (!q.draining ==> q.core.work == [] && !q.core.flying)
    && (q.draining ==> q.promises > 0 && q.running == Some(q.promises - 1))
    && (q.running.Some? ==> q.running.value < q.promises)
    && (q.core.flying ==> Aloft(q.core))
  }

  /** Inside a stretch of the drain, between two chunks. */
  ghost predicate Between(q: Queue) { q.draining && !q.core.flying }

  lemma StartPassBetween(q: Queue, r: Reading, o: Options)
    requires Between(q) && q.core.work == []
    ensures var s := StartPass(q, r, o);
            && Between(s) && s.core.clock == r.now && !s.rerun && s.promises == q.promises && s.running == q.running
            && s.stopped == q.stopped && s.calls == q.calls
  {
  }

  lemma StartPassEnabled(q: Queue, r: Reading, o: Options)
    requires Between(q) && q.core.work == [] && Timely(q, r)
    ensures Enabled(q.core, Begin(q.forceNext, CutOf(q, q.drainBytes, r, o)), r.now, o.config)
  {
    CutIsCut(q.core.pending, r.env, Limits(q.drainBytes, o.config.limits.maxItems), q.core.keys);
  }

  lemma SendNextControl(q: Queue, r: Reading, o: Options)
    requires Between(q)
    ensures var s := SendNext(q, r, o);
            && (!s.draining ==> s.core.work == [] && !s.core.flying) && (s.core.flying ==> Aloft(s.core))
            && s.promises == q.promises && s.running == q.running
            && (q.core.work != [] ==> s.draining && (q.core.clock <= r.now ==> Enabled(q.core, Launch, r.now, o.config)))
            && (q.core.work == [] ==> s.core == q.core)
  {
  }

  lemma FlushControl(q: Queue, force: bool, maxBytes: Option<int>, r: Reading, o: Options)
    requires Control(q)
    ensures Control(Flush(q, force, maxBytes, r, o))
  {
    if !q.paused && !q.draining {
      FlushIs(q, force, maxBytes, r, o);
      DrainControl(Begun(q, force, maxBytes, r, o), r, o);
    }
  }

  /** A drain that starts or takes another round sends a chunk or is finished. */
  lemma DrainControl(q: Queue, r: Reading, o: Options)
    requires Between(q) && q.core.work == []
    ensures var s := SendNext(StartPass(q, r, o), r, o);
            && (!s.draining ==> s.core.work == [] && !s.core.flying) && (s.core.flying ==> Aloft(s.core))
            && s.promises == q.promises && s.running == q.running
  {
    StartPassBetween(q, r, o);
    SendNextControl(StartPass(q, r, o), r, o);
  }

  /** The queue when a new drain enters its loop. */
  function Begun(q: Queue, force: bool, maxBytes: Option<int>, r: Reading, o: Options): Queue
  {
    Entered(Flushing(q, force, r.now), maxBytes, o)
  }

  lemma FlushIs(q: Queue, force: bool, maxBytes: Option<int>, r: Reading, o: Options)
    requires Control(q) && !q.paused && !q.draining
    ensures Flush(q, force, maxBytes, r, o) ==
            SendNext(StartPass(Begun(q, force, maxBytes, r, o), r, o), r, o).(running := Some(q.promises))
  {
  }

  lemma ContinueControl(q: Queue, r: Reading, o: Options)
    requires Control(q) && Between(q)
    ensures Control(Continue(q, r, o))
  {
    if q.core.work == [] && q.rerun {
      RoundControl(q, r, o);
    } else {
      ClockControl(q, r.now);
      SendControl(q.(core := q.core.(clock := r.now)), r, o);
    }
  }

  lemma RoundControl(q: Queue, r: Reading, o: Options)
    requires Control(q) && Between(q) && q.core.work == []
    ensures Control(SendNext(StartPass(q, r, o), r, o))
  {
    DrainControl(q, r, o);
  }

  lemma ClockControl(q: Queue, now: int)
    requires Control(q) && Between(q)
    ensures var t := q.(core := q.core.(clock := now)); Control(t) && Between(t)
  {
  }

  lemma SendControl(q: Queue, r: Reading, o: Options)
    requires Control(q) && Between(q)
    ensures Control(SendNext(q, r, o))
  {
    SendNextControl(q, r, o);
  }

  lemma EnqueueControl(q: Queue, item: Item, r: Reading, o: Options)
    requires Control(q)
    ensures Control(Enqueue(q, item, r, o))
  {
    if MustFlush(Stored(q, item, r.now, o), o) { FlushControl(Stored(q, item, r.now, o), false, None, r, o); }
  }

  /** Events that may start a drain. */
  predicate MayFlush(e: QueueSteps.Event) { e.Enqueues? || e.Flushes? || e.Fires? || e.Resumes? }

  lemma NextControl(q: Queue, e: QueueSteps.Event, r: Reading, o: Options)
    requires Control(q) && Possible(q, e, r, o)
    ensures Control(Next(q, e, r, o))
  {
    if MayFlush(e) {
      FlushingControl(q, e, r, o);
    } else if e.Answers? || e.Continues? || e.Settles? {
      DrainingControl(q, e, r, o);
    } else {
      OtherControl(q, e, r, o);
    }
  }

  lemma FlushingControl(q: Queue, e: QueueSteps.Event, r: Reading, o: Options)
    requires Control(q) && Possible(q, e, r, o) && MayFlush(e)
    ensures Control(Next(q, e, r, o))
  {
    match e
    case Enqueues(item) => EnqueueControl(q, item, r, o);
    case Flushes(force, maxBytes) => FlushControl(q, force, maxBytes, r, o);
    case Fires => FlushControl(q.(timer := None, gap := q.gap || q.paused), false, None, r, o);
    case Resumes => FlushControl(q.(paused := false), true, None, r, o);
  }

  lemma DrainingControl(q: Queue, e: QueueSteps.Event, r: Reading, o: Options)
    requires Control(q) && Possible(q, e, r, o) && (e.Answers? || e.Continues? || e.Settles?)
    ensures Control(Next(q, e, r, o))
  {
    match e
    case Answers(reply, jitter) => AnsweredControl(q, reply, DelayOf(q.core.work[0], reply, jitter, o.config.policy), r.now, o);
    case Continues => ContinueControl(q, r, o);
    case Settles(p) =>
  }

  lemma AnsweredControl(q: Queue, reply: Reply, delay: int, now: int, o: Options)
    requires Control(q) && q.draining && q.core.flying
    ensures Control(Answered(q, reply, delay, now, o))
  {
  }

  lemma OtherControl(q: Queue, e: QueueSteps.Event, r: Reading, o: Options)
    requires Control(q) && (e.Starts? || e.Stops? || e.Pauses? || e.Takes? || e.Restores?)
    ensures Control(Next(q, e, r, o))
  {
    match e
    case Takes(_) =>
    case Restores(_, _) =>
    case Starts =>
    case Stops =>
    case Pauses =>
  }

  lemma {:induction false} RunControl(run: seq<Happening>, o: Options)
    requires QueueSteps.Run(run, o).Some?
    ensures Control(QueueSteps.Run(run, o).value)
  {
    if run != [] {
      RunControl(run[..|run|-1], o);
      var h := run[|run|-1];
      NextControl(QueueSteps.Run(run[..|run|-1], o).value, h.event, h.reading, o);
    }
  }

  lemma NewPromise(q: Queue, force: bool, maxBytes: Option<int>, r: Reading, o: Options)
    requires Control(q) && !q.paused && !q.draining
    ensures FlushPromise(q) == Some(q.promises) && Flush(q, force, maxBytes, r, o).promises == q.promises + 1
  {
    FlushIs(q, force, maxBytes, r, o);
    DrainControl(Begun(q, force, maxBytes, r, o), r, o);
  }

  lemma PromiseIsLive(q: Queue, force: bool, maxBytes: Option<int>, r: Reading, o: Options)
    requires Control(q)
    ensures var s := Flush(q, force, maxBytes, r, o);
            match FlushPromise(q)
            case None => q.paused && s == q
            case Some(p) =>
              if q.draining then p == q.promises - 1 && s.draining && s.promises == q.promises && s.core.work == q.core.work
              else p == q.promises && s.promises == q.promises + 1
  {
    if !q.paused && !q.draining { NewPromise(q, force, maxBytes, r, o); }
  }

  /** `flush` hands out the promise of a live drain or a new one, never one that
      is finished; and it starts a drain only when none is live. */
  lemma NoStalePromise(run: seq<Happening>, force: bool, maxBytes: Option<int>, r: Reading, o: Options)
    requires QueueSteps.Run(run, o).Some?
    ensures var q := QueueSteps.Run(run, o).value;
            var s := Flush(q, force, maxBytes, r, o);
            match FlushPromise(q)
            case None => q.paused && s == q
            case Some(p) =>
              if q.draining then p == q.promises - 1 && s.draining && s.promises == q.promises && s.core.work == q.core.work
              else p == q.promises && s.promises == q.promises + 1
  {
    RunControl(run, o);
    PromiseIsLive(QueueSteps.Run(run, o).value, force, maxBytes, r, o);
  }

  // ---------------------------------------------------------------------
  // Refinement
  // ---------------------------------------------------------------------

  /** The effect of machine steps; `None` if one of them is not enabled. */
  ghost function Exec(s: State, steps: seq<Timed>, cfg: Config): Option<State>
  {
    if steps == [] then Some(s)
    else
      match Exec(s, steps[..|steps|-1], cfg)
      case None => None
      case Some(t) =>
        var last := steps[|steps|-1];
        if Enabled(t, last.step, last.now, cfg) then Some(Apply(t, last.step, last.now, cfg)) else None
  }

  lemma ExecOne(s: State, step: Step, now: int, cfg: Config)
    requires Enabled(s, step, now, cfg)
    ensures Exec(s, [Timed(step, now)], cfg) == Some(Apply(s, step, now, cfg))
  {
    assert [Timed(step, now)][..0] == [];
    assert Exec(s, [], cfg) == Some(s);
  }

  lemma {:induction false} ExecAppend(s: State, a: seq<Timed>, b: seq<Timed>, cfg: Config)
    requires Exec(s, a, cfg).Some?
    ensures Exec(s, a + b, cfg) == Exec(Exec(s, a, cfg).value, b, cfg)
  {
    if b == [] {
      assert a + b == a;
    } else {
      LastOfBoth(a, b);
      ExecAppend(s, a, b[..|b|-1], cfg);
    }
  }

  lemma LastOfBoth(a: seq<Timed>, b: seq<Timed>)
    requires b != []
    ensures (a + b)[..|a + b|-1] == a + b[..|b|-1] && (a + b)[|a + b|-1] == b[|b|-1]
  {
  }

  lemma {:induction false} RunIsExec(trace: seq<Timed>, cfg: Config)
    ensures Delivery.Run(trace, cfg) == Exec(INIT, trace, cfg)
  {
    if trace != [] { RunIsExec(trace[..|trace|-1], cfg); }
  }

  lemma ExecThen(s: State, a: seq<Timed>, step: Step, now: int, cfg: Config) returns (all: seq<Timed>)
    requires Exec(s, a, cfg).Some? && Enabled(Exec(s, a, cfg).value, step, now, cfg)
    ensures all == a + [Timed(step, now)]
    ensures Exec(s, all, cfg) == Some(Apply(Exec(s, a, cfg).value, step, now, cfg))
  {
    all := a + [Timed(step, now)];
    ExecAppend(s, a, [Timed(step, now)], cfg);
    ExecOne(Exec(s, a, cfg).value, step, now, cfg);
  }

  /** Steps that take nothing in and restore nothing. */
  predicate Quiet(steps: seq<Timed>) { forall i | 0 <= i < |steps| :: !steps[i].step.Accept? && !steps[i].step.Restore? }

  lemma SendNextRefines(s: State, a: seq<Timed>, q: Queue, r: Reading, o: Options) returns (steps: seq<Timed>)
    requires Exec(s, a, o.config) == Some(q.core) && Between(q) && q.core.clock <= r.now
    ensures Exec(s, steps, o.config) == Some(SendNext(q, r, o).core)
    ensures a <= steps && Quiet(steps[|a|..])
  {
    SendNextControl(q, r, o);
    steps := a;
    if q.core.work != [] { steps := ExecThen(s, a, Launch, r.now, o.config); }
  }

  lemma PassRefines(s: State, a: seq<Timed>, q: Queue, r: Reading, o: Options) returns (steps: seq<Timed>)
    requires Exec(s, a, o.config) == Some(q.core) && Between(q) && q.core.work == [] && Timely(q, r)
    ensures Exec(s, steps, o.config) == Some(SendNext(StartPass(q, r, o), r, o).core)
    ensures a <= steps && Quiet(steps[|a|..])
  {
    StartPassBetween(q, r, o);
    StartPassEnabled(q, r, o);
    var step := Begin(q.forceNext, CutOf(q, q.drainBytes, r, o));
    var b := ExecThen(s, a, step, r.now, o.config);
    steps := SendNextRefines(s, b, StartPass(q, r, o), r, o);
    QuietMore(a, Timed(step, r.now), b, steps);
  }

  lemma QuietConcat(a: seq<Timed>, b: seq<Timed>, c: seq<Timed>)
    requires a <= b <= c && Quiet(b[|a|..]) && Quiet(c[|b|..])
    ensures a <= c && Quiet(c[|a|..])
  {
    assert c[|a|..] == b[|a|..] + c[|b|..];
  }

  lemma QuietMore(a: seq<Timed>, t: Timed, b: seq<Timed>, steps: seq<Timed>)
    requires b == a + [t] && b <= steps && Quiet(steps[|b|..]) && !t.step.Accept? && !t.step.Restore?
    ensures a <= steps && Quiet(steps[|a|..])
  {
    assert steps[|a|..] == [t] + steps[|b|..];
  }

  lemma TickRefines(s: State, a: seq<Timed>, now: int, cfg: Config) returns (steps: seq<Timed>)
    requires Exec(s, a, cfg).Some? && Exec(s, a, cfg).value.clock <= now
    ensures Exec(s, steps, cfg) == Some(Exec(s, a, cfg).value.(clock := now))
    ensures a <= steps && Quiet(steps[|a|..])
  {
    steps := ExecThen(s, a, Tick, now, cfg);
  }

  lemma FlushRefines(s: State, a: seq<Timed>, q: Queue, force: bool, maxBytes: Option<int>, r: Reading, o: Options)
    returns (steps: seq<Timed>)
    requires Exec(s, a, o.config) == Some(q.core) && Control(q) && Timely(q, r)
    ensures Exec(s, steps, o.config) == Some(Flush(q, force, maxBytes, r, o).core)
    ensures a <= steps && Quiet(steps[|a|..])
  {
    if q.paused {
      steps := a;
    } else if q.draining {
      steps := TickRefines(s, a, r.now, o.config);
    } else {
      FlushIs(q, force, maxBytes, r, o);
      var b := TickRefines(s, a, r.now, o.config);
      steps := PassRefines(s, b, Begun(q, force, maxBytes, r, o), r, o);
      QuietConcat(a, b, steps);
    }
  }

  lemma ContinueRefines(s: State, a: seq<Timed>, q: Queue, r: Reading, o: Options) returns (steps: seq<Timed>)
    requires Exec(s, a, o.config) == Some(q.core) && Control(q) && Timely(q, r) && Between(q)
    ensures Exec(s, steps, o.config) == Some(Continue(q, r, o).core)
    ensures a <= steps && Quiet(steps[|a|..])
  {
    if q.core.work == [] && q.rerun {
      steps := PassRefines(s, a, q, r, o);
    } else {
      var b := TickRefines(s, a, r.now, o.config);
      steps := SendNextRefines(s, b, q.(core := q.core.(clock := r.now)), r, o);
      QuietConcat(a, b, steps);
    }
  }

  lemma OneRefines(s: State, a: seq<Timed>, core: State, step: Step, now: int, cfg: Config) returns (steps: seq<Timed>)
    requires Exec(s, a, cfg) == Some(core) && Enabled(core, step, now, cfg)
    ensures Exec(s, steps, cfg) == Some(Apply(core, step, now, cfg))
    ensures steps == a + [Timed(step, now)]
  {
    steps := ExecThen(s, a, step, now, cfg);
  }

  lemma ThenFlush(s: State, b: seq<Timed>, t: Queue, must: bool, r: Reading, o: Options) returns (steps: seq<Timed>)
    requires Exec(s, b, o.config) == Some(t.core) && Control(t) && Timely(t, r)
    ensures Exec(s, steps, o.config) == Some((if must then Flush(t, false, None, r, o) else t).core)
    ensures b <= steps && Quiet(steps[|b|..])
  {
    steps := b;
    if must { steps := FlushRefines(s, b, t, false, None, r, o); }
  }

  lemma StoredReady(q: Queue, item: Item, r: Reading, o: Options)
    requires Control(q) && Possible(q, Enqueues(item), r, o)
    ensures var t := Stored(q, item, r.now, o);
            Control(t) && Timely(t, r) && t.core == Apply(q.core, Accept(item), r.now, o.config)
  {
  }

  lemma EnqueueRefines(s: State, a: seq<Timed>, q: Queue, item: Item, r: Reading, o: Options) returns (steps: seq<Timed>)
    requires Exec(s, a, o.config) == Some(q.core) && Control(q) && Possible(q, Enqueues(item), r, o)
    ensures Exec(s, steps, o.config) == Some(Enqueue(q, item, r, o).core)
    ensures |a| < |steps| && a <= steps && steps[|a|] == Timed(Accept(item), r.now) && Quiet(steps[|a| + 1..])
  {
    var b := OneRefines(s, a, q.core, Accept(item), r.now, o.config);
    StoredReady(q, item, r, o);
    var t := Stored(q, item, r.now, o);
    steps := ThenFlush(s, b, t, MustFlush(t, o), r, o);
    assert steps[|a|] == b[|a|];
  }

  /** The machine steps that an event consists of follow those before it. */
  lemma EventRefines(s: State, a: seq<Timed>, q: Queue, e: QueueSteps.Event, r: Reading, o: Options) returns (steps: seq<Timed>)
    requires Exec(s, a, o.config) == Some(q.core) && Control(q) && Possible(q, e, r, o)
    ensures Exec(s, steps, o.config) == Some(Next(q, e, r, o).core)
    ensures a <= steps
    ensures if e.Enqueues? then |a| < |steps| && steps[|a|] == Timed(Accept(e.item), r.now) && Quiet(steps[|a| + 1..])
            else if e.Restores? then steps == a + [Timed(Step.Restore(e.items, e.chunks), r.now)] else Quiet(steps[|a|..])
  {
    if MayFlush(e) {
      steps := FlushingRefines(s, a, q, e, r, o);
    } else {
      steps := OtherRefines(s, a, q, e, r, o);
    }
  }

  lemma FlushingRefines(s: State, a: seq<Timed>, q: Queue, e: QueueSteps.Event, r: Reading, o: Options) returns (steps: seq<Timed>)
    requires Exec(s, a, o.config) == Some(q.core) && Control(q) && Possible(q, e, r, o) && MayFlush(e)
    ensures Exec(s, steps, o.config) == Some(Next(q, e, r, o).core)
    ensures a <= steps
    ensures if e.Enqueues? then |a| < |steps| && steps[|a|] == Timed(Accept(e.item), r.now) && Quiet(steps[|a| + 1..])
            else Quiet(steps[|a|..])
  {
    match e {
      case Enqueues(item) => steps := EnqueueRefines(s, a, q, item, r, o);
      case Flushes(force, maxBytes) => steps := FlushRefines(s, a, q, force, maxBytes, r, o);
      case Fires => steps := FlushRefines(s, a, q.(timer := None, gap := q.gap || q.paused), false, None, r, o);
      case Resumes => steps := FlushRefines(s, a, q.(paused := false), true, None, r, o);
    }
  }

  lemma OtherRefines(s: State, a: seq<Timed>, q: Queue, e: QueueSteps.Event, r: Reading, o: Options) returns (steps: seq<Timed>)
    requires Exec(s, a, o.config) == Some(q.core) && Control(q) && Possible(q, e, r, o) && !MayFlush(e)
    ensures Exec(s, steps, o.config) == Some(Next(q, e, r, o).core)
    ensures a <= steps
    ensures if e.Restores? then steps == a + [Timed(Step.Restore(e.items, e.chunks), r.now)] else Quiet(steps[|a|..])
  {
    if e.Continues? {
      steps := ContinueRefines(s, a, q, r, o);
    } else if e.Answers? || e.Takes? || e.Restores? {
      steps := SingleRefines(s, a, q, e, r, o);
    } else {
      steps := a;
      OtherCore(q, e, r, o);
    }
  }

  lemma OtherCore(q: Queue, e: QueueSteps.Event, r: Reading, o: Options)
    requires e.Settles? || e.Starts? || e.Stops? || e.Pauses?
    ensures Next(q, e, r, o).core == q.core
  {
  }

  lemma SingleRefines(s: State, a: seq<Timed>, q: Queue, e: QueueSteps.Event, r: Reading, o: Options) returns (steps: seq<Timed>)
    requires Exec(s, a, o.config) == Some(q.core) && Possible(q, e, r, o) && (e.Answers? || e.Takes? || e.Restores?)
    ensures Exec(s, steps, o.config) == Some(Next(q, e, r, o).core)
    ensures a <= steps
    ensures if e.Restores? then steps == a + [Timed(Step.Restore(e.items, e.chunks), r.now)] else Quiet(steps[|a|..])
  {
    match e {
      case Answers(reply, jitter) => steps := OneRefines(s, a, q.core, Answer(reply, jitter), r.now, o.config);
      case Takes(limit) =>
        CutIsCut(q.core.pending, r.env, Limits(limit, o.config.limits.maxItems), q.core.keys);
        steps := OneRefines(s, a, q.core, Step.TakeAll(CutOf(q, limit, r, o)), r.now, o.config);
      case Restores(items, chunks) => steps := OneRefines(s, a, q.core, Step.Restore(items, chunks), r.now, o.config);
    }
  }

  predicate NothingRestored(run: seq<Happening>) { forall i | 0 <= i < |run| :: !run[i].event.Restores? }

  /** Every captured item carries its place in the capture order. */
  ghost predicate InOrderOfCapture(run: seq<Happening>, o: Options)
  {
    forall i | 0 <= i < |run| && run[i].event.Enqueues? && QueueSteps.Run(run[..i], o).Some? ::
      run[i].event.item.id == |QueueSteps.Run(run[..i], o).value.core.accepted|
  }

  /** A step of a longer trace is one of the first part, or one of the event's. */
  lemma Position(before: seq<Timed>, trace: seq<Timed>, e: QueueSteps.Event, r: Reading, i: nat)
    requires before <= trace && i < |trace|
    requires if e.Enqueues? then |before| < |trace| && trace[|before|] == Timed(Accept(e.item), r.now) && Quiet(trace[|before| + 1..])
             else if e.Restores? then trace == before + [Timed(Step.Restore(e.items, e.chunks), r.now)] else Quiet(trace[|before|..])
    ensures i < |before| ==> trace[i] == before[i] && trace[..i] == before[..i]
    ensures i >= |before| && trace[i].step.Accept? ==> i == |before| && e.Enqueues? && trace[i].step.item == e.item && trace[..i] == before
    ensures i >= |before| && trace[i].step.Restore? ==> e.Restores?
  {
    if i < |before| {
      assert trace[..|before|] == before;
    } else if e.Enqueues? {
      if i > |before| { assert trace[|before| + 1..][i - |before| - 1] == trace[i]; }
    } else if !e.Restores? {
      assert trace[|before|..][i - |before|] == trace[i];
    }
  }

  /** Every run of the queue is a run of the delivery machine, so conservation,
      the per-key history, the retry cap and the order of first sends hold for it;
      a run without restore is one without restore, and captures are numbered in
      the one if they are in the other. */
  lemma {:induction false} RunRefines(run: seq<Happening>, o: Options) returns (trace: seq<Timed>)
    requires QueueSteps.Run(run, o).Some?
    ensures Delivery.Run(trace, o.config) == Some(QueueSteps.Run(run, o).value.core)
    ensures NothingRestored(run) ==> NoRestore(trace)
    ensures InOrderOfCapture(run, o) ==> Numbered(trace, o.config)
  {
    if run == [] {
      trace := [];
    } else {
      var init, h := run[..|run|-1], run[|run|-1];
      var before := RunRefines(init, o);
      RunControl(init, o);
      RunIsExec(before, o.config);
      trace := EventRefines(INIT, before, QueueSteps.Run(init, o).value, h.event, h.reading, o);
      RunIsExec(trace, o.config);
      Prefixes(run);
      if NothingRestored(run) { NoRestoreGoesOn(before, trace, h.event, h.reading); }
      if InOrderOfCapture(run, o) { NumberedGoesOn(run, before, trace, o); }
    }
  }

  lemma Prefixes(run: seq<Happening>)
    requires run != []
    ensures var init := run[..|run|-1]; forall i | 0 <= i < |init| :: init[i] == run[i] && init[..i] == run[..i]
  {
    var init := run[..|run|-1];
    forall i | 0 <= i < |init| ensures init[i] == run[i] && init[..i] == run[..i] { }
  }

  /** `trace` goes on from `before` with the steps of an event. */
  predicate GoesOn(before: seq<Timed>, trace: seq<Timed>, e: QueueSteps.Event, r: Reading)
  {
    && before <= trace
    && if e.Enqueues? then |before| < |trace| && trace[|before|] == Timed(Accept(e.item), r.now) && Quiet(trace[|before| + 1..])
       else if e.Restores? then trace == before + [Timed(Step.Restore(e.items, e.chunks), r.now)] else Quiet(trace[|before|..])
  }

  lemma NoRestoreGoesOn(before: seq<Timed>, trace: seq<Timed>, e: QueueSteps.Event, r: Reading)
    requires GoesOn(before, trace, e, r) && NoRestore(before) && !e.Restores?
    ensures NoRestore(trace)
  {
    forall i | 0 <= i < |trace| ensures !trace[i].step.Restore? {
      Position(before, trace, e, r, i);
    }
  }

  lemma NumberedGoesOn(run: seq<Happening>, before: seq<Timed>, trace: seq<Timed>, o: Options)
    requires run != [] && InOrderOfCapture(run, o) && Numbered(before, o.config)
    requires GoesOn(before, trace, run[|run|-1].event, run[|run|-1].reading)
    requires QueueSteps.Run(run[..|run|-1], o).Some?
    requires Delivery.Run(before, o.config) == Some(QueueSteps.Run(run[..|run|-1], o).value.core)
    ensures Numbered(trace, o.config)
  {
    var h := run[|run|-1];
    forall i | 0 <= i < |trace| && trace[i].step.Accept? && Delivery.Run(trace[..i], o.config).Some?
      ensures trace[i].step.item.id == |Delivery.Run(trace[..i], o.config).value.accepted|
    {
      Position(before, trace, h.event, h.reading, i);
    }
  }
}
