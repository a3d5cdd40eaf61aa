/** The threaded versions of the queue: any number of threads call `enqueue` and
    `flush`; a data lock guards the lists for short stretches, a drain lock lets
    one thread at a time collect and send. Each locked stretch is one step, with
    the clock reading that goes with it; threads interleave in any order. */
module Threads {
  import opened Json
  import opened Chunker
  import opened Packing
  import opened History
  import opened Delivery
  import opened KeyHistory
  import opened QueueSteps
  import opened QueueRefines
  import opened FlushJoining

  /** Where a thread is in `flush`; `call` numbers calls. */
  datatype Thread =
    | Idle
    | Queued(force: bool, call: nat)                     // for the drain lock
    | Holding(force: bool, call: nat)                     // has it, nothing collected yet
    | Working(call: nat, force: bool, todo: seq<Chunk>)   // between two chunks
    | Sending(call: nat, force: bool, todo: seq<Chunk>)   // the first of `todo` is in flight

  /** A call of `flush`: how many items had been taken in before. */
  datatype FlushCall = FlushCall(mark: nat, returned: bool)

  /** `memory` is what threads share; what is to be sent is local to the thread
      that collected it. */
  datatype System = System(memory: State, threads: map<nat, Thread>, drainLock: Option<nat>, calls: seq<FlushCall>)

  const START: System := System(INIT, map[], None, [])

  datatype Act =
    | Enqueue(item: Item)
    | Call(force: bool)
    | Acquire
    | Collect(cut: seq<Chunk>)
    | Send
    | Reply(reply: Delivery.Reply, jitter: real)
    | Return

  function Pc(y: System, i: nat): Thread { if i in y.threads then y.threads[i] else Idle }

  function Goes(y: System, i: nat, pc: Thread): System { y.(threads := y.threads[i := pc]) }

  ghost predicate May(y: System, i: nat, act: Act, now: int, cfg: Config)
  {
    && y.memory.clock <= now
    && match act
       case Enqueue(_) => Pc(y, i).Idle?
       case Call(_) => Pc(y, i).Idle?
       case Acquire => Pc(y, i).Queued? && y.drainLock == None
       case Collect(cut) => Pc(y, i).Holding? && IsCut(y.memory.pending, cut, y.memory.keys)
       case Send => Pc(y, i).Working? && Pc(y, i).todo != []
       case Reply(_, jitter) =>
         Pc(y, i).Sending? && Pc(y, i).todo != [] && Pc(y, i).todo[0].attempts >= 1 && 0.0 <= jitter < 1.0
       case Return => Pc(y, i).Working? && Pc(y, i).todo == [] && Pc(y, i).call < |y.calls|
  }

  /** A step of a thread, on the shared lists and its own. */
  function Take(y: System, i: nat, act: Act, now: int, cfg: Config): System
    requires act.Collect? ==> Pc(y, i).Holding?
    requires act.Acquire? ==> Pc(y, i).Queued?
    requires act.Send? ==> Pc(y, i).Working? && Pc(y, i).todo != []
    requires act.Reply? ==> Pc(y, i).Sending? && Pc(y, i).todo != [] && Pc(y, i).todo[0].attempts >= 1
    requires act.Return? ==> Pc(y, i).Working? && Pc(y, i).call < |y.calls|
  {
    var pc, m := Pc(y, i), y.memory.(clock := now);
    match act
    case Enqueue(item) => y.(memory := AcceptStep(m, item, cfg))
    case Call(force) =>
      Goes(y, i, Queued(force, |y.calls|)).(memory := m, calls := y.calls + [FlushCall(|m.accepted|, false)])
    case Acquire => Goes(y, i, Holding(pc.force, pc.call)).(memory := m, drainLock := Some(i))
    case Collect(cut) =>
      var todo := Due(m.retry, pc.force, now) + cut;
      Goes(y, i, Working(pc.call, pc.force, todo))
        .(memory := m.(pending := EMPTY, retry := NotDue(m.retry, pc.force, now), keys := m.keys + KeySet(cut), forced := pc.force))
    case Send =>
      var c := pc.todo[0].(attempts := pc.todo[0].attempts + 1);
      Goes(y, i, Sending(pc.call, pc.force, [c] + pc.todo[1..]))
        .(memory := m.(attempted := m.attempted + c.items,
                       firsts := if c.attempts == 1 then m.firsts + c.items else m.firsts,
                       log := m.log + [Sent(c.key, c.body, c.attempts, now, pc.force)]))
    case Reply(reply, jitter) =>
      var delay := DelayOf(pc.todo[0], reply, jitter, cfg.policy);
      Goes(y, i, Working(pc.call, pc.force, pc.todo[1..])).(memory := Concluded(m, pc.todo[0], reply, delay, now, cfg))
    case Return =>
      Goes(y, i, Idle).(memory := m, drainLock := None, calls := y.calls[pc.call := y.calls[pc.call].(returned := true)])
  }

  /** What the sending thread does to the shared lists once it has its reply. */
  function Concluded(m: State, c: Chunk, reply: Delivery.Reply, delay: int, now: int, cfg: Config): State
  {
    if reply.Ok? then m.(delivered := m.delivered + [c], log := m.log + [Accepted(c.key)])
    else if IsPermanent(reply) then m.(rejected := m.rejected + [c], log := m.log + [Refused(c.key)])
    else if c.attempts >= cfg.policy.maxAttempts then m.(exhausted := m.exhausted + [c], log := m.log + [GaveUp(c.key)])
    else
      var retry := m.retry + [c.(nextAttemptAt := now + delay)];
      m.(retry := retry[Excess(retry)..], evicted := m.evicted + retry[..Excess(retry)],
         log := m.log + [Waits(c.key, c.attempts, now, delay, reply.retryAfter)])
  }

  datatype Turn = Turn(thread: nat, act: Act, now: int)

  ghost function Run(turns: seq<Turn>, cfg: Config): Option<System>
  {
    if turns == [] then Some(START)
    else
      match Run(turns[..|turns|-1], cfg)
      case None => None
      case Some(y) =>
        var t := turns[|turns|-1];
        if May(y, t.thread, t.act, t.now, cfg) then Some(Take(y, t.thread, t.act, t.now, cfg)) else None
  }

  // ---------------------------------------------------------------------
  // One thread drains
  // ---------------------------------------------------------------------

  predicate Draining(pc: Thread) { pc.Holding? || pc.Working? || pc.Sending? }

  /** The thread in the drain is the one that has the drain lock. */
  ghost predicate Exclusive(y: System)
  {
    && (forall i: nat :: Draining(Pc(y, i)) <==> y.drainLock == Some(i))
    && (forall i: nat | Pc(y, i).Sending? :: Pc(y, i).todo != [] && Pc(y, i).todo[0].attempts >= 1)
    && y.memory.work == [] && !y.memory.flying
    && (forall i: nat | Pc(y, i).Working? || Pc(y, i).Sending? :: Pc(y, i).force == y.memory.forced)
    && (forall i: nat | !Pc(y, i).Idle? :: Pc(y, i).call < |y.calls|)
  }

  lemma TakeExclusive(y: System, i: nat, act: Act, now: int, cfg: Config)
    requires Exclusive(y) && May(y, i, act, now, cfg)
    ensures Exclusive(Take(y, i, act, now, cfg))
  {
    var z := Take(y, i, act, now, cfg);
    forall j: nat ensures Pc(z, j) == if j == i then Pc(z, i) else Pc(y, j) { }
  }

  /** Only one chunk is in flight, whatever the interleaving. */
  lemma OneInFlight(turns: seq<Turn>, cfg: Config, i: nat, j: nat)
    requires Run(turns, cfg).Some?
    requires Pc(Run(turns, cfg).value, i).Sending? && Pc(Run(turns, cfg).value, j).Sending?
    ensures i == j
  {
    RunExclusive(turns, cfg);
    var y := Run(turns, cfg).value;
    assert Draining(Pc(y, i)) && Draining(Pc(y, j));
  }

  lemma {:induction false} RunExclusive(turns: seq<Turn>, cfg: Config)
    requires Run(turns, cfg).Some?
    ensures Exclusive(Run(turns, cfg).value)
  {
    if turns != [] {
      var init, t := turns[..|turns|-1], turns[|turns|-1];
      RunExclusive(init, cfg);
      TakeExclusive(Run(init, cfg).value, t.thread, t.act, t.now, cfg);
    }
  }

  // ---------------------------------------------------------------------
  // Refinement
  // ---------------------------------------------------------------------

  /** The sequential machine that an interleaving is at: the work of the pass is
      what the thread in the drain has left. */
  function Abs(y: System): State
  {
    match y.drainLock
    case None => y.memory
    case Some(i) =>
      match Pc(y, i)
      case Working(_, _, todo) => y.memory.(work := todo)
      case Sending(_, _, todo) => y.memory.(work := todo, flying := true)
      case _ => y.memory
  }

  /** The machine step that a thread's step is. */
  function StepOf(y: System, i: nat, act: Act): Step
    requires act.Collect? ==> Pc(y, i).Holding?
  {
    match act
    case Enqueue(item) => Accept(item)
    case Collect(cut) => Begin(Pc(y, i).force, cut)
    case Send => Launch
    case Reply(reply, jitter) => Answer(reply, jitter)
    case _ => Tick
  }

  lemma TakeRefines(y: System, i: nat, act: Act, now: int, cfg: Config)
    requires Exclusive(y) && May(y, i, act, now, cfg)
    ensures Enabled(Abs(y), StepOf(y, i, act), now, cfg)
    ensures Abs(Take(y, i, act, now, cfg)) == Apply(Abs(y), StepOf(y, i, act), now, cfg)
  {
    match act
    case Collect(cut) => CollectRefines(y, i, cut, now, cfg);
    case Send => SendRefines(y, i, now, cfg);
    case Reply(reply, jitter) => ReplyRefines(y, i, reply, jitter, now, cfg);
    case _ => QuietRefines(y, i, act, now, cfg);
  }

  lemma CollectRefines(y: System, i: nat, cut: seq<Chunk>, now: int, cfg: Config)
    requires Exclusive(y) && May(y, i, Collect(cut), now, cfg)
    ensures Enabled(Abs(y), StepOf(y, i, Collect(cut)), now, cfg)
    ensures Abs(Take(y, i, Collect(cut), now, cfg)) == Apply(Abs(y), StepOf(y, i, Collect(cut)), now, cfg)
  {
    assert Draining(Pc(y, i));
  }

  lemma SendRefines(y: System, i: nat, now: int, cfg: Config)
    requires Exclusive(y) && May(y, i, Send, now, cfg)
    ensures Enabled(Abs(y), Launch, now, cfg) && Abs(Take(y, i, Send, now, cfg)) == Apply(Abs(y), Launch, now, cfg)
  {
    assert Draining(Pc(y, i));
  }

  lemma ReplyRefines(y: System, i: nat, reply: Delivery.Reply, jitter: real, now: int, cfg: Config)
    requires Exclusive(y) && May(y, i, Reply(reply, jitter), now, cfg)
    ensures Enabled(Abs(y), Answer(reply, jitter), now, cfg)
    ensures Abs(Take(y, i, Reply(reply, jitter), now, cfg)) == Apply(Abs(y), Answer(reply, jitter), now, cfg)
  {
    assert Draining(Pc(y, i));
  }

  /** Steps outside the drain, and into and out of it. */
  lemma QuietRefines(y: System, i: nat, act: Act, now: int, cfg: Config)
    requires Exclusive(y) && May(y, i, act, now, cfg) && (act.Enqueue? || act.Call? || act.Acquire? || act.Return?)
    ensures Enabled(Abs(y), StepOf(y, i, act), now, cfg)
    ensures Abs(Take(y, i, act, now, cfg)) == Apply(Abs(y), StepOf(y, i, act), now, cfg)
  {
    match act
    case Enqueue(_) =>
    case Call(_) => OtherThreads(y, i, act, now, cfg);
    case Acquire =>
    case Return => assert Draining(Pc(y, i));
  }

  lemma OtherThreads(y: System, i: nat, act: Act, now: int, cfg: Config)
    requires Exclusive(y) && May(y, i, act, now, cfg) && act.Call?
    ensures Abs(Take(y, i, act, now, cfg)) == Abs(y).(clock := now)
  {
    assert !Draining(Pc(y, i));
  }

  /** Every interleaving is a run of the sequential machine without a restore, so
      everything proved about such runs - conservation, the history of each key,
      the bound on waiting chunks, the order of first sends - holds for threads. */
  lemma {:induction false} ThreadsRefine(turns: seq<Turn>, cfg: Config) returns (trace: seq<Timed>)
    requires Run(turns, cfg).Some?
    ensures Delivery.Run(trace, cfg) == Some(Abs(Run(turns, cfg).value)) && NoRestore(trace)
    ensures |trace| == |turns|
  {
    if turns == [] {
      trace := [];
    } else {
      var init, t := turns[..|turns|-1], turns[|turns|-1];
      var before := ThreadsRefine(init, cfg);
      RunExclusive(init, cfg);
      var y := Run(init, cfg).value;
      TakeRefines(y, t.thread, t.act, t.now, cfg);
      trace := before + [Timed(StepOf(y, t.thread, t.act), t.now)];
      assert trace[..|trace|-1] == before;
    }
  }

  /** At most 50 chunks wait. */
  lemma FewWait(turns: seq<Turn>, cfg: Config)
    requires Run(turns, cfg).Some?
    ensures |Run(turns, cfg).value.memory.retry| <= MAX_RETRY_CHUNKS
  {
    var trace := ThreadsRefine(turns, cfg);
    RunKeeps(trace, cfg);
  }

  // ---------------------------------------------------------------------
  // What a flush has done when it returns
  // ---------------------------------------------------------------------

  /** Sent at least once, or dropped by the bound. */
  predicate Handled(c: State, x: Item) { x in c.attempted || x in c.overflowed }

  ghost predicate Reached(c: State, x: Item) { Handled(c, x) || x in ItemsOf(ToSend(c)) }

  /** Everything that was taken in is pending, or reached. */
  ghost predicate Tracked(c: State) { forall x | x in c.accepted :: x in c.pending.Flat() || Reached(c, x) }

  /** What a step keeps of what was reached. */
  ghost predicate KeepsReached(c: State, d: State)
  {
    && c.accepted <= d.accepted && c.attempted <= d.attempted && c.overflowed <= d.overflowed
    && forall x | Reached(c, x) :: Reached(d, x)
  }

  lemma AcceptTracked(c: State, item: Item, now: int, cfg: Config)
    requires Tracked(c)
    ensures var d := AcceptStep(c, item, cfg).(clock := now); Tracked(d) && KeepsReached(c, d)
  {
    var d, g := AcceptStep(c, item, cfg).(clock := now), Push(c.pending, item);
    assert ToSend(d) == ToSend(c);
    forall x | x in d.accepted ensures x in d.pending.Flat() || Reached(d, x) {
      if x in g.Flat() { KeptOrDropped(g, cfg.maxQueueItems, x); } else { PushedStays(c.pending, item, x); }
    }
  }

  lemma PushedStays(g: Groups<Item>, item: Item, x: Item)
    requires x !in Push(g, item).Flat()
    ensures x !in g.Flat() && x != item
  {
  }

  lemma BeginTracked(c: State, force: bool, cut: seq<Chunk>, now: int)
    requires Tracked(c) && c.work == [] && !c.flying && ItemsOf(cut) == c.pending.Flat()
    ensures var d := BeginStep(c, force, cut, now).(clock := now);
            && Tracked(d) && KeepsReached(c, d) && forall x | x in c.accepted :: Reached(d, x)
  {
    BeginServes(c, force, cut, now);
    assert ToSend(c) == [] && ItemsOf([]) == [];
  }

  lemma LaunchTracked(c: State, now: int)
    requires Tracked(c) && c.work != [] && !c.flying
    ensures var d := LaunchStep(c, now).(clock := now); Tracked(d) && KeepsReached(c, d)
  {
    var d := LaunchStep(c, now).(clock := now);
    ItemsOfHead(c.work);
    assert ToSend(c) == c.work && ToSend(d) == c.work[1..];
  }

  lemma AnswerTracked(c: State, reply: Delivery.Reply, delay: int, now: int, cfg: Config)
    requires Tracked(c) && Aloft(c) && c.flying
    ensures var d := AnswerStep(c, reply, delay, now, cfg).(clock := now); Tracked(d) && KeepsReached(c, d)
  {
    assert ToSend(AnswerStep(c, reply, delay, now, cfg)) == c.work[1..] == ToSend(c);
  }

  lemma StepTracked(c: State, step: Step, now: int, cfg: Config)
    requires Tracked(c) && Enabled(c, step, now, cfg) && !step.Restore? && !step.TakeAll?
    ensures var d := Apply(c, step, now, cfg); Tracked(d) && KeepsReached(c, d)
    ensures step.Begin? ==> forall x | x in c.accepted :: Reached(Apply(c, step, now, cfg), x)
  {
    match step
    case Accept(item) => AcceptTracked(c, item, now, cfg);
    case Begin(force, cut) => BeginTracked(c, force, cut, now);
    case Launch => LaunchTracked(c, now);
    case Answer(reply, jitter) => AnswerTracked(c, reply, DelayOf(c.work[0], reply, jitter, cfg.policy), now, cfg);
    case Tick => TickTracked(c, now);
  }

  lemma TickTracked(c: State, now: int)
    requires Tracked(c)
    ensures Tracked(c.(clock := now)) && KeepsReached(c, c.(clock := now))
  {
    assert ToSend(c.(clock := now)) == ToSend(c);
  }

  /** The items taken in before a call. */
  function Before(c: State, call: FlushCall): seq<Item> { if call.mark <= |c.accepted| then c.accepted[..call.mark] else c.accepted }

  /** What a call of `flush` can rely on, whatever thread it is on. */
  ghost predicate CallHolds(y: System, k: nat)
    requires k < |y.calls|
  {
    && y.calls[k].mark <= |y.memory.accepted|
    && (y.calls[k].returned ==> forall x | x in Before(y.memory, y.calls[k]) :: Handled(y.memory, x))
  }

  ghost predicate ThreadHolds(y: System, i: nat)
  {
    var pc := Pc(y, i);
    (pc.Working? || pc.Sending?) && pc.call < |y.calls| ==>
      forall x | x in Before(y.memory, y.calls[pc.call]) :: Reached(Abs(y), x)
  }

  ghost predicate AllHold(y: System)
  {
    Tracked(Abs(y)) && (forall k | 0 <= k < |y.calls| :: CallHolds(y, k)) && forall i: nat :: ThreadHolds(y, i)
  }

  lemma AbsLists(y: System)
    ensures var c := Abs(y);
            && c.accepted == y.memory.accepted && c.attempted == y.memory.attempted && c.overflowed == y.memory.overflowed
  {
  }

  lemma SameBefore(c: State, d: State, call: FlushCall)
    requires call.mark <= |c.accepted| && c.accepted <= d.accepted
    ensures Before(d, call) == Before(c, call)
  {
  }

  lemma ReachedInTheEnd(y: System, i: nat)
    requires Exclusive(y) && ThreadHolds(y, i) && Pc(y, i).Working? && Pc(y, i).todo == [] && Pc(y, i).call < |y.calls|
    ensures forall x | x in Before(y.memory, y.calls[Pc(y, i).call]) :: Handled(y.memory, x)
  {
    assert Draining(Pc(y, i));
    assert ToSend(Abs(y)) == [] && ItemsOf([]) == [];
  }

  lemma TakeHolds(y: System, i: nat, act: Act, now: int, cfg: Config)
    requires Exclusive(y) && AllHold(y) && May(y, i, act, now, cfg)
    ensures AllHold(Take(y, i, act, now, cfg))
  {
    var z, step := Take(y, i, act, now, cfg), StepOf(y, i, act);
    TakeRefines(y, i, act, now, cfg);
    StepTracked(Abs(y), step, now, cfg);
    AbsLists(y);
    AbsLists(z);
    TakeThreads(y, i, act, now, cfg);
    TakeCalls(y, i, act, now, cfg);
  }

  lemma TakeThreads(y: System, i: nat, act: Act, now: int, cfg: Config)
    requires Exclusive(y) && AllHold(y) && May(y, i, act, now, cfg)
    requires KeepsReached(Abs(y), Abs(Take(y, i, act, now, cfg)))
    requires act.Collect? ==> forall x | x in Abs(y).accepted :: Reached(Abs(Take(y, i, act, now, cfg)), x)
    ensures forall j: nat :: ThreadHolds(Take(y, i, act, now, cfg), j)
  {
    var z := Take(y, i, act, now, cfg);
    AbsLists(y);
    AbsLists(z);
    forall j: nat ensures ThreadHolds(z, j) {
      assert ThreadHolds(y, j);
      var pc := Pc(z, j);
      if (pc.Working? || pc.Sending?) && pc.call < |z.calls| && pc.call < |y.calls| {
        assert CallHolds(y, pc.call);
        SameBefore(y.memory, z.memory, y.calls[pc.call]);
      }
    }
  }

  lemma TakeCalls(y: System, i: nat, act: Act, now: int, cfg: Config)
    requires Exclusive(y) && AllHold(y) && May(y, i, act, now, cfg)
    requires KeepsReached(Abs(y), Abs(Take(y, i, act, now, cfg)))
    ensures var z := Take(y, i, act, now, cfg); forall k | 0 <= k < |z.calls| :: CallHolds(z, k)
  {
    var z := Take(y, i, act, now, cfg);
    AbsLists(y);
    AbsLists(z);
    forall k | 0 <= k < |z.calls| ensures CallHolds(z, k) {
      if k < |y.calls| {
        assert CallHolds(y, k);
        SameBefore(y.memory, z.memory, y.calls[k]);
        if act.Return? && Pc(y, i).call == k {
          assert ThreadHolds(y, i);
          ReachedInTheEnd(y, i);
        }
      }
    }
  }

  lemma {:induction false} RunHolds(turns: seq<Turn>, cfg: Config)
    requires Run(turns, cfg).Some?
    ensures AllHold(Run(turns, cfg).value)
  {
    if turns != [] {
      var init, t := turns[..|turns|-1], turns[|turns|-1];
      RunHolds(init, cfg);
      RunExclusive(init, cfg);
      TakeHolds(Run(init, cfg).value, t.thread, t.act, t.now, cfg);
    }
  }

  /** When a flush returns, on whatever thread and under every interleaving,
      every item that was taken in before the call has been sent at least once or
      dropped by the bound. */
  lemma FlushIsComplete(turns: seq<Turn>, cfg: Config, k: nat)
    requires Run(turns, cfg).Some? && k < |Run(turns, cfg).value.calls| && Run(turns, cfg).value.calls[k].returned
    ensures var y := Run(turns, cfg).value;
            y.calls[k].mark <= |y.memory.accepted| && forall x | x in y.memory.accepted[..y.calls[k].mark] :: Handled(y.memory, x)
  {
    RunHolds(turns, cfg);
    assert CallHolds(Run(turns, cfg).value, k);
  }

  /** No deadlock: while any call is under way some thread can go on, as soon as
      the sender replies. */
  lemma SomeoneCanGoOn(turns: seq<Turn>, cfg: Config, i: nat, env: Envelope) returns (j: nat, act: Act)
    requires Run(turns, cfg).Some? && !Pc(Run(turns, cfg).value, i).Idle?
    requires FreshBatch(Run(turns, cfg).value.memory.keys, env.batchId)
    ensures var y := Run(turns, cfg).value; May(y, j, act, y.memory.clock, cfg) && !act.Enqueue? && !act.Call?
  {
    RunExclusive(turns, cfg);
    var y := Run(turns, cfg).value;
    match y.drainLock
    case None =>
      assert !Draining(Pc(y, i));
      j, act := i, Acquire;
    case Some(holder) =>
      assert Draining(Pc(y, holder));
      j := holder;
      match Pc(y, j)
      case Holding(_, _) =>
        CutIsCut(y.memory.pending, env, cfg.limits, y.memory.keys);
        act := Collect(Cut(y.memory.pending, env, cfg.limits));
      case Working(_, _, todo) => act := if todo == [] then Return else Send;
      case Sending(_, _, _) => act := Reply(Ok, 0.0);
  }

  // ---------------------------------------------------------------------
  // Forced flushes
  // ---------------------------------------------------------------------

  /** No thread is in a forced flush, and nothing was sent before its time. */
  ghost predicate NoneForced(y: System)
  {
    && (forall i: nat | Pc(y, i).Queued? || Pc(y, i).Holding? || Pc(y, i).Working? || Pc(y, i).Sending? :: !Pc(y, i).force)
    && (forall k | 0 <= k < |y.memory.log| && y.memory.log[k].Sent? :: !y.memory.log[k].forced)
  }

  lemma TakeUnforced(y: System, i: nat, act: Act, now: int, cfg: Config)
    requires NoneForced(y) && May(y, i, act, now, cfg) && (act.Call? ==> !act.force)
    ensures NoneForced(Take(y, i, act, now, cfg))
  {
    var z := Take(y, i, act, now, cfg);
    forall j: nat ensures Pc(z, j) == if j == i then Pc(z, i) else Pc(y, j) { }
  }

  /** Under every interleaving, if no thread calls a forced flush no retry is sent
      before its time. */
  lemma {:induction false} ForceIsAskedFor(turns: seq<Turn>, cfg: Config)
    requires Run(turns, cfg).Some? && forall k | 0 <= k < |turns| && turns[k].act.Call? :: !turns[k].act.force
    ensures NoneForced(Run(turns, cfg).value)
  {
    if turns != [] {
      var init, t := turns[..|turns|-1], turns[|turns|-1];
      ForceIsAskedFor(init, cfg);
      TakeUnforced(Run(init, cfg).value, t.thread, t.act, t.now, cfg);
    }
  }
}
