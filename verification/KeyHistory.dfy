/** Every run without a restore leaves a lawful log: what the queue sends under
    each key, how often and when. */
module KeyHistory {
  import opened Utf8
  import opened Json
  import opened Chunker
  import opened History
  import opened Numbers
  import opened Delivery

  /** How many of the chunks have a key. */
  function KeyCount(chunks: seq<Chunk>, key: Text): nat
  {
    if chunks == [] then 0 else KeyCount(chunks[..|chunks|-1], key) + if chunks[|chunks|-1].key == key then 1 else 0
  }

  lemma {:induction false} KeyCountAppend(a: seq<Chunk>, b: seq<Chunk>, key: Text)
    ensures KeyCount(a + b, key) == KeyCount(a, key) + KeyCount(b, key)
  {
    if b == [] {
      assert a + b == a;
    } else {
      assert (a + b)[..|a + b|-1] == a + b[..|b|-1];
      KeyCountAppend(a, b[..|b|-1], key);
    }
  }

  lemma KeyCountHead(chunks: seq<Chunk>, key: Text)
    requires chunks != []
    ensures KeyCount(chunks, key) == (if chunks[0].key == key then 1 else 0) + KeyCount(chunks[1..], key)
  {
    assert chunks == [chunks[0]] + chunks[1..];
    KeyCountAppend([chunks[0]], chunks[1..], key);
    assert [chunks[0]][..0] == [];
  }

  lemma {:induction false} KeyCountMember(chunks: seq<Chunk>, c: Chunk)
    requires c in chunks
    ensures KeyCount(chunks, c.key) >= 1
  {
    if chunks[|chunks|-1] != c { KeyCountMember(chunks[..|chunks|-1], c); }
  }

  lemma {:induction false} KeyCountNone(chunks: seq<Chunk>, key: Text)
    requires forall c | c in chunks :: c.key != key
    ensures KeyCount(chunks, key) == 0
  {
    if chunks != [] { KeyCountNone(chunks[..|chunks|-1], key); }
  }

  lemma {:induction false} KeyCountDistinct(chunks: seq<Chunk>, key: Text)
    requires Distinct(Keys(chunks))
    ensures KeyCount(chunks, key) <= 1
  {
    if chunks != [] {
      var init, last := chunks[..|chunks|-1], chunks[|chunks|-1];
      assert forall i | 0 <= i < |init| :: Keys(chunks)[i] == Keys(init)[i];
      KeyCountDistinct(init, key);
      if last.key == key {
        forall c | c in init ensures c.key != key {
          var i :| 0 <= i < |init| && init[i] == c;
          assert Keys(chunks)[i] != Keys(chunks)[|chunks|-1];
        }
        KeyCountNone(init, key);
      }
    }
  }

  lemma {:induction false} KeyCountDue(chunks: seq<Chunk>, force: bool, now: int, key: Text)
    ensures KeyCount(chunks, key) == KeyCount(Due(chunks, force, now), key) + KeyCount(NotDue(chunks, force, now), key)
  {
    if chunks != [] {
      var init, c := chunks[..|chunks|-1], chunks[|chunks|-1];
      KeyCountDue(init, force, now, key);
      if IsDue(c, force, now) {
        assert (Due(init, force, now) + [c])[..|Due(init, force, now)|] == Due(init, force, now);
      } else {
        assert (NotDue(init, force, now) + [c])[..|NotDue(init, force, now)|] == NotDue(init, force, now);
      }
    }
  }

  lemma {:induction false} DueMembers(chunks: seq<Chunk>, force: bool, now: int)
    ensures forall c :: c in Due(chunks, force, now) <==> c in chunks && IsDue(c, force, now)
    ensures forall c :: c in NotDue(chunks, force, now) <==> c in chunks && !IsDue(c, force, now)
  {
    if chunks != [] {
      DueMembers(chunks[..|chunks|-1], force, now);
      assert chunks == chunks[..|chunks|-1] + [chunks[|chunks|-1]];
    }
  }

  // ---------------------------------------------------------------------
  // The invariant
  // ---------------------------------------------------------------------

  /** A chunk that waits for its retry time. */
  predicate Parked(log: seq<Event>, c: Chunk, p: Policy)
  {
    StandingOf(log, c.key) == Waiting(c.attempts, c.nextAttemptAt) && BodyOf(log, c.key) == Some(c.body)
    && 1 <= c.attempts < p.maxAttempts
  }

  /** A chunk of the current pass that is still to be sent. */
  predicate Ready(log: seq<Event>, forced: bool, clock: int, c: Chunk, p: Policy)
  {
    if c.attempts == 0 then StandingOf(log, c.key) == New
    else Parked(log, c, p) && (forced || c.nextAttemptAt <= clock)
  }

  /** The chunks of the current pass that are still to be sent. */
  function ToSend(s: State): seq<Chunk> { if s.flying && s.work != [] then s.work[1..] else s.work }

  predicate FlightLogged(s: State)
  {
    s.flying ==>
      Aloft(s) && StandingOf(s.log, s.work[0].key) == Flying(s.work[0].attempts) && BodyOf(s.log, s.work[0].key) == Some(s.work[0].body)
  }

  ghost predicate OneEach(s: State) { forall key :: KeyCount(s.retry, key) + KeyCount(s.work, key) <= 1 }

  ghost predicate Known(s: State)
  {
    && (forall key :: StandingOf(s.log, key) != New ==> key in s.keys)
    && (forall c | c in s.retry :: c.key in s.keys) && (forall c | c in s.work :: c.key in s.keys)
  }

  ghost predicate Inv(s: State, p: Policy)
  {
    && Lawful(s.log, p)
    && OneEach(s) && Known(s)
    && (forall c | c in s.retry :: Parked(s.log, c, p))
    && (forall c | c in ToSend(s) :: Ready(s.log, s.forced, s.clock, c, p))
    && FlightLogged(s)
    && |s.retry| <= MAX_RETRY_CHUNKS
  }

  lemma BeginKeeps(s: State, force: bool, cut: seq<Chunk>, now: int, cfg: Config)
    requires Inv(s, cfg.policy) && Enabled(s, Begin(force, cut), now, cfg)
    ensures Inv(Apply(s, Begin(force, cut), now, cfg), cfg.policy)
  {
    var t := Apply(s, Begin(force, cut), now, cfg);
    var due, rest := Due(s.retry, force, now), NotDue(s.retry, force, now);
    DueMembers(s.retry, force, now);
    forall key ensures KeyCount(t.retry, key) + KeyCount(t.work, key) <= 1 {
      KeyCountDue(s.retry, force, now, key);
      KeyCountAppend(due, cut, key);
      KeyCountDistinct(cut, key);
      if key in s.keys {
        KeyCountNone(cut, key);
      } else {
        KeyCountNone(s.retry, key);
      }
    }
    forall c | c in cut ensures c.key in t.keys && c.key !in s.keys && Ready(t.log, t.forced, t.clock, c, cfg.policy) {
      assert c.key in KeySet(cut);
    }
    NotDueShorter(s.retry, force, now);
  }

  lemma {:induction false} NotDueShorter(chunks: seq<Chunk>, force: bool, now: int)
    ensures |NotDue(chunks, force, now)| <= |chunks|
  {
    if chunks != [] { NotDueShorter(chunks[..|chunks|-1], force, now); }
  }

  /** No other live chunk has the key of the first chunk of the pass. */
  lemma HeadIsAlone(s: State)
    requires OneEach(s) && s.work != []
    ensures forall c | c in s.retry :: c.key != s.work[0].key
    ensures forall c | c in s.work[1..] :: c.key != s.work[0].key
  {
    KeyCountHead(s.work, s.work[0].key);
    forall c | c in s.retry ensures c.key != s.work[0].key {
      KeyCountMember(s.retry, c);
    }
    forall c | c in s.work[1..] ensures c.key != s.work[0].key {
      KeyCountMember(s.work[1..], c);
    }
  }

  lemma LogOthers(log: seq<Event>, e: Event, p: Policy)
    ensures forall key | key != e.key :: StandingOf(log + [e], key) == StandingOf(log, key) && BodyOf(log + [e], key) == BodyOf(log, key)
    ensures StandingOf(log + [e], e.key) == After(e)
    ensures BodyOf(log + [e], e.key) == if e.Sent? then Some(e.body) else BodyOf(log, e.key)
    ensures Lawful(log + [e], p) <==> Lawful(log, p) && EventLawful(log, e, p)
  {
    forall key {:trigger StandingOf(log + [e], key)} | true
      ensures StandingOf(log + [e], key) == if e.key == key then After(e) else StandingOf(log, key)
      ensures BodyOf(log + [e], key) == if e.Sent? && e.key == key then Some(e.body) else BodyOf(log, key)
    {
      LogPush(log, e, key, p);
    }
    LogPush(log, e, e.key, p);
  }

  lemma LaunchKeeps(s: State, now: int, cfg: Config)
    requires Inv(s, cfg.policy) && Enabled(s, Launch, now, cfg)
    ensures Inv(Apply(s, Launch, now, cfg), cfg.policy)
  {
    var t, c := Apply(s, Launch, now, cfg), s.work[0];
    var e := Sent(c.key, c.body, c.attempts + 1, now, s.forced);
    assert Ready(s.log, s.forced, s.clock, c, cfg.policy);
    LogOthers(s.log, e, cfg.policy);
    HeadIsAlone(s);
    assert ToSend(t) == s.work[1..];
    forall x | x in s.work[1..] ensures Ready(t.log, t.forced, t.clock, x, cfg.policy) {
      assert x in ToSend(s) && Ready(s.log, s.forced, s.clock, x, cfg.policy);
    }
    forall key ensures KeyCount(t.retry, key) + KeyCount(t.work, key) <= 1 {
      KeyCountHead(s.work, key);
      KeyCountHead(t.work, key);
    }
  }

  lemma AnswerLawful(s: State, reply: Reply, delay: int, now: int, cfg: Config)
    requires Inv(s, cfg.policy) && s.flying && Aloft(s)
    requires reply.Failed? ==> DelayLawful(s.work[0].attempts, delay, reply.retryAfter, cfg.policy)
    ensures var t, c := AnswerStep(s, reply, delay, now, cfg), s.work[0];
            && Lawful(t.log, cfg.policy)
            && (forall key | key != c.key :: StandingOf(t.log, key) == StandingOf(s.log, key) && BodyOf(t.log, key) == BodyOf(s.log, key))
            && BodyOf(t.log, c.key) == Some(c.body)
            && (Retried(s, reply, cfg) ==> StandingOf(t.log, c.key) == Waiting(c.attempts, now + delay))
  {
    var t, c := AnswerStep(s, reply, delay, now, cfg), s.work[0];
    LogOthers(s.log, t.log[|s.log|], cfg.policy);
    assert t.log == s.log + [t.log[|s.log|]];
  }

  predicate Retried(s: State, reply: Reply, cfg: Config)
    requires s.work != []
  {
    reply.Failed? && !IsPermanent(reply) && s.work[0].attempts < cfg.policy.maxAttempts
  }

  /** Fewer or no more of a key among the newest chunks than among all. */
  lemma KeyCountNewest(waiting: seq<Chunk>, d: Chunk, n: nat, key: Text)
    requires n <= |waiting| + 1
    ensures KeyCount((waiting + [d])[n..], key) <= KeyCount(waiting, key) + if d.key == key then 1 else 0
  {
    var all := waiting + [d];
    assert all == all[..n] + all[n..];
    KeyCountAppend(all[..n], all[n..], key);
    KeyCountAppend(waiting, [d], key);
    KeyCountHead([d], key);
  }

  lemma AnswerOneEach(s: State, reply: Reply, delay: int, now: int, cfg: Config)
    requires OneEach(s) && Aloft(s)
    ensures OneEach(AnswerStep(s, reply, delay, now, cfg))
  {
    var t, d := AnswerStep(s, reply, delay, now, cfg), s.work[0].(nextAttemptAt := now + delay);
    forall key ensures KeyCount(t.retry, key) + KeyCount(t.work, key) <= 1 {
      KeyCountHead(s.work, key);
      KeyCountNewest(s.retry, d, Excess(s.retry + [d]), key);
      assert KeyCount(s.retry, key) + KeyCount(s.work, key) <= 1;
    }
  }

  /** What can wait after an answer: the chunks that waited, and the one answered. */
  lemma AnswerMembers(s: State, reply: Reply, delay: int, now: int, cfg: Config)
    requires Aloft(s) && |s.retry| <= MAX_RETRY_CHUNKS
    ensures var t := AnswerStep(s, reply, delay, now, cfg);
            && t.work == s.work[1..] && !t.flying && |t.retry| <= MAX_RETRY_CHUNKS
            && (forall x | x in t.retry :: x in s.retry || (Retried(s, reply, cfg) && x == s.work[0].(nextAttemptAt := now + delay)))
  {
  }

  /** The wait that is computed is lawful. */
  lemma DelayIsLawful(c: Chunk, reply: Reply, jitter: real, p: Policy)
    requires c.attempts >= 1 && reply.Failed? && 0.0 <= jitter < 1.0
    ensures DelayLawful(c.attempts, DelayOf(c, reply, jitter, p), reply.retryAfter, p)
  {
    BackoffLawful(c.attempts, reply.retryAfter, jitter, p);
  }

  lemma AnswerKeeps(s: State, reply: Reply, jitter: real, now: int, cfg: Config)
    requires Inv(s, cfg.policy) && Enabled(s, Answer(reply, jitter), now, cfg)
    ensures Inv(Apply(s, Answer(reply, jitter), now, cfg), cfg.policy)
  {
    if reply.Failed? { DelayIsLawful(s.work[0], reply, jitter, cfg.policy); }
    AnswerKeepsWith(s, reply, DelayOf(s.work[0], reply, jitter, cfg.policy), now, cfg);
  }

  lemma AnswerKeepsWith(s: State, reply: Reply, delay: int, now: int, cfg: Config)
    requires Inv(s, cfg.policy) && s.flying && Aloft(s) && s.clock <= now
    requires reply.Failed? ==> DelayLawful(s.work[0].attempts, delay, reply.retryAfter, cfg.policy)
    ensures Inv(AnswerStep(s, reply, delay, now, cfg).(clock := now), cfg.policy)
  {
    AnswerOneEach(s, reply, delay, now, cfg);
    AnswerMembers(s, reply, delay, now, cfg);
    AnswerLawful(s, reply, delay, now, cfg);
    HeadIsAlone(s);
    AnswerInv(s, AnswerStep(s, reply, delay, now, cfg), Retried(s, reply, cfg), now, delay, cfg.policy);
  }

  lemma AnswerInv(s: State, t: State, retried: bool, now: int, delay: int, p: Policy)
    requires Inv(s, p) && s.flying && s.clock <= now
    requires OneEach(t) && t.work == s.work[1..] && !t.flying && |t.retry| <= MAX_RETRY_CHUNKS
    requires forall x | x in t.retry :: x in s.retry || (retried && x == s.work[0].(nextAttemptAt := now + delay))
    requires forall c | c in s.retry :: c.key != s.work[0].key
    requires forall c | c in s.work[1..] :: c.key != s.work[0].key
    requires Lawful(t.log, p) && t.keys == s.keys && t.forced == s.forced
    requires var c := s.work[0];
             && (forall key | key != c.key :: StandingOf(t.log, key) == StandingOf(s.log, key) && BodyOf(t.log, key) == BodyOf(s.log, key))
             && BodyOf(t.log, c.key) == Some(c.body)
             && (retried ==> StandingOf(t.log, c.key) == Waiting(c.attempts, now + delay) && c.attempts < p.maxAttempts)
    ensures Inv(t.(clock := now), p)
  {
    var u := t.(clock := now);
    assert ToSend(u) == ToSend(s) == s.work[1..];
    forall c | c in ToSend(u) ensures Ready(u.log, u.forced, u.clock, c, p) {
      assert c in ToSend(s);
    }
    forall x | x in u.retry ensures Parked(u.log, x, p) && x.key in u.keys { }
    assert forall x | x in s.work[1..] :: x in s.work;
    assert forall key :: KeyCount(t.retry, key) + KeyCount(t.work, key) <= 1;
    assert OneEach(u);
  }

  lemma ApplyKeeps(s: State, step: Step, now: int, cfg: Config)
    requires Inv(s, cfg.policy) && Enabled(s, step, now, cfg) && !step.Restore?
    ensures Inv(Apply(s, step, now, cfg), cfg.policy)
  {
    match step
    case Accept(item) => assert ToSend(Apply(s, step, now, cfg)) == ToSend(s);
    case Begin(force, cut) => BeginKeeps(s, force, cut, now, cfg);
    case Launch => LaunchKeeps(s, now, cfg);
    case Answer(reply, jitter) => AnswerKeeps(s, reply, jitter, now, cfg);
    case TakeAll(cut) => TakeAllKeeps(s, cut, now, cfg);
    case Tick => assert ToSend(Apply(s, step, now, cfg)) == ToSend(s);
  }

  lemma TakeAllKeeps(s: State, cut: seq<Chunk>, now: int, cfg: Config)
    requires Inv(s, cfg.policy) && Enabled(s, TakeAll(cut), now, cfg)
    ensures Inv(Apply(s, TakeAll(cut), now, cfg), cfg.policy)
  {
    var t := Apply(s, TakeAll(cut), now, cfg);
    assert t.retry == [] && ToSend(t) == ToSend(s);
    forall key ensures KeyCount(t.retry, key) + KeyCount(t.work, key) <= 1 {
      assert KeyCount(s.retry, key) + KeyCount(s.work, key) <= 1;
    }
  }

  predicate NoRestore(trace: seq<Timed>) { forall i | 0 <= i < |trace| :: !trace[i].step.Restore? }

  lemma {:induction false} RunKeeps(trace: seq<Timed>, cfg: Config)
    requires Run(trace, cfg).Some? && NoRestore(trace)
    ensures Inv(Run(trace, cfg).value, cfg.policy)
  {
    if trace != [] {
      var init, t := trace[..|trace|-1], trace[|trace|-1];
      RunKeeps(init, cfg);
      ApplyKeeps(Run(init, cfg).value, t.step, t.now, cfg);
    }
  }

  // ---------------------------------------------------------------------
  // Main results
  // ---------------------------------------------------------------------

  /** Over any run without restore, for every key: all sends carry one body,
      there are at most `maxAttempts` of them (one, if that is less), nothing is
      sent after an ok or a permanent refusal, and at most 50 chunks wait. */
  lemma KeysAreHonoured(trace: seq<Timed>, cfg: Config, i: nat, j: nat)
    requires Run(trace, cfg).Some? && NoRestore(trace)
    ensures var s := Run(trace, cfg).value;
            && |s.retry| <= 50
            && (i < j < |s.log| && IsFinal(s.log[i]) ==> s.log[j].key != s.log[i].key)
            && (i < j < |s.log| && s.log[i].Sent? && s.log[j].Sent? && s.log[i].key == s.log[j].key ==> s.log[i].body == s.log[j].body)
            && (i < |s.log| ==> Sends(s.log, s.log[i].key) <= Max(1, cfg.policy.maxAttempts))
  {
    RunKeeps(trace, cfg);
    var s := Run(trace, cfg).value;
    if i < |s.log| {
      SendsAreBounded(s.log, s.log[i].key, cfg.policy);
      if j < |s.log| {
        if i < j && IsFinal(s.log[i]) { NothingAfterFinal(s.log, i, j, cfg.policy); }
        if s.log[i].Sent? && s.log[j].Sent? && s.log[i].key == s.log[j].key { OneBodyPerKey(s.log, i, j, cfg.policy); }
      }
    }
  }

  /** A repeated send follows its failure and, unless forced, waits for the
      capped Retry-After or for at least half of min(maxBackoff, base * 2^(n-1)),
      which is also the longest wait that is set. */
  lemma RetriesBackOff(trace: seq<Timed>, cfg: Config, j: nat) returns (i: nat)
    requires Run(trace, cfg).Some? && NoRestore(trace)
    requires j < |Run(trace, cfg).value.log| && Run(trace, cfg).value.log[j].Sent? && Run(trace, cfg).value.log[j].attempt > 1
    ensures var log := Run(trace, cfg).value.log;
            && i < j && log[i].Waits? && log[i].key == log[j].key && log[i].attempt + 1 == log[j].attempt
            && (!log[j].forced ==>
                 match log[i].retryAfter
                 case Some(ms) => log[j].at >= log[i].at + Min(ms, 60_000)
                 case None => 2 * (log[j].at - log[i].at) >= Min(cfg.policy.maxBackoff, cfg.policy.baseBackoff * Pow2(log[i].attempt - 1)))
            && (log[i].retryAfter == None ==>
                  log[i].delay <= Min(cfg.policy.maxBackoff, cfg.policy.baseBackoff * Pow2(log[i].attempt - 1)))
  {
    RunKeeps(trace, cfg);
    i := RetryWaits(Run(trace, cfg).value.log, j, cfg.policy);
  }
}
