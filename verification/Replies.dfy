/** What a pass sends and in which order, and what each reply leads to. */
module Replies {
  import opened Json
  import opened Chunker
  import opened History
  import opened Delivery

  // ---------------------------------------------------------------------
  // The order of a pass
  // ---------------------------------------------------------------------

  /** Collecting due chunks looks at each chunk on its own and keeps their order. */
  lemma {:induction false} DueAppend(a: seq<Chunk>, b: seq<Chunk>, force: bool, now: int)
    ensures Due(a + b, force, now) == Due(a, force, now) + Due(b, force, now)
    ensures NotDue(a + b, force, now) == NotDue(a, force, now) + NotDue(b, force, now)
  {
    if b == [] {
      assert a + b == a;
    } else {
      assert (a + b)[..|a + b|-1] == a + b[..|b|-1];
      DueAppend(a, b[..|b|-1], force, now);
    }
  }

  lemma DueOne(c: Chunk, force: bool, now: int)
    ensures Due([c], force, now) == if force || c.nextAttemptAt <= now then [c] else []
    ensures NotDue([c], force, now) == if force || c.nextAttemptAt <= now then [] else [c]
  {
    assert [c][..0] == [];
  }

  /** A pass that is not forced sends, in this order, the waiting chunks whose time
      has come, oldest failure first, and then what is cut; a chunk at either end
      of the list that waits is where it belongs. */
  lemma PassTakes(s: State, force: bool, cut: seq<Chunk>, now: int, before: seq<Chunk>, c: Chunk, after: seq<Chunk>)
    requires s.retry == before + ([c] + after)
    ensures var t := BeginStep(s, force, cut, now);
            if force || c.nextAttemptAt <= now then
              && t.work == Due(before, force, now) + ([c] + Due(after, force, now)) + cut
              && t.retry == NotDue(before, force, now) + NotDue(after, force, now)
            else
              && t.work == Due(before, force, now) + Due(after, force, now) + cut
              && t.retry == NotDue(before, force, now) + ([c] + NotDue(after, force, now))
  {
    DueAround(before, c, after, force, now);
  }

  lemma DueAround(before: seq<Chunk>, c: Chunk, after: seq<Chunk>, force: bool, now: int)
    ensures var all, due := before + ([c] + after), force || c.nextAttemptAt <= now;
            && Due(all, force, now) == Due(before, force, now) + (if due then [c] + Due(after, force, now) else Due(after, force, now))
            && NotDue(all, force, now)
               == NotDue(before, force, now) + (if due then NotDue(after, force, now) else [c] + NotDue(after, force, now))
  {
    DueAppend(before, [c] + after, force, now);
    DueAppend([c], after, force, now);
    DueOne(c, force, now);
    Nothing(Due(after, force, now));
    Nothing(NotDue(after, force, now));
  }

  lemma Nothing(list: seq<Chunk>)
    ensures [] + list == list
  {
  }

  // ---------------------------------------------------------------------
  // Replies
  // ---------------------------------------------------------------------

  /** A status other than 408, 425, 429 and those from 500 on. */
  predicate IsFinalStatus(status: Option<int>)
  {
    match status
    case None => false
    case Some(x) => x < 500 && x != 408 && x != 425 && x != 429
  }

  /** The four ways in which a reply ends an attempt. An accepted chunk is
      delivered; a final status rejects it; after the last attempt it is given up;
      otherwise it waits behind the others, and the oldest are evicted down to 50. */
  lemma ReplyDecides(s: State, reply: Reply, delay: int, now: int, cfg: Config)
    requires Aloft(s)
    ensures var t, c := AnswerStep(s, reply, delay, now, cfg), s.work[0];
            var waiting := s.retry + [c.(nextAttemptAt := now + delay)];
            var most := Min(50, |waiting|);
            && t.work == s.work[1..] && !t.flying
            && (if reply.Ok? then t == s.(work := t.work, flying := false, delivered := s.delivered + [c], log := t.log)
                else if IsFinalStatus(reply.status) then
                  t == s.(work := t.work, flying := false, rejected := s.rejected + [c], log := t.log)
                else if c.attempts >= cfg.policy.maxAttempts then
                  t == s.(work := t.work, flying := false, exhausted := s.exhausted + [c], log := t.log)
                else
                  && t.retry == waiting[|waiting| - most..]
                  && t.evicted == s.evicted + waiting[..|waiting| - most]
                  && t == s.(work := t.work, flying := false, retry := t.retry, evicted := t.evicted, log := t.log))
  {
  }

  /** And the wait is the one for this failure: the chunk is due again after the
      capped Retry-After, or after half to all of min(maxBackoff, base * 2^(n-1)). */
  lemma RetryIsSet(s: State, status: Option<int>, retryAfter: Option<int>, jitter: real, now: int, cfg: Config)
    requires Aloft(s) && !IsFinalStatus(status) && s.work[0].attempts < cfg.policy.maxAttempts && 0.0 <= jitter < 1.0
    ensures var t := Apply(s, Answer(Failed(status, retryAfter), jitter), now, cfg);
            && t.retry != []
            && var d := t.retry[|t.retry|-1];
               && d.key == s.work[0].key && d.body == s.work[0].body && d.attempts == s.work[0].attempts
               && DelayLawful(d.attempts, d.nextAttemptAt - now, retryAfter, cfg.policy)
  {
    BackoffLawful(s.work[0].attempts, retryAfter, jitter, cfg.policy);
    var reply := Failed(status, retryAfter);
    ReplyDecides(s, reply, DelayOf(s.work[0], reply, jitter, cfg.policy), now, cfg);
  }
}
