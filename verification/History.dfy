/** What is sent for each idempotency key, and when: the law that every log of
    sends and replies obeys, and what follows from it. */
module History {
  import opened Utf8
  import opened Json
  import opened Numbers

  datatype Policy = Policy(maxAttempts: int, baseBackoff: nat, maxBackoff: nat)

  const MAX_RETRY_AFTER: int := 60_000

  /** One send, or what a reply to it led to. */
  datatype Event =
    | Sent(key: Text, body: Text, attempt: nat, at: int, forced: bool)
    | Accepted(key: Text)
    | Refused(key: Text)
    | GaveUp(key: Text)
    | Waits(key: Text, attempt: nat, at: int, delay: int, retryAfter: Option<int>)

  function Min(a: int, b: int): int { if a <= b then a else b }

  function Max(a: int, b: int): int { if a >= b then a else b }

  /** `min(maxBackoff, baseBackoff * 2 ** (attempt - 1))`. */
  function Ceiling(attempt: nat, p: Policy): nat
    requires attempt >= 1
  {
    Min(p.maxBackoff, p.baseBackoff * Pow2(attempt - 1))
  }

  /** `Math.round`. */
  function Round(x: real): int { (x + 0.5).Floor }

  /** A ceiling with jitter in [50 %, 100 %]. */
  function Jittered(ceiling: nat, jitter: real): int { Scaled(ceiling, 0.5 + jitter * 0.5) }

  function Scaled(ceiling: nat, factor: real): int { Round(ceiling as real * factor) }

  /** The wait after a failed attempt; `jitter` is a random number in [0, 1). */
  function Backoff(attempt: nat, retryAfter: Option<int>, jitter: real, p: Policy): int
    requires attempt >= 1
  {
    match retryAfter
    case Some(ms) => Min(ms, MAX_RETRY_AFTER)
    case None => Jittered(Ceiling(attempt, p), jitter)
  }

  lemma BackoffBounds(attempt: nat, jitter: real, p: Policy)
    requires attempt >= 1 && 0.0 <= jitter < 1.0
    ensures Ceiling(attempt, p) <= 2 * Backoff(attempt, None, jitter, p)
    ensures Backoff(attempt, None, jitter, p) <= Ceiling(attempt, p)
  {
    JitterBounds(Ceiling(attempt, p), jitter);
  }

  lemma JitterBounds(c: nat, jitter: real)
    requires 0.0 <= jitter < 1.0
    ensures c <= 2 * Jittered(c, jitter) && Jittered(c, jitter) <= c
  {
    ScaledBounds(c, 0.5 + jitter * 0.5);
  }

  lemma ScaledBounds(c: nat, f: real)
    requires 0.5 <= f <= 1.0
    ensures c <= 2 * Scaled(c, f) && Scaled(c, f) <= c
  {
    var y := c as real * f;
    ScaleBounds(c as real, f, y);
    RoundBounds(y, c);
  }

  lemma RoundBounds(x: real, c: nat)
    requires c as real <= 2.0 * x && x <= c as real
    ensures c <= 2 * Round(x) && Round(x) <= c
  {
    var r := Round(x);
    assert x - 0.5 < r as real <= x + 0.5;
    assert c as real - 1.0 < 2.0 * r as real;
    assert (c - 1) as real < (2 * r) as real;
  }

  lemma ScaleBounds(c: real, f: real, y: real)
    requires c >= 0.0 && 0.5 <= f <= 1.0 && y == c * f
    ensures c <= 2.0 * y && y <= c
  {
    var a, b := f - 0.5, 1.0 - f;
    assert c * a >= 0.0 && c * b >= 0.0;
    assert c * a == y - c * 0.5;
    assert c * b == c - y;
  }

  const DEFAULT_POLICY: Policy := Policy(5, 1_000, 30_000)

  // ---------------------------------------------------------------------
  // The law
  // ---------------------------------------------------------------------

  /** Where a key stands after a log. */
  datatype Standing = New | Flying(attempt: nat) | Waiting(attempt: nat, due: int) | Closed

  function After(e: Event): Standing
  {
    match e
    case Sent(_, _, n, _, _) => Flying(n)
    case Waits(_, n, at, delay, _) => Waiting(n, at + delay)
    case _ => Closed
  }

  function StandingOf(log: seq<Event>, key: Text): Standing
  {
    if log == [] then New
    else if log[|log|-1].key == key then After(log[|log|-1])
    else StandingOf(log[..|log|-1], key)
  }

  /** The body last sent under a key. */
  function BodyOf(log: seq<Event>, key: Text): Option<Text>
  {
    if log == [] then None
    else if log[|log|-1].Sent? && log[|log|-1].key == key then Some(log[|log|-1].body)
    else BodyOf(log[..|log|-1], key)
  }

  /** After failure n the wait is what the server asked for, up to a minute, or at
      least half of the base wait doubled n - 1 times, up to the longest wait, and
      at most all of it. */
  predicate DelayLawful(attempt: nat, delay: int, retryAfter: Option<int>, p: Policy)
    requires attempt >= 1
  {
    match retryAfter
    case Some(ms) => delay == Min(ms, 60_000)
    case None =>
      && 2 * delay >= Min(p.maxBackoff, p.baseBackoff * Pow2(attempt - 1))
      && delay <= Min(p.maxBackoff, p.baseBackoff * Pow2(attempt - 1))
  }

  /** Every wait that the queue computes is lawful, and the random number spreads
      waits evenly: it is to the nearest millisecond the fraction `jitter` of the
      way from half of the longest lawful wait to all of it. */
  lemma BackoffLawful(attempt: nat, retryAfter: Option<int>, jitter: real, p: Policy)
    requires attempt >= 1 && 0.0 <= jitter < 1.0
    ensures DelayLawful(attempt, Backoff(attempt, retryAfter, jitter, p), retryAfter, p)
    ensures retryAfter == None ==>
              var most := Min(p.maxBackoff, p.baseBackoff * Pow2(attempt - 1)) as real;
              var wait := Backoff(attempt, retryAfter, jitter, p) as real;
              most / 2.0 + jitter * (most / 2.0) - 0.5 < wait <= most / 2.0 + jitter * (most / 2.0) + 0.5
  {
    BackoffBounds(attempt, jitter, p);
    Halves(Ceiling(attempt, p) as real, jitter);
    RoundNear(Ceiling(attempt, p) as real * (0.5 + jitter * 0.5));
  }

  /** With the default policy the waits after the first four failures are from
      half a second, one, two and four seconds to twice that. */
  lemma DefaultWaits(jitter: real)
    requires 0.0 <= jitter < 1.0
    ensures 500 <= Backoff(1, None, jitter, DEFAULT_POLICY) <= 1_000
    ensures 1_000 <= Backoff(2, None, jitter, DEFAULT_POLICY) <= 2_000
    ensures 2_000 <= Backoff(3, None, jitter, DEFAULT_POLICY) <= 4_000
    ensures 4_000 <= Backoff(4, None, jitter, DEFAULT_POLICY) <= 8_000
  {
    assert Pow2(0) == 1 && Pow2(1) == 2 && Pow2(2) == 4 && Pow2(3) == 8;
    BackoffBounds(1, jitter, DEFAULT_POLICY);
    BackoffBounds(2, jitter, DEFAULT_POLICY);
    BackoffBounds(3, jitter, DEFAULT_POLICY);
    BackoffBounds(4, jitter, DEFAULT_POLICY);
  }

  lemma Halves(most: real, jitter: real)
    ensures most * (0.5 + jitter * 0.5) == most / 2.0 + jitter * (most / 2.0)
  {
  }

  lemma RoundNear(x: real)
    ensures x - 0.5 < Round(x) as real <= x + 0.5
  {
  }

  predicate EventLawful(log: seq<Event>, e: Event, p: Policy)
  {
    match e
    case Sent(key, body, n, at, forced) =>
      (match StandingOf(log, key)
       case New => n == 1
       case Waiting(m, due) => n == m + 1 && n <= p.maxAttempts && BodyOf(log, key) == Some(body) && (forced || due <= at)
       case _ => false)
    case Waits(key, n, at, delay, retryAfter) =>
      StandingOf(log, key) == Flying(n) && 1 <= n < p.maxAttempts && DelayLawful(n, delay, retryAfter, p)
    case GaveUp(key) => StandingOf(log, key).Flying? && StandingOf(log, key).attempt >= p.maxAttempts
    case _ => StandingOf(log, e.key).Flying?
  }

  predicate Lawful(log: seq<Event>, p: Policy)
  {
    log == [] || (Lawful(log[..|log|-1], p) && EventLawful(log[..|log|-1], log[|log|-1], p))
  }

  lemma LogPush(log: seq<Event>, e: Event, key: Text, p: Policy)
    ensures StandingOf(log + [e], key) == if e.key == key then After(e) else StandingOf(log, key)
    ensures BodyOf(log + [e], key) == if e.Sent? && e.key == key then Some(e.body) else BodyOf(log, key)
    ensures Lawful(log + [e], p) <==> Lawful(log, p) && EventLawful(log, e, p)
  {
    assert (log + [e])[..|log|] == log;
  }

  lemma {:induction false} LawfulPrefix(log: seq<Event>, i: nat, p: Policy)
    requires Lawful(log, p) && i <= |log|
    ensures Lawful(log[..i], p) && (i < |log| ==> EventLawful(log[..i], log[i], p))
    decreases |log|
  {
    if i < |log| - 1 {
      LawfulPrefix(log[..|log|-1], i, p);
      assert log[..|log|-1][..i] == log[..i];
    } else if i == |log| {
      assert log[..i] == log;
    }
  }

  // ---------------------------------------------------------------------
  // What a lawful log guarantees
  // ---------------------------------------------------------------------

  function Sends(log: seq<Event>, key: Text): nat
  {
    if log == [] then 0
    else Sends(log[..|log|-1], key) + if log[|log|-1].Sent? && log[|log|-1].key == key then 1 else 0
  }

  /** A key is sent at most `maxAttempts` times, and once even if that is less
      than one; its attempts are numbered 1, 2, 3, ... */
  lemma {:induction false} SendsAreBounded(log: seq<Event>, key: Text, p: Policy)
    requires Lawful(log, p)
    ensures Sends(log, key) <= Max(1, p.maxAttempts)
    ensures match StandingOf(log, key)
            case New => Sends(log, key) == 0
            case Flying(n) => Sends(log, key) == n
            case Waiting(n, _) => Sends(log, key) == n
            case Closed => true
  {
    if log != [] {
      SendsAreBounded(log[..|log|-1], key, p);
    }
  }

  predicate IsFinal(e: Event) { e.Accepted? || e.Refused? || e.GaveUp? }

  lemma {:induction false} ClosedForGood(log: seq<Event>, i: nat, j: nat, p: Policy)
    requires Lawful(log, p) && i < j <= |log| && IsFinal(log[i])
    ensures StandingOf(log[..j], log[i].key) == Closed
    decreases j
  {
    if j == i + 1 {
      assert log[..j][..i] == log[..i];
    } else {
      ClosedForGood(log, i, j - 1, p);
      LawfulPrefix(log, j - 1, p);
      assert log[..j][..j-1] == log[..j-1];
    }
  }

  /** Nothing is sent, and nothing else happens, under a key that was accepted,
      refused for good or given up. */
  lemma NothingAfterFinal(log: seq<Event>, i: nat, j: nat, p: Policy)
    requires Lawful(log, p) && i < j < |log| && IsFinal(log[i])
    ensures log[j].key != log[i].key
  {
    ClosedForGood(log, i, j, p);
    LawfulPrefix(log, j, p);
  }

  lemma {:induction false} BodyIsFirst(log: seq<Event>, i: nat, p: Policy)
    requires Lawful(log, p) && i < |log| && log[i].Sent?
    ensures BodyOf(log, log[i].key) == Some(log[i].body)
    decreases |log|
  {
    var key, init, last := log[i].key, log[..|log|-1], log[|log|-1];
    if i < |log| - 1 {
      BodyIsFirst(init, i, p);
      if last.Sent? && last.key == key {
        SentBefore(init, i);
      }
    }
  }

  lemma {:induction false} SentBefore(log: seq<Event>, i: nat)
    requires i < |log|
    ensures StandingOf(log, log[i].key) != New
  {
    if i < |log| - 1 && log[|log|-1].key != log[i].key { SentBefore(log[..|log|-1], i); }
  }

  /** Every send of a key carries the same body. */
  lemma OneBodyPerKey(log: seq<Event>, i: nat, j: nat, p: Policy)
    requires Lawful(log, p) && i < |log| && j < |log| && log[i].Sent? && log[j].Sent? && log[i].key == log[j].key
    ensures log[i].body == log[j].body
  {
    BodyIsFirst(log, i, p);
    BodyIsFirst(log, j, p);
  }

  lemma {:induction false} WaitedFor(log: seq<Event>, key: Text) returns (i: nat)
    requires StandingOf(log, key).Waiting?
    ensures i < |log| && log[i].Waits? && log[i].key == key && After(log[i]) == StandingOf(log, key)
    ensures forall k | i < k < |log| :: log[k].key != key
  {
    if log[|log|-1].key == key {
      i := |log| - 1;
    } else {
      i := WaitedFor(log[..|log|-1], key);
    }
  }

  /** Attempt n+1 of a key follows failure n directly, and unless it is forced
      it starts no earlier than that failure plus the capped Retry-After, or
      plus half of the exponential ceiling. */
  lemma RetryWaits(log: seq<Event>, j: nat, p: Policy) returns (i: nat)
    requires Lawful(log, p) && j < |log| && log[j].Sent? && log[j].attempt > 1
    ensures i < j && log[i].Waits? && log[i].key == log[j].key && log[i].attempt + 1 == log[j].attempt
    ensures forall k | i < k < j :: log[k].key != log[j].key
    ensures !log[j].forced ==> log[j].at >= log[i].at + log[i].delay
    ensures log[i].attempt >= 1 && DelayLawful(log[i].attempt, log[i].delay, log[i].retryAfter, p)
  {
    LawfulPrefix(log, j, p);
    i := WaitedFor(log[..j], log[j].key);
    LawfulPrefix(log, i, p);
    assert log[..j][i] == log[i];
  }
}
