/** packages/auth/src/rate-limit.ts: a counter for each subject and fixed window. */
module RateLimits {

  type Subject = string
  type Millis = int

  datatype Attempt = Attempt(subject: Subject, now: Millis)

  /** Math.floor(now / windowMs). */
  function Window(now: Millis, windowMs: int): int
    requires windowMs > 0
  {
    now / windowMs
  }

  function Bit(b: bool): nat {
    if b then 1 else 0
  }

  /** Attempts of a subject in a window. */
  function Count(log: seq<Attempt>, subject: Subject, window: int, windowMs: int): nat
    requires windowMs > 0
  {
    if log == [] then 0
    else
      var last := log[|log| - 1];
      Count(log[..|log| - 1], subject, window, windowMs)
        + Bit(last.subject == subject && Window(last.now, windowMs) == window)
  }

  /** The last attempt is within the limit. */
  predicate LastAccepted(log: seq<Attempt>, windowMs: int, limit: nat)
    requires windowMs > 0 && log != []
  {
    var last := log[|log| - 1];
    Count(log, last.subject, Window(last.now, windowMs), windowMs) <= limit
  }

  /** Accepted attempts of a subject with a time in [from, until). */
  function Accepted(log: seq<Attempt>, subject: Subject, from: Millis, until: Millis, windowMs: int, limit: nat): nat
    requires windowMs > 0
  {
    if log == [] then 0
    else
      var last := log[|log| - 1];
      Accepted(log[..|log| - 1], subject, from, until, windowMs, limit)
        + Bit(last.subject == subject && from <= last.now < until && LastAccepted(log, windowMs, limit))
  }

  lemma WindowBounds(now: Millis, windowMs: int, w: int)
    requires windowMs > 0
    ensures Window(now, windowMs) == w <==> w * windowMs <= now < (w + 1) * windowMs
  {
    var q := now / windowMs;
    assert q * windowMs <= now < q * windowMs + windowMs;
    if w < q {
      MulStep(w + 1, q, windowMs);
    } else if q < w {
      MulStep(q + 1, w, windowMs);
    }
  }

  lemma MulStep(a: int, b: int, m: int)
    requires a <= b && m > 0
    ensures a * m <= b * m
  {
    assert b * m == a * m + (b - a) * m;
  }

  /** In each window exactly the first `limit` attempts of a subject are accepted, whatever the order of times. */
  lemma {:induction false} WindowLimit(log: seq<Attempt>, subject: Subject, w: int, windowMs: int, limit: nat)
    requires windowMs > 0
    ensures Accepted(log, subject, w * windowMs, (w + 1) * windowMs, windowMs, limit)
         == if Count(log, subject, w, windowMs) <= limit then Count(log, subject, w, windowMs) else limit
  {
    if log != [] {
      WindowLimit(log[..|log| - 1], subject, w, windowMs, limit);
      WindowBounds(log[|log| - 1].now, windowMs, w);
    }
  }

  lemma {:induction false} SplitInterval(log: seq<Attempt>, subject: Subject, from: Millis, middle: Millis, until: Millis,
                                         windowMs: int, limit: nat)
    requires windowMs > 0 && from <= middle <= until
    ensures Accepted(log, subject, from, until, windowMs, limit)
         == Accepted(log, subject, from, middle, windowMs, limit) + Accepted(log, subject, middle, until, windowMs, limit)
  {
    if log != [] {
      SplitInterval(log[..|log| - 1], subject, from, middle, until, windowMs, limit);
    }
  }

  lemma {:induction false} SmallerInterval(log: seq<Attempt>, subject: Subject, a: Millis, b: Millis, c: Millis, d: Millis,
                                           windowMs: int, limit: nat)
    requires windowMs > 0 && a <= b && c <= d
    ensures Accepted(log, subject, b, c, windowMs, limit) <= Accepted(log, subject, a, d, windowMs, limit)
  {
    if log != [] {
      SmallerInterval(log[..|log| - 1], subject, a, b, c, d, windowMs, limit);
    }
  }

  /** In any interval of window length, aligned or not, at most twice the limit is accepted. */
  lemma IntervalLimit(log: seq<Attempt>, subject: Subject, from: Millis, windowMs: int, limit: nat)
    requires windowMs > 0
    ensures Accepted(log, subject, from, from + windowMs, windowMs, limit) <= 2 * limit
  {
    var w := Window(from, windowMs);
    var edge := (w + 1) * windowMs;
    WindowBounds(from, windowMs, w);
    assert edge == w * windowMs + windowMs && (w + 2) * windowMs == edge + windowMs;
    SplitInterval(log, subject, from, edge, from + windowMs, windowMs, limit);
    SmallerInterval(log, subject, w * windowMs, from, edge, edge, windowMs, limit);
    SmallerInterval(log, subject, edge, edge, from + windowMs, (w + 2) * windowMs, windowMs, limit);
    WindowLimit(log, subject, w, windowMs, limit);
    WindowLimit(log, subject, w + 1, windowMs, limit);
  }

  function Burst(subject: Subject, now: Millis, n: nat): seq<Attempt> {
    if n == 0 then [] else Burst(subject, now, n - 1) + [Attempt(subject, now)]
  }

  lemma {:induction false} BurstAccepted(before: seq<Attempt>, subject: Subject, now: Millis, n: nat, from: Millis,
                                         until: Millis, windowMs: int, limit: nat)
    requires windowMs > 0 && n <= limit && from <= now < until
    requires Count(before, subject, Window(now, windowMs), windowMs) == 0
    ensures var log := before + Burst(subject, now, n);
            && Count(log, subject, Window(now, windowMs), windowMs) == n
            && (forall w | w != Window(now, windowMs) ::
                  Count(log, subject, w, windowMs) == Count(before, subject, w, windowMs))
            && Accepted(log, subject, from, until, windowMs, limit)
            == Accepted(before, subject, from, until, windowMs, limit) + n
  {
    var log := before + Burst(subject, now, n);
    if n == 0 {
      assert log == before;
    } else {
      BurstAccepted(before, subject, now, n - 1, from, until, windowMs, limit);
      assert log[..|log| - 1] == before + Burst(subject, now, n - 1);
    }
  }

  lemma FirstBurst(subject: Subject, now: Millis, limit: nat, until: Millis, windowMs: int)
    requires windowMs > 0 && now < until
    ensures var log := Burst(subject, now, limit);
            && Accepted(log, subject, now, until, windowMs, limit) == limit
            && (forall w | w != Window(now, windowMs) :: Count(log, subject, w, windowMs) == 0)
  {
    BurstAccepted([], subject, now, limit, now, until, windowMs, limit);
    assert [] + Burst(subject, now, limit) == Burst(subject, now, limit);
  }

  /** The factor two is reached: a burst at the end of one window and one at the start of the next. */
  lemma IntervalLimitReached(subject: Subject, windowMs: int, limit: nat) returns (log: seq<Attempt>, from: Millis)
    requires windowMs > 1
    ensures Accepted(log, subject, from, from + windowMs, windowMs, limit) == 2 * limit
  {
    from := windowMs - 1;
    var first := Burst(subject, from, limit);
    WindowBounds(from, windowMs, 0);
    WindowBounds(windowMs, windowMs, 1);
    FirstBurst(subject, from, limit, from + windowMs, windowMs);
    BurstAccepted(first, subject, windowMs, limit, from, from + windowMs, windowMs, limit);
    log := first + Burst(subject, windowMs, limit);
  }

  /** One bucket of the limiter with its window length and limit; `log` is the account of its attempts. */
  class RateLimiter {
    const windowMs: int
    const limit: nat
    var counts: map<(Subject, int), nat>
    ghost var log: seq<Attempt>

    ghost predicate Valid()
      reads this
    {
      && windowMs > 0
      && forall subject, w :: (if (subject, w) in counts then counts[(subject, w)] else 0) == Count(log, subject, w, windowMs)
    }

    constructor (windowMs: int, limit: nat)
      requires windowMs > 0
      ensures Valid() && log == [] && this.windowMs == windowMs && this.limit == limit
    {
      this.windowMs, this.limit, counts, log := windowMs, limit, map[], [];
    }

    /** Every attempt counts, accepted or not. */
    method RequireWithinLimit(subject: Subject, now: Millis) returns (accepted: bool)
      requires Valid()
      modifies this
      ensures Valid() && log == old(log) + [Attempt(subject, now)]
      ensures accepted == LastAccepted(log, windowMs, limit)
    {
      var key := (subject, Window(now, windowMs));
      var count := (if key in counts then counts[key] else 0) + 1;
      counts := counts[key := count];
      log := log + [Attempt(subject, now)];
      assert log[..|log| - 1] == old(log);
      accepted := count <= limit;
    }
  }
}
