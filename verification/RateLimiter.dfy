/** The rate limiter and the retry loop. Callers interleave, but each touches a limiter only in locked
    sections: an attempt to take the next slot, or a backoff. A limiter's log is the history of those
    sections in lock order, with the clock reading each one took. */
module RateLimiter {
  datatype Event = Attempt(now: int) | Backoff(now: int, retryAfter: int)

  // The zero time.Time lies before every clock reading.
  const ZERO_TIME := 0

  // A monotone clock, read in lock order.
  ghost predicate Timely(log: seq<Event>) {
    && (forall i | 0 <= i < |log| :: ZERO_TIME <= log[i].now)
    && forall i, j | 0 <= i < j < |log| :: log[i].now <= log[j].now
  }

  function Clock(log: seq<Event>): int {
    if log == [] then ZERO_TIME else log[|log| - 1].now
  }

  /** nextAllowed as left by a history. */
  function NextAllowed(minInterval: nat, log: seq<Event>): int {
    if log == [] then ZERO_TIME
    else
      var before := NextAllowed(minInterval, log[..|log| - 1]);
      match log[|log| - 1]
      case Attempt(now) => if before <= now then now + minInterval else before
      case Backoff(now, retryAfter) => if now + retryAfter > before then now + retryAfter else before
  }

  predicate Granted(minInterval: nat, log: seq<Event>, i: nat)
    requires i < |log|
  {
    log[i].Attempt? && NextAllowed(minInterval, log[..i]) <= log[i].now
  }

  /* What the history says */

  // Time x respects event i of the history.
  ghost predicate Respects(minInterval: nat, log: seq<Event>, i: nat, x: int)
    requires i < |log|
  {
    && (Granted(minInterval, log, i) ==> log[i].now + minInterval <= x)
    && (log[i].Backoff? ==> log[i].now + log[i].retryAfter <= x)
  }

  /** A slot is free at x exactly when x respects every earlier grant and every backoff window, also
      those that began while the caller was asleep. The limiter delays nobody longer than that. */
  lemma {:induction false} FreeIffRespectful(minInterval: nat, log: seq<Event>, x: int)
    requires Timely(log)
    ensures NextAllowed(minInterval, log) <= x <==>
      ZERO_TIME <= x && forall i | 0 <= i < |log| :: Respects(minInterval, log, i, x)
  {
    if log != [] {
      var n := |log| - 1;
      var pre := log[..n];
      FreeIffRespectful(minInterval, pre, x);
      FreeIffRespectful(minInterval, pre, log[n].now);
      forall i | 0 <= i < n ensures Respects(minInterval, log, i, x) <==> Respects(minInterval, pre, i, x) {
        assert log[..i] == pre[..i];
      }
      assert NextAllowed(minInterval, log) <= x <==>
        NextAllowed(minInterval, pre) <= x && Respects(minInterval, log, n, x) by {
        NeverDecreases(minInterval, log, n);
      }
      assert forall i | 0 <= i < n :: Respects(minInterval, pre, i, x) <==> Respects(minInterval, log, i, x);
    }
  }

  /** nextAllowed never decreases. */
  lemma {:induction false} NeverDecreases(minInterval: nat, log: seq<Event>, i: nat)
    requires i <= |log|
    ensures NextAllowed(minInterval, log[..i]) <= NextAllowed(minInterval, log)
    decreases |log|
  {
    if i == |log| {
      assert log[..i] == log;
    } else {
      var pre := log[..|log| - 1];
      NeverDecreases(minInterval, pre, i);
      assert pre[..i] == log[..i];
    }
  }

  /** Two grants are at least the interval apart, and no grant falls inside the window of an earlier
      backoff. */
  lemma {:induction false} GrantsKeepTheirDistance(minInterval: nat, log: seq<Event>, i: nat, j: nat)
    requires Timely(log) && i < j < |log| && Granted(minInterval, log, j)
    ensures Granted(minInterval, log, i) ==> log[j].now >= log[i].now + minInterval
    ensures log[i].Backoff? ==> log[j].now >= log[i].now + log[i].retryAfter
  {
    FreeIffRespectful(minInterval, log[..j], log[j].now);
    assert log[..j][..i] == log[..i];
    assert Respects(minInterval, log[..j], i, log[j].now);
  }

  /* The window bound */

  // Grants with a clock reading in [from, until).
  function GrantsWithin(minInterval: nat, log: seq<Event>, from: int, until: int): nat {
    if log == [] then 0
    else
      var n := |log| - 1;
      GrantsWithin(minInterval, log[..n], from, until) +
      if Granted(minInterval, log, n) && from <= log[n].now < until then 1 else 0
  }

  lemma {:induction false} NoneBefore(minInterval: nat, log: seq<Event>, from: int, until: int)
    requires until <= from
    ensures GrantsWithin(minInterval, log, from, until) == 0
  {
    if log != [] {
      NoneBefore(minInterval, log[..|log| - 1], from, until);
    }
  }

  // Cutting a window where no grant is left out.
  lemma {:induction false} SameWithin(minInterval: nat, log: seq<Event>, from: int, until: int, until': int)
    requires forall i | 0 <= i < |log| && Granted(minInterval, log, i) :: log[i].now < until <==> log[i].now < until'
    ensures GrantsWithin(minInterval, log, from, until) == GrantsWithin(minInterval, log, from, until')
  {
    if log != [] {
      var n := |log| - 1;
      forall i | 0 <= i < n && Granted(minInterval, log[..n], i)
        ensures log[..n][i].now < until <==> log[..n][i].now < until'
      {
        assert log[..n][..i] == log[..i];
        assert Granted(minInterval, log, i);
      }
      SameWithin(minInterval, log[..n], from, until, until');
    }
  }

  // All grants before the last one lie an interval before it.
  lemma {:induction false} CutBeforeGrant(minInterval: nat, log: seq<Event>, from: int, until: int)
    requires Timely(log) && log != [] && Granted(minInterval, log, |log| - 1) && log[|log| - 1].now < until
    ensures var pre, cut := log[..|log| - 1], log[|log| - 1].now - minInterval + 1;
      GrantsWithin(minInterval, pre, from, until) == GrantsWithin(minInterval, pre, from, cut)
  {
    var n := |log| - 1;
    var pre, cut := log[..n], log[n].now - minInterval + 1;
    forall i | 0 <= i < n && Granted(minInterval, pre, i) ensures pre[i].now < until <==> pre[i].now < cut {
      assert pre[..i] == log[..i];
      GrantsKeepTheirDistance(minInterval, log, i, n);
    }
    SameWithin(minInterval, pre, from, until, cut);
  }

  lemma {:induction false} AddOne(c: nat, m: nat, d: nat)
    requires c * m <= d || c == 0
    ensures (c + 1) * m <= d + m
  {
    assert (c + 1) * m == c * m + m;
  }

  lemma {:induction false} SpacedCount(minInterval: nat, log: seq<Event>, from: int, until: int)
    requires Timely(log) && minInterval > 0
    ensures from < until ==> GrantsWithin(minInterval, log, from, until) * minInterval <= until - from + minInterval - 1
    ensures until <= from ==> GrantsWithin(minInterval, log, from, until) == 0
    decreases |log|
  {
    if until <= from {
      NoneBefore(minInterval, log, from, until);
    } else if log != [] {
      var n := |log| - 1;
      var pre, t := log[..n], log[n].now;
      if Granted(minInterval, log, n) && from <= t < until {
        CutBeforeGrant(minInterval, log, from, until);
        SpacedCount(minInterval, pre, from, t - minInterval + 1);
        AddOne(GrantsWithin(minInterval, pre, from, until), minInterval, t - from);
      } else {
        SpacedCount(minInterval, pre, from, until);
      }
    }
  }

  function CeilDiv(a: nat, b: nat): nat
    requires b > 0
  {
    (a + b - 1) / b
  }

  lemma {:induction false} AtMost(c: nat, b: nat, a: nat)
    requires b > 0 && c * b <= a
    ensures c <= a / b
  {
    var q := a / b;
    assert a == q * b + a % b;
    assert (c - q - 1) * b == c * b - q * b - b;
    assert (c - q - 1) * b < 0;
  }

  /** Whatever callers do, any half-open window of length width sees at most width/minInterval grants,
      rounded up. */
  lemma {:induction false} WindowBound(minInterval: nat, log: seq<Event>, from: int, width: nat)
    requires Timely(log) && minInterval > 0
    ensures GrantsWithin(minInterval, log, from, from + width) <= CeilDiv(width, minInterval)
  {
    SpacedCount(minInterval, log, from, from + width);
    if width > 0 {
      AtMost(GrantsWithin(minInterval, log, from, from + width), minInterval, width + minInterval - 1);
    }
  }

  // The intervals main configures, in milliseconds.
  const SERVERS_INTERVAL: nat := 2000
  const CHANNELS_INTERVAL: nat := 700
  const MESSAGING_INTERVAL: nat := 1000
  const DEFAULT_INTERVAL: nat := 500

  /** Stoat's limits per fixed ten-second window, wherever that window starts. */
  lemma {:induction false} ConfiguredBudgets(log: seq<Event>, from: int)
    requires Timely(log)
    ensures GrantsWithin(SERVERS_INTERVAL, log, from, from + 10000) <= 5
    ensures GrantsWithin(CHANNELS_INTERVAL, log, from, from + 10000) <= 15
    ensures GrantsWithin(MESSAGING_INTERVAL, log, from, from + 10000) <= 10
    ensures GrantsWithin(DEFAULT_INTERVAL, log, from, from + 10000) <= 20
  {
    WindowBound(SERVERS_INTERVAL, log, from, 10000);
    WindowBound(CHANNELS_INTERVAL, log, from, 10000);
    WindowBound(MESSAGING_INTERVAL, log, from, 10000);
    WindowBound(DEFAULT_INTERVAL, log, from, 10000);
  }
}
