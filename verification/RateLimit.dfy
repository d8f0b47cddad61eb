/** The sliding-window limiter: pruned per-key lists against the full history of accepted requests. */
module RateLimit {
  import opened Wrappers

  const WINDOW_MS := 60_000
  const MAX_REQUESTS_PER_WINDOW := 5
  const CLEANUP_THRESHOLD := 10_000

  /** The times after `start`, in order. */
  function After(times: seq<int>, start: int): (r: seq<int>)
    ensures forall t :: t in r <==> t in times && t > start
    ensures |r| <= |times|
  {
    if times == [] then [] else (if times[0] > start then [times[0]] else []) + After(times[1..], start)
  }

  function Of(log: map<string, seq<int>>, key: string): seq<int> {
    if key in log then log[key] else []
  }

  function Min(times: seq<int>): (m: int)
    requires times != []
    ensures m in times && forall t :: t in times ==> m <= t
  {
    if |times| == 1 then times[0]
    else
      var rest := Min(times[1..]);
      assert forall t :: t in times ==> t == times[0] || t in times[1..];
      if times[0] < rest then times[0] else rest
  }

  lemma {:induction false} AfterTwice(times: seq<int>, start: int, later: int)
    requires start <= later
    ensures After(After(times, start), later) == After(times, later)
  {
    if times != [] {
      AfterTwice(times[1..], start, later);
      var rest := After(times[1..], start);
      if times[0] > start {
        assert ([times[0]] + rest)[1..] == rest;
      } else {
        assert After(times, start) == rest;
      }
    }
  }

  lemma {:induction false} AfterSplits(xs: seq<int>, ys: seq<int>, start: int)
    ensures After(xs + ys, start) == After(xs, start) + After(ys, start)
  {
    if xs == [] {
      assert xs + ys == ys;
    } else {
      assert (xs + ys)[1..] == xs[1..] + ys;
      AfterSplits(xs[1..], ys, start);
    }
  }

  lemma {:induction false} AfterAll(times: seq<int>, start: int)
    requires forall t :: t in times ==> t > start
    ensures After(times, start) == times
  {
    if times != [] {
      assert times[0] in times && forall t :: t in times[1..] ==> t in times;
      AfterAll(times[1..], start);
    }
  }

  lemma {:induction false} AfterDrops(times: seq<int>, start: int, gone: int)
    requires gone in times && gone <= start
    ensures |After(times, start)| < |times|
  {
    if times[0] > start { AfterDrops(times[1..], start, gone); }
  }

  /** The accepts of one key in the window that ends at `end`. */
  function InWindow(times: seq<int>, end: int): seq<int> {
    UpTo(After(times, end - WINDOW_MS), end)
  }

  function UpTo(times: seq<int>, end: int): (r: seq<int>)
    ensures |r| <= |times|
  {
    if times == [] then [] else (if times[0] <= end then [times[0]] else []) + UpTo(times[1..], end)
  }

  lemma UpToFirst(times: seq<int>, end: int)
    ensures UpTo(times, end) ==
              if times == [] then [] else (if times[0] <= end then [times[0]] else []) + UpTo(times[1..], end)
  {
  }

  lemma {:induction false} UpToSplits(xs: seq<int>, ys: seq<int>, end: int)
    ensures UpTo(xs + ys, end) == UpTo(xs, end) + UpTo(ys, end)
  {
    hide UpTo;
    UpToFirst(xs, end);
    if xs == [] {
      assert xs + ys == ys;
    } else {
      assert (xs + ys)[1..] == xs[1..] + ys && (xs + ys)[0] == xs[0];
      UpToFirst(xs + ys, end);
      UpToSplits(xs[1..], ys, end);
    }
  }

  lemma {:induction false} UpToAll(times: seq<int>, end: int)
    requires forall t :: t in times ==> t <= end
    ensures UpTo(times, end) == times
  {
    if times != [] {
      assert times[0] in times && forall t :: t in times[1..] ==> t in times;
      UpToAll(times[1..], end);
    }
  }

  lemma {:induction false} AfterNotMore(times: seq<int>, start: int, later: int)
    requires start <= later
    ensures |After(times, later)| <= |After(times, start)|
  {
    AfterTwice(times, start, later);
  }

  /** No window of this history holds more than the limit, wherever it ends. */
  ghost predicate Paced(times: seq<int>) {
    forall end :: |InWindow(times, end)| <= MAX_REQUESTS_PER_WINDOW
  }

  /** Accepting while the window that ends now has room keeps every window within the limit. */
  lemma AcceptKeepsPaced(times: seq<int>, now: int)
    requires Paced(times) && (forall t :: t in times ==> t <= now)
    requires |After(times, now - WINDOW_MS)| < MAX_REQUESTS_PER_WINDOW
    ensures Paced(times + [now])
  {
    forall end ensures |InWindow(times + [now], end)| <= MAX_REQUESTS_PER_WINDOW {
      AfterSplits(times, [now], end - WINDOW_MS);
      UpToSplits(After(times, end - WINDOW_MS), After([now], end - WINDOW_MS), end);
      if end >= now {
        AfterNotMore(times, now - WINDOW_MS, end - WINDOW_MS);
      } else {
        assert |UpTo(After([now], end - WINDOW_MS), end)| == 0;
        assert |InWindow(times, end)| <= MAX_REQUESTS_PER_WINDOW;
      }
    }
  }

  /** At this moment the window holds as many requests as are allowed. */
  ghost predicate Exhausted(times: seq<int>, now: int) {
    |After(times, now - WINDOW_MS)| >= MAX_REQUESTS_PER_WINDOW
  }

  /** A request of this key is refused at every moment up to `wait` from now and would be accepted then. */
  ghost predicate AcceptedFirstAfter(times: seq<int>, now: int, wait: int) {
    && wait > 0
    && (forall x :: now <= x < now + wait ==> Exhausted(times, x))
    && !Exhausted(times, now + wait)
  }

  lemma StillExhausted(times: seq<int>, now: int, x: int)
    requires Exhausted(times, now) && now <= x < Min(After(times, now - WINDOW_MS)) + WINDOW_MS
    ensures Exhausted(times, x)
  {
    AfterTwice(times, now - WINDOW_MS, x - WINDOW_MS);
    AfterAll(After(times, now - WINDOW_MS), x - WINDOW_MS);
  }

  lemma RoomAgain(times: seq<int>, now: int)
    requires Paced(times) && Exhausted(times, now) && forall t :: t in times ==> t <= now
    ensures !Exhausted(times, Min(After(times, now - WINDOW_MS)) + WINDOW_MS)
  {
    hide Min;
    var recent := After(times, now - WINDOW_MS);
    var oldest := Min(recent);
    UpToAll(recent, now);
    assert |InWindow(times, now)| <= MAX_REQUESTS_PER_WINDOW;
    AfterTwice(times, now - WINDOW_MS, oldest);
    AfterDrops(recent, oldest, oldest);
  }

  /** What the refusal reports is exactly that moment. */
  lemma RetryAfterIsExact(times: seq<int>, now: int)
    requires Paced(times) && Exhausted(times, now) && forall t :: t in times ==> t <= now
    ensures AcceptedFirstAfter(times, now, Min(After(times, now - WINDOW_MS)) + WINDOW_MS - now)
  {
    hide Exhausted, Paced, Min;
    assert After(times, now - WINDOW_MS) != [] by { ExhaustedIsSome(times, now); }
    var oldest := Min(After(times, now - WINDOW_MS));
    forall x | now <= x < now + (oldest + WINDOW_MS - now)
      ensures Exhausted(times, x)
    {
      StillExhausted(times, now, x);
    }
    RoomAgain(times, now);
    assert now + (oldest + WINDOW_MS - now) == oldest + WINDOW_MS;
  }

  lemma ExhaustedMeans(times: seq<int>, now: int)
    ensures Exhausted(times, now) <==> |After(times, now - 60_000)| >= 5
  {
  }

  lemma ExhaustedIsSome(times: seq<int>, now: int)
    requires Exhausted(times, now)
    ensures After(times, now - WINDOW_MS) != []
  {
  }

  /** The two logs show the same recent times to any caller from `latest` on. */
  ghost predicate Agree(pruned: map<string, seq<int>>, full: map<string, seq<int>>, latest: int) {
    forall key, start :: start >= latest - WINDOW_MS ==> After(Of(pruned, key), start) == After(Of(full, key), start)
  }

  lemma AgreeLater(pruned: map<string, seq<int>>, full: map<string, seq<int>>, latest: int, now: int)
    requires Agree(pruned, full, latest) && latest <= now
    ensures Agree(pruned, full, now)
  {
  }

  /** Recording the request in both logs, the kept one cut down to what is recent. */
  lemma RecordKeepsAgreement(pruned: map<string, seq<int>>, full: map<string, seq<int>>, key: string, now: int)
    requires Agree(pruned, full, now)
    ensures Agree(pruned[key := After(Of(pruned, key), now - WINDOW_MS) + [now]],
                  full[key := Of(full, key) + [now]], now)
  {
    var pruned' := pruned[key := After(Of(pruned, key), now - WINDOW_MS) + [now]];
    var full' := full[key := Of(full, key) + [now]];
    forall k, start | start >= now - WINDOW_MS ensures After(Of(pruned', k), start) == After(Of(full', k), start) {
      if k == key {
        AfterSplits(After(Of(pruned, key), now - WINDOW_MS), [now], start);
        AfterTwice(Of(pruned, key), now - WINDOW_MS, start);
        AfterSplits(Of(full, key), [now], start);
      }
      assert After(Of(pruned, k), start) == After(Of(full, k), start);
    }
  }

  /** Cleaning up one key changes nothing a later caller can see. */
  lemma CleanKeepsAgreement(pruned: map<string, seq<int>>, full: map<string, seq<int>>, key: string, now: int)
    requires Agree(pruned, full, now) && key in pruned
    ensures var recent := After(pruned[key], now - WINDOW_MS);
            Agree(if recent == [] then pruned - {key} else pruned[key := recent], full, now)
  {
    var recent := After(pruned[key], now - WINDOW_MS);
    var cleaned := if recent == [] then pruned - {key} else pruned[key := recent];
    forall k, start | start >= now - WINDOW_MS ensures After(Of(cleaned, k), start) == After(Of(full, k), start) {
      AfterTwice(pruned[key], now - WINDOW_MS, start);
      assert After(Of(pruned, k), start) == After(Of(full, k), start);
    }
  }

  /** The history of every key is paced and lies in the past. */
  ghost predicate Sound(full: map<string, seq<int>>, now: int) {
    forall key :: Paced(Of(full, key)) && forall t :: t in Of(full, key) ==> t <= now
  }

  lemma AgreeAt(pruned: map<string, seq<int>>, full: map<string, seq<int>>, key: string, now: int)
    requires Agree(pruned, full, now)
    ensures After(Of(pruned, key), now - WINDOW_MS) == After(Of(full, key), now - WINDOW_MS)
  {
  }

  lemma SoundAt(full: map<string, seq<int>>, key: string, now: int)
    requires Sound(full, now)
    ensures Paced(Of(full, key)) && forall t :: t in Of(full, key) ==> t <= now
  {
    hide Paced;
  }

  lemma RecordKeepsSound(full: map<string, seq<int>>, key: string, now: int)
    requires Sound(full, now) && !Exhausted(Of(full, key), now)
    ensures Sound(full[key := Of(full, key) + [now]], now)
  {
    hide Paced;
    var full' := full[key := Of(full, key) + [now]];
    AcceptKeepsPaced(Of(full, key), now);
    forall k ensures Paced(Of(full', k)) && forall t :: t in Of(full', k) ==> t <= now {
      assert Paced(Of(full, k));
    }
  }

  /** A key worth keeping: all of its times are within the window. */
  ghost predicate Recent(times: seq<int>, now: int) {
    times != [] && forall t :: t in times ==> t > now - 60_000
  }

  lemma AfterIsRecent(times: seq<int>, now: int)
    ensures After(times, now - 60_000) != [] ==> Recent(After(times, now - 60_000), now)
  {
  }

  class RateLimiter {
    var requestLog: map<string, seq<int>>

    /** Every accepted time ever, the last clock value seen, and whether the clock has never gone back. */
    ghost var accepted: map<string, seq<int>>
    ghost var latest: Option<int>
    ghost var steady: bool

    ghost predicate Valid()
      reads this
    {
      steady ==>
        && (latest.None? ==> requestLog == map[] && accepted == map[])
        && (latest.Some? ==> Agree(requestLog, accepted, latest.value) && Sound(accepted, latest.value))
    }

    constructor ()
      ensures Valid() && steady && latest.None? && accepted == map[]
    {
      requestLog := map[];
      accepted, latest, steady := map[], None, true;
    }

    /**
     * `Some` carries the `retryAfterMs` of the error thrown. While the clock has never gone back, the decision is the
     * one the full history gives, every window of every key stays within the limit, and the reported wait is exact.
     */
    method AssertWithinRateLimit(key: string, now: int) returns (refused: Option<int>)
      requires Valid()
      modifies this
      ensures Valid()
      ensures steady == (old(steady) && (old(latest).None? || old(latest).value <= now)) && latest == Some(now)
      ensures accepted == if refused.Some? then old(accepted) else old(accepted)[key := Of(old(accepted), key) + [now]]
      ensures refused.None? <==> |After(Of(old(requestLog), key), now - 60_000)| < 5
      ensures steady ==> (refused.None? <==> |After(Of(old(accepted), key), now - 60_000)| < 5)
      ensures refused.Some? ==> requestLog == old(requestLog)
      ensures refused.None? && |requestLog| > 10_000 ==> forall k :: k in requestLog ==> Recent(requestLog[k], now)
      ensures steady ==> Sound(accepted, now)
      ensures steady && refused.Some? ==> AcceptedFirstAfter(Of(accepted, key), now, refused.value)
    {
      hide After, Min, Paced, AcceptedFirstAfter, Agree, Sound, Recent, Exhausted;
      ExhaustedMeans(Of(accepted, key), now);
      var windowStart := now - WINDOW_MS;
      steady := steady && (latest.None? || latest.value <= now);
      if steady { ClockMoves(now); }
      latest := Some(now);
      var existing := After(Of(requestLog, key), windowStart);
      assert steady ==> existing == After(Of(accepted, key), windowStart) by {
        if steady { AgreeAt(requestLog, accepted, key, now); }
      }

      if |existing| >= MAX_REQUESTS_PER_WINDOW {
        var oldestInWindow := Min(existing);
        if steady {
          SoundAt(accepted, key, now);
          RetryAfterIsExact(Of(accepted, key), now);
        }
        return Some(oldestInWindow + WINDOW_MS - now);
      }

      if steady {
        RecordKeepsSound(accepted, key, now);
        RecordKeepsAgreement(requestLog, accepted, key, now);
      }
      requestLog := requestLog[key := existing + [now]];
      accepted := accepted[key := Of(accepted, key) + [now]];

      if |requestLog| > CLEANUP_THRESHOLD {
        var keys := requestLog.Keys;
        while keys != {}
          invariant keys <= requestLog.Keys
          invariant forall k :: k in requestLog && k !in keys ==> Recent(requestLog[k], now)
          invariant steady ==> Agree(requestLog, accepted, now) && Sound(accepted, now)
          invariant accepted == old(accepted)[key := Of(old(accepted), key) + [now]] && latest == Some(now)
          invariant steady == (old(steady) && (old(latest).None? || old(latest).value <= now))
          decreases keys
        {
          var k :| k in keys;
          if steady { CleanKeepsAgreement(requestLog, accepted, k, now); }
          var stillRecent := After(requestLog[k], windowStart);
          AfterIsRecent(requestLog[k], now);
          if stillRecent == [] {
            requestLog := requestLog - {k};
          } else {
            requestLog := requestLog[k := stillRecent];
          }
          keys := keys - {k};
        }
      }
      refused := None;
    }

    /** The clock reaches `now`: nothing recorded is in its future. */
    lemma ClockMoves(now: int)
      requires Valid() && steady && (latest.None? || latest.value <= now)
      ensures Agree(requestLog, accepted, now) && Sound(accepted, now)
    {
      hide After, InWindow;
      if latest.Some? {
        AgreeLater(requestLog, accepted, latest.value, now);
      } else {
        NothingIsPaced();
      }
    }
  }

  lemma NothingIsPaced()
    ensures Paced([])
  {
  }
}
