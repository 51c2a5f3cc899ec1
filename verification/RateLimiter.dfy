/** The sliding-window rate limiter, for one (identifier, endpoint) with one
    (limit, window) pair, a clock that never runs back, and each check's cache
    read and write taken together. */
module RateLimiter {
  import opened Basics
  import opened Wrappers

  /** int(max_requests * 1.5), truncating toward zero. */
  function Burst(limit: int): (burst: int)
    ensures if limit >= 0 then 2 * burst <= 3 * limit < 2 * burst + 2 else 2 * burst - 2 < 3 * limit <= 2 * burst
  {
    if limit >= 0 then limit * 3 / 2 else -(-limit * 3 / 2)
  }

  /** The times after `from`, in order. */
  function Recent(times: seq<real>, from: real): seq<real> {
    if times == [] then []
    else
      var last := times[|times| - 1];
      Recent(times[..|times| - 1], from) + (if last > from then [last] else [])
  }

  ghost predicate AllBy(times: seq<real>, t: real) {
    forall i :: 0 <= i < |times| ==> times[i] <= t
  }

  lemma {:induction false} RecentOfRecent(times: seq<real>, from: real, later: real)
    requires from <= later
    ensures Recent(Recent(times, from), later) == Recent(times, later)
  {
    if times != [] {
      var n := |times| - 1;
      RecentOfRecent(times[..n], from, later);
      RecentAppend(Recent(times[..n], from), times[n], later);
      if times[n] <= from {
        assert Recent(times, from) == Recent(times[..n], from);
      }
    }
  }

  lemma RecentAppend(times: seq<real>, t: real, from: real)
    ensures Recent(times + [t], from) == Recent(times, from) + (if t > from then [t] else [])
  {
    assert (times + [t])[..|times|] == times;
  }

  lemma {:induction false} RecentOfOld(times: seq<real>, from: real)
    requires AllBy(times, from)
    ensures Recent(times, from) == []
  {
    if times != [] { RecentOfOld(times[..|times| - 1], from); }
  }

  lemma {:induction false} RecentShrinks(times: seq<real>, from: real, later: real)
    requires from <= later
    ensures |Recent(times, later)| <= |Recent(times, from)|
  {
    if times != [] { RecentShrinks(times[..|times| - 1], from, later); }
  }

  /** Moving past the oldest recent time drops at least that one. */
  lemma {:induction false} RecentLosesItsOldest(times: seq<real>, from: real, later: real)
    requires from <= later && Recent(times, from) != [] && Recent(times, from)[0] <= later
    ensures |Recent(times, later)| < |Recent(times, from)|
  {
    var n := |times| - 1;
    RecentShrinks(times[..n], from, later);
    if Recent(times[..n], from) != [] {
      RecentLosesItsOldest(times[..n], from, later);
    }
  }

  /** The times run forward, and each admission met fewer than `burst` others
      in its window. */
  ghost predicate WellAdmitted(history: seq<real>, window: real, burst: int) {
    history == [] ||
    var n := |history| - 1;
    && WellAdmitted(history[..n], window, burst)
    && AllBy(history[..n], history[n])
    && |Recent(history[..n], history[n] - window)| < burst
  }

  /** The admissions in the window that ends at `t`. */
  function InWindow(times: seq<real>, window: real, t: real): seq<real> {
    if times == [] then []
    else
      var last := times[|times| - 1];
      InWindow(times[..|times| - 1], window, t) + (if t - window < last <= t then [last] else [])
  }

  lemma {:induction false} InWindowWithinRecent(times: seq<real>, window: real, t: real)
    ensures |InWindow(times, window, t)| <= |Recent(times, t - window)|
    ensures AllBy(times, t) ==> InWindow(times, window, t) == Recent(times, t - window)
  {
    if times != [] { InWindowWithinRecent(times[..|times| - 1], window, t); }
  }

  /** No window anywhere in time holds more than the burst limit. */
  lemma {:induction false} NoWindowHoldsMore(history: seq<real>, window: real, burst: int, t: real)
    requires WellAdmitted(history, window, burst)
    ensures history != [] ==> |InWindow(history, window, t)| <= burst
  {
    if history != [] {
      var n := |history| - 1;
      if history[n] <= t {
        InWindowWithinRecent(history[..n], window, t);
        RecentShrinks(history[..n], history[n] - window, t - window);
      } else {
        NoWindowHoldsMore(history[..n], window, burst, t);
      }
    }
  }

  /** The stored list answers as the history does for every window from `from` on. */
  ghost predicate InStep(stored: seq<real>, history: seq<real>, from: real) {
    forall f :: f >= from ==> Recent(stored, f) == Recent(history, f)
  }

  lemma OldHistoryNeedsNoList(history: seq<real>, from: real)
    requires AllBy(history, from)
    ensures InStep([], history, from)
  {
    forall f | f >= from ensures Recent([], f) == Recent(history, f) { RecentOfOld(history, f); }
  }

  lemma AdmissionIsWell(history: seq<real>, window: real, burst: int, now: real)
    requires WellAdmitted(history, window, burst) && AllBy(history, now)
    requires |Recent(history, now - window)| < burst
    ensures WellAdmitted(history + [now], window, burst) && AllBy(history + [now], now)
  {
    assert (history + [now])[..|history|] == history;
  }

  lemma AdmissionInStep(stored: seq<real>, history: seq<real>, from: real, now: real, f: real)
    requires InStep(stored, history, from) && f >= from
    ensures Recent(Recent(stored, from) + [now], f) == Recent(history + [now], f)
  {
    RecentAppend(Recent(stored, from), now, f);
    RecentAppend(history, now, f);
    RecentOfRecent(stored, from, f);
  }

  /** Admitting now keeps the history and the stored list in step. */
  lemma AdmissionKeepsStep(history: seq<real>, stored: seq<real>, window: real, burst: int, now: real)
    requires WellAdmitted(history, window, burst) && AllBy(history, now)
    requires |Recent(history, now - window)| < burst
    requires InStep(stored, history, now - window)
    ensures WellAdmitted(history + [now], window, burst) && AllBy(history + [now], now)
    ensures InStep(Recent(stored, now - window) + [now], history + [now], now - window)
  {
    AdmissionIsWell(history, window, burst, now);
    forall f | f >= now - window
      ensures Recent(Recent(stored, now - window) + [now], f) == Recent(history + [now], f)
    {
      AdmissionInStep(stored, history, now - window, now, f);
    }
  }

  /** The Retry-After of a refused check: the oldest admission still counted
      (if any) decides. */
  function RetryAfter(recent: seq<real>, now: real, window: int): int {
    var wait := if recent == [] then window else Truncate(recent[0] - (now - window as real) + window as real);
    if wait < 1 then 1 else wait
  }

  /** Whoever waits the advertised time, with nobody admitted meanwhile, gets in. */
  lemma WaitingGetsIn(history: seq<real>, window: int, burst: int, now: real, later: real)
    requires window >= 1 && burst >= 1
    requires WellAdmitted(history, window as real, burst) && AllBy(history, now)
    requires |Recent(history, now - window as real)| >= burst
    requires later >= now + RetryAfter(Recent(history, now - window as real), now, window) as real
    ensures |Recent(history, later - window as real)| < burst
  {
    var w := window as real;
    var recent := Recent(history, now - w);
    InWindowWithinRecent(history, w, now);
    NoWindowHoldsMore(history, w, burst, now);
    RecentIsRecent(history, now - w);
    var wait := recent[0] - (now - w) + w;
    assert Truncate(wait) as real > wait - 1.0;
    assert recent[0] <= later - w;
    RecentLosesItsOldest(history, now - w, later - w);
  }

  lemma {:induction false} RecentIsRecent(times: seq<real>, from: real)
    ensures forall i :: 0 <= i < |Recent(times, from)| ==> Recent(times, from)[i] > from
  {
    if times != [] { RecentIsRecent(times[..|times| - 1], from); }
  }

  /** The header asks for a window more than the wait that was needed, give or
      take the second lost to truncation. */
  lemma RetryAfterOverasks(history: seq<real>, window: int, now: real)
    requires window >= 1 && AllBy(history, now) && Recent(history, now - window as real) != []
    ensures var recent := Recent(history, now - window as real);
            var needed := recent[0] + window as real - now;
            && needed > 0.0
            && needed + (window - 1) as real < RetryAfter(recent, now, window) as real <= needed + window as real
  {
    RecentIsRecent(history, now - window as real);
  }

  function Remaining(limit: int, count: nat): (left: int)
    ensures left >= 0 && left >= limit - count && (left == 0 || left == limit - count)
  {
    if limit > count then limit - count else 0
  }

  /** The cache entry: the timestamp list and when it may be gone. */
  datatype Entry = Entry(requests: seq<real>, deadline: real)

  class Limiter {
    const limit: int
    const window: int
    var entry: Option<Entry>
    ghost var history: seq<real>   // every admission since the last reset
    ghost var clock: real          // the time of the last check

    ghost function Window(): real
    {
      window as real
    }

    /** The stored list is as good as the full history for every window that
        has not begun yet, and an entry that may be gone holds nothing of it. */
    ghost predicate Valid()
      reads this
    {
      && window >= 0
      && WellAdmitted(history, Window(), Burst(limit))
      && AllBy(history, clock)
      && (entry.None? ==> AllBy(history, clock - Window()))
      && (entry.Some? ==>
            && AllBy(history, entry.value.deadline - 2.0 * Window())
            && InStep(entry.value.requests, history, clock - Window()))
    }

    constructor (limit: int, window: int, start: real)
      requires window >= 0
      ensures Valid() && this.limit == limit && this.window == window && history == [] && clock == start
    {
      this.limit, this.window := limit, window;
      entry, history, clock := None, [], start;
    }

    /** The list a check reads at `now`, given whether the entry is gone. */
    function Stored(gone: bool): seq<real>
      reads this
    {
      if entry.None? || gone then [] else entry.value.requests
    }

    lemma StoredIsInStep(now: real, gone: bool)
      requires Valid() && now >= clock
      requires gone ==> entry.Some? && now >= entry.value.deadline
      ensures InStep(Stored(gone), history, now - Window())
      ensures gone ==> AllBy(history, now - Window())
    {
      if gone || entry.None? {
        assert AllBy(history, now - Window());
        OldHistoryNeedsNoList(history, now - Window());
      }
    }

    /** check_rate_limit. `gone` is the cache losing the entry, which it may do
        once the entry's timeout is over. */
    method CheckRateLimit(now: real, gone: bool) returns (allowed: bool, remaining: int, retryAfter: Option<int>)
      requires Valid() && now >= clock
      requires gone ==> entry.Some? && now >= entry.value.deadline
      modifies this
      ensures Valid() && clock == now
      // The decision is the one the full history gives, whatever was pruned or lost.
      ensures allowed <==> |Recent(old(history), now - window as real)| < Burst(limit)
      ensures history == if allowed then old(history) + [now] else old(history)
      ensures remaining == Remaining(limit, |Recent(old(history), now - window as real)|)
      ensures retryAfter ==
              if allowed then None
              else Some(RetryAfter(Recent(old(history), now - window as real), now, window))
    {
      StoredIsInStep(now, gone);
      var requests := Recent(Stored(gone), now - window as real);
      assert requests == Recent(history, now - window as real);
      remaining := Remaining(limit, |requests|);
      if |requests| >= Burst(limit) {
        if gone { entry := None; }
        clock := now;
        return false, remaining, Some(RetryAfter(requests, now, window));
      }
      Admit(now, requests, gone);
      return true, remaining, None;
    }

    /** Appends this call to the pruned list and stores it for two windows. */
    method Admit(now: real, requests: seq<real>, ghost gone: bool)
      requires Valid() && now >= clock
      requires InStep(Stored(gone), history, now - Window())
      requires requests == Recent(Stored(gone), now - Window()) && |requests| < Burst(limit)
      modifies this
      ensures Valid() && clock == now && history == old(history) + [now]
    {
      AdmissionKeepsStep(history, Stored(gone), Window(), Burst(limit), now);
      history, clock := history + [now], now;
      entry := Some(Entry(requests + [now], now + 2.0 * window as real));
    }

    /** reset. */
    method Reset()
      requires Valid()
      modifies this`entry, this`history
      ensures Valid() && history == [] && entry == None
    {
      entry, history := None, [];
    }
  }
}
