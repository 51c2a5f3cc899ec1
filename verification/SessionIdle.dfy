/** Signing an idle portal session out, over whole seconds of a clock that never
    runs back. */
module SessionIdle {
  import opened Wrappers

  const STAMP_INTERVAL: int := 60

  class Session {
    const timeout: int
    var authenticated: bool
    var stamp: Option<int>
    ghost var lastSeen: Option<int>   // the last authenticated request that was let through
    ghost var stamps: seq<int>        // every stamp written in this session

    /** The stamp lags the last authenticated request by less than a minute, and
        is written at most once a minute. */
    ghost predicate Valid()
      reads this
    {
      && (stamp.Some? <==> lastSeen.Some?)
      && (stamp.Some? ==> stamp.value <= lastSeen.value < stamp.value + STAMP_INTERVAL)
      && (stamp.Some? ==> stamps != [] && stamps[|stamps| - 1] == stamp.value)
      && (stamp.None? ==> stamps == [])
      && (forall i :: 0 <= i < |stamps| - 1 ==> stamps[i] + STAMP_INTERVAL <= stamps[i + 1])
      && (!authenticated ==> lastSeen.None?)
    }

    ghost function Lag(): int
      reads this
    {
      if stamp.Some? && lastSeen.Some? then lastSeen.value - stamp.value else 0
    }

    constructor (timeout: int)
      ensures Valid() && !authenticated && this.timeout == timeout
    {
      this.timeout := timeout;
      authenticated, stamp, lastSeen, stamps := false, None, None, [];
    }

    method LogIn()
      requires Valid() && !authenticated
      modifies this
      ensures Valid() && authenticated && lastSeen == None
    {
      authenticated := true;
    }

    /** SessionIdleTimeoutMiddleware.__call__. */
    method Request(now: int) returns (signedOut: bool)
      requires Valid()
      requires lastSeen.Some? ==> now >= lastSeen.value
      modifies this
      ensures Valid()
      ensures authenticated <==> old(authenticated) && !signedOut
      ensures authenticated ==> lastSeen == Some(now)
      ensures signedOut ==> stamp.None?
      // Idle longer than the timeout: out at the next request.
      ensures old(lastSeen).Some? && now - old(lastSeen).value > timeout ==> signedOut
      // Never idle longer than the timeout less 59 seconds: never out.
      ensures signedOut ==> old(lastSeen).Some? && now - old(lastSeen).value > timeout - (STAMP_INTERVAL - 1)
      // In between, the lag of the stamp decides.
      ensures signedOut <==> (&& old(stamp).Some? && old(lastSeen).Some?
                              && (now - old(lastSeen).value) + old(Lag()) > timeout)
    {
      signedOut := false;
      if !authenticated { return; }
      if stamp.Some? && now - stamp.value > timeout {
        authenticated, stamp, lastSeen, stamps := false, None, None, [];
        return true;
      }
      if stamp.None? || now - stamp.value >= STAMP_INTERVAL {
        stamp, stamps := Some(now), stamps + [now];
      }
      lastSeen := Some(now);
    }
  }

  // ---- Whole histories, as the middleware sees them ----

  /** The stamp after a request at `now` that was let through. */
  function NextStamp(stamp: Option<int>, now: int): int {
    if stamp.None? || now - stamp.value >= STAMP_INTERVAL then now else stamp.value
  }

  /** The stamp after authenticated requests at these times, none signed out. */
  function StampAfter(times: seq<int>): Option<int> {
    if times == [] then None
    else Some(NextStamp(StampAfter(times[..|times| - 1]), times[|times| - 1]))
  }

  ghost predicate Ordered(times: seq<int>) {
    forall i :: 0 <= i < |times| - 1 ==> times[i] <= times[i + 1]
  }

  /** Whether a request at `now` would be signed out after that history. */
  predicate SignsOut(times: seq<int>, now: int, timeout: int) {
    times != [] && now - StampAfter(times).value > timeout
  }

  lemma {:induction false} StampLagsByLessThanAMinute(times: seq<int>)
    requires Ordered(times) && times != []
    ensures StampAfter(times).value in times
    ensures StampAfter(times).value <= times[|times| - 1] < StampAfter(times).value + STAMP_INTERVAL
  {
    var n := |times| - 1;
    if n > 0 {
      assert times[..n][n - 1] == times[n - 1];
      StampLagsByLessThanAMinute(times[..n]);
    }
  }

  /** In every history: a session idle longer than the timeout is signed out at
      its next request, and one never idle longer than the timeout less 59
      seconds never is. Neither bound can be moved: at every gap in between
      there is a history that signs out and one that does not. */
  lemma IdleDecidesSigningOut(times: seq<int>, now: int, timeout: int)
    requires Ordered(times) && times != [] && now >= times[|times| - 1]
    ensures var idle := now - times[|times| - 1];
            && (idle > timeout ==> SignsOut(times, now, timeout))
            && (idle <= timeout - 59 ==> !SignsOut(times, now, timeout))
  {
    StampLagsByLessThanAMinute(times);
  }

  lemma IdleBoundsAreTight(idle: int, timeout: int) returns (keeps: seq<int>, ends: seq<int>, keepsAt: int, endsAt: int)
    requires timeout >= 59 && timeout - 59 < idle <= timeout
    ensures Ordered(keeps) && keeps != [] && keepsAt == keeps[|keeps| - 1] + idle && !SignsOut(keeps, keepsAt, timeout)
    ensures Ordered(ends) && ends != [] && endsAt == ends[|ends| - 1] + idle && SignsOut(ends, endsAt, timeout)
  {
    keeps, keepsAt := [0], idle;
    ends, endsAt := [0, 59], 59 + idle;
    assert ends[..1] == [0] && [0][..0] == [];
    assert StampAfter([0]) == Some(0);
    assert StampAfter(ends) == Some(0);
  }
}
