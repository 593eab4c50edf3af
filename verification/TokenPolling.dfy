/** Polling the token endpoint with a device code (sections 3.4 and 3.5 of RFC 8628). Times are in milliseconds. */
module TokenPolling {
  const SLOW_DOWN_INCREMENT := 5000.0
  const MAX_POLL_WINDOW := 45000.0
  const REQUEST_TIMEOUT := 10000.0

  /** The classified answer to one token request; `Failed` is any answer or error that ends the grant. */
  datatype Reply = Token(accessToken: string) | Pending | SlowDown | Failed

  datatype Poll = Poll(at: real, timeout: real, reply: Reply)

  datatype Outcome = Granted(accessToken: string) | TimedOut | Aborted | Refused

  function Min(x: real, y: real): real {
    if x <= y then x else y
  }

  function PollDeadline(receivedAt: real, expiresIn: real, pollStartedAt: real, budgetDeadline: real): (deadline: real)
    ensures deadline <= receivedAt + expiresIn * 1000.0 && deadline <= pollStartedAt + 45000.0 &&
        deadline <= budgetDeadline
    ensures deadline in {receivedAt + expiresIn * 1000.0, pollStartedAt + 45000.0, budgetDeadline}
  {
    Min(Min(receivedAt + expiresIn * 1000.0, pollStartedAt + MAX_POLL_WINDOW), budgetDeadline)
  }

  /** The outside world: a clock that never runs backwards, a sleep that is never short, and a token endpoint. */
  class World {
    var clock: real
    var polls: seq<Poll>
    /** The grant's abort signal. */
    var signalled: bool

    constructor ()
      ensures polls == [] && !signalled
    {
      clock := *;
      polls := [];
      signalled := false;
    }

    method Pass()
      modifies this`clock
      ensures clock >= old(clock)
    {
      var elapsed: real := *;
      if elapsed > 0.0 {
        clock := clock + elapsed;
      }
    }

    method Now() returns (now: real)
      modifies this`clock
      ensures now == clock >= old(clock)
    {
      Pass();
      now := clock;
    }

    method Sleep(ms: real) returns (aborted: bool)
      modifies this`clock, this`signalled
      ensures clock >= old(clock) && aborted == signalled
      ensures !aborted ==> clock >= old(clock) + ms
    {
      Pass();
      aborted := *;
      aborted := aborted || signalled;
      signalled := aborted;
      if !aborted && ms > 0.0 {
        clock := clock + ms;
      }
    }

    method Post(timeout: real) returns (reply: Reply)
      modifies this
      ensures clock >= old(clock)
      ensures polls == old(polls) + [Poll(old(clock), timeout, reply)]
    {
      reply := *;
      polls := polls + [Poll(clock, timeout, reply)];
      Pass();
    }
  }

  function SlowDowns(polls: seq<Poll>): nat {
    if polls == [] then 0
    else SlowDowns(polls[..|polls| - 1]) + if polls[|polls| - 1].reply.SlowDown? then 1 else 0
  }

  /** The interval in force after `polls`. */
  function Interval(base: real, polls: seq<Poll>): real {
    base + SLOW_DOWN_INCREMENT * SlowDowns(polls) as real
  }

  /** When the last request was sent; before the first, when the device code was received. */
  function LastAt(polls: seq<Poll>, receivedAt: real): real {
    if polls == [] then receivedAt else polls[|polls| - 1].at
  }

  /** Every request waits out the interval in force and is sent, with its whole timeout, before the deadline. */
  predicate Paced(polls: seq<Poll>, base: real, receivedAt: real, deadline: real) {
    forall k :: 0 <= k < |polls| ==>
      && polls[k].at >= LastAt(polls[..k], receivedAt) + Interval(base, polls[..k])
      && polls[k].at < deadline && polls[k].timeout == Min(REQUEST_TIMEOUT, deadline - polls[k].at)
  }

  predicate Unanswered(polls: seq<Poll>) {
    forall k :: 0 <= k < |polls| ==> polls[k].reply.Pending? || polls[k].reply.SlowDown?
  }

  lemma PacedSnoc(polls: seq<Poll>, p: Poll, base: real, receivedAt: real, deadline: real)
    requires Paced(polls, base, receivedAt, deadline)
    requires p.at >= LastAt(polls, receivedAt) + Interval(base, polls)
    requires p.at < deadline && p.timeout == Min(REQUEST_TIMEOUT, deadline - p.at)
    ensures Paced(polls + [p], base, receivedAt, deadline)
  {
    var all := polls + [p];
    forall k | 0 <= k < |all| ensures all[..k] == if k < |polls| then polls[..k] else polls {}
  }

  lemma SlowDownsSnoc(polls: seq<Poll>, p: Poll)
    ensures SlowDowns(polls + [p]) == SlowDowns(polls) + if p.reply.SlowDown? then 1 else 0
  {
    assert (polls + [p])[..|polls|] == polls;
  }

  /** `lastRequestAt` moves by at least the base interval each time round, which also ends the loop. */
  method PollForToken(world: World, base: real, receivedAt: real, deadline: real)
    returns (outcome: Outcome, ghost made: seq<Poll>)
    requires base > 0.0
    modifies world
    ensures world.polls == old(world.polls) + made
    ensures Paced(made, base, receivedAt, deadline)
    ensures outcome.Granted? <==> made != [] && made[|made| - 1].reply.Token?
    ensures outcome.Granted? ==> made[|made| - 1].reply.accessToken == outcome.accessToken
    ensures outcome.Refused? <==> made != [] && made[|made| - 1].reply.Failed?
    ensures Unanswered(if outcome.Granted? || outcome.Refused? then made[..|made| - 1] else made)
    ensures outcome.TimedOut? ==> LastAt(made, receivedAt) + Interval(base, made) >= deadline || world.clock >= deadline
    ensures outcome.Aborted? ==> world.signalled
  {
    hide Paced, Rounds, SlowDowns, Interval, LastAt, Tracks;
    TracksNothing(base, receivedAt, deadline);
    var interval := base;
    var lastRequestAt := receivedAt;
    made := [];
    while true
      invariant Tracks(made, base, receivedAt, deadline, interval, lastRequestAt)
      invariant world.polls == old(world.polls) + made && Unanswered(made)
      decreases Rounds(deadline, lastRequestAt, base)
    {
      TracksMeans(made, base, receivedAt, deadline, interval, lastRequestAt);
      var nextAt := lastRequestAt + interval;
      if nextAt >= deadline {
        return TimedOut, made;
      }
      var now := world.Now();
      if nextAt - now > 0.0 {
        var aborted := world.Sleep(nextAt - now);
        if aborted {
          return Aborted, made;
        }
      }
      ghost var previous := lastRequestAt;
      lastRequestAt := world.Now();
      var remaining := deadline - lastRequestAt;
      if remaining <= 0.0 {
        return TimedOut, made;
      }
      var reply := world.Post(Min(REQUEST_TIMEOUT, remaining));
      ghost var p := Poll(lastRequestAt, Min(REQUEST_TIMEOUT, remaining), reply);
      TracksSnoc(made, p, base, receivedAt, deadline, interval, previous);
      made := made + [p];
      if reply.Token? {
        return Granted(reply.accessToken), made;
      }
      if reply.Failed? {
        return Refused, made;
      }
      if reply.SlowDown? {
        interval := interval + SLOW_DOWN_INCREMENT;
      }
      Shrinks(deadline, previous, lastRequestAt, base);
    }
  }

  /** The loop's variables say what the requests made so far call for. */
  predicate Tracks(made: seq<Poll>, base: real, receivedAt: real, deadline: real, interval: real, lastRequestAt: real) {
    interval == Interval(base, made) && lastRequestAt == LastAt(made, receivedAt) &&
        Paced(made, base, receivedAt, deadline)
  }

  lemma TracksNothing(base: real, receivedAt: real, deadline: real)
    ensures Tracks([], base, receivedAt, deadline, base, receivedAt)
  {
  }

  lemma TracksMeans(made: seq<Poll>, base: real, receivedAt: real, deadline: real, interval: real, lastRequestAt: real)
    requires Tracks(made, base, receivedAt, deadline, interval, lastRequestAt)
    ensures interval == Interval(base, made) >= base && lastRequestAt == LastAt(made, receivedAt) &&
        Paced(made, base, receivedAt, deadline)
  {
    IntervalAtLeastBase(base, made);
  }

  lemma TracksSnoc(made: seq<Poll>, p: Poll, base: real, receivedAt: real, deadline: real, interval: real,
                   lastRequestAt: real)
    requires Tracks(made, base, receivedAt, deadline, interval, lastRequestAt)
    requires lastRequestAt + interval <= p.at < deadline && p.timeout == Min(REQUEST_TIMEOUT, deadline - p.at)
    ensures Tracks(made + [p], base, receivedAt, deadline,
                   if p.reply.SlowDown? then interval + SLOW_DOWN_INCREMENT else interval, p.at)
    ensures Paced(made + [p], base, receivedAt, deadline)
  {
    PacedSnoc(made, p, base, receivedAt, deadline);
    SlowDownsSnoc(made, p);
  }

  /** How many base intervals are left. */
  function Rounds(deadline: real, at: real, base: real): real
    requires base > 0.0
  {
    (deadline - at) / base
  }

  lemma Shrinks(deadline: real, before: real, after: real, base: real)
    requires base > 0.0 && after >= before + base && after < deadline
    ensures Rounds(deadline, after, base) <= Rounds(deadline, before, base) - 1.0
    ensures Rounds(deadline, before, base) >= 0.0
  {
    assert Rounds(deadline, before, base) - Rounds(deadline, after, base) == (after - before) / base;
    assert (after - before) / base >= base / base;
  }

  function Times(n: nat, x: real): real {
    n as real * x
  }

  lemma OneMore(n: nat, x: real)
    ensures Times(n + 1, x) == Times(n, x) + x
  {
  }

  lemma IntervalAtLeastBase(base: real, polls: seq<Poll>)
    ensures Interval(base, polls) >= base
  {
  }

  /** The number of requests times the base interval stays below the time from receipt to deadline. */
  lemma {:induction false} RequestsBounded(polls: seq<Poll>, base: real, receivedAt: real, deadline: real)
    requires base > 0.0 && Paced(polls, base, receivedAt, deadline)
    ensures Times(|polls|, base) <= LastAt(polls, receivedAt) - receivedAt
    ensures polls != [] ==> Times(|polls|, base) < deadline - receivedAt
  {
    if polls != [] {
      hide Times, Interval;
      var n := |polls| - 1;
      forall k | 0 <= k < n ensures polls[..n][..k] == polls[..k] {}
      RequestsBounded(polls[..n], base, receivedAt, deadline);
      assert polls[n].at >= LastAt(polls[..n], receivedAt) + Interval(base, polls[..n]);
      IntervalAtLeastBase(base, polls[..n]);
      OneMore(n, base);
    }
  }

  /** With the deadline the grant computes, polling stays inside the device code's lifetime and the 45-second window. */
  lemma PollingWindow(polls: seq<Poll>, base: real, receivedAt: real, expiresIn: real, pollStartedAt: real,
                      budgetDeadline: real)
    requires base > 0.0 && polls != []
    requires Paced(polls, base, receivedAt, PollDeadline(receivedAt, expiresIn, pollStartedAt, budgetDeadline))
    ensures Times(|polls|, base) < expiresIn * 1000.0
    ensures forall k :: 0 <= k < |polls| ==> polls[k].at + polls[k].timeout <= pollStartedAt + 45000.0
  {
    RequestsBounded(polls, base, receivedAt, PollDeadline(receivedAt, expiresIn, pollStartedAt, budgetDeadline));
  }

  /** The requests before `k` that were answered with slow_down. */
  function Slowed(polls: seq<Poll>, k: nat): set<nat>
    requires k <= |polls|
  {
    set i: nat | i < k && polls[i].reply.SlowDown?
  }

  lemma {:induction false} SlowDownsCounted(polls: seq<Poll>, k: nat)
    requires k <= |polls|
    ensures SlowDowns(polls[..k]) == |Slowed(polls, k)|
  {
    if k > 0 {
      SlowDownsCounted(polls, k - 1);
      assert polls[..k][..k - 1] == polls[..k - 1];
      assert Slowed(polls, k) == Slowed(polls, k - 1) + if polls[k - 1].reply.SlowDown? then {k - 1} else {};
    }
  }

  /**
   * The pacing in numbers: a request waits for the base interval and five seconds more for each slow_down so
   * far, from the request before it or from receipt; it is sent before the deadline, with ten seconds or what
   * is left as its timeout.
   */
  lemma PacedExactly(polls: seq<Poll>, base: real, receivedAt: real, deadline: real, k: nat)
    requires Paced(polls, base, receivedAt, deadline) && k < |polls|
    ensures polls[k].at >= (if k == 0 then receivedAt else polls[k - 1].at) + base + 5000.0 * |Slowed(polls, k)| as real
    ensures polls[k].at < deadline
    ensures polls[k].timeout == if deadline - polls[k].at < 10000.0 then deadline - polls[k].at else 10000.0
  {
    SlowDownsCounted(polls, k);
    assert k > 0 ==> polls[..k][k - 1] == polls[k - 1];
    hide SlowDowns, Slowed;
  }
}
