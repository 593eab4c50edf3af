/** Launch control per start key: the attempt limit and the failure backoff. Times are in nanoseconds. */
module StartControl {
  import opened Options

  const SECOND: nat := 1_000_000_000
  const START_ATTEMPT_WINDOW_SECS: nat := 600
  const MAX_START_ATTEMPTS: nat := 3
  const WINDOW: nat := START_ATTEMPT_WINDOW_SECS * SECOND

  datatype Control = Control(attempts: seq<nat>, consecutiveFailures: nat, retryAt: Option<nat>)

  const NEW_CONTROL := Control([], 0, None)

  /** Ages are compared in whole seconds, and a clock that runs back counts as no time at all. */
  predicate Recent(attempt: nat, now: nat) {
    (if now <= attempt then 0 else now - attempt) / SECOND < START_ATTEMPT_WINDOW_SECS
  }

  function Retain(attempts: seq<nat>, now: nat): seq<nat> {
    if attempts == [] then []
    else
      var kept := Retain(attempts[..|attempts| - 1], now);
      if Recent(attempts[|attempts| - 1], now) then kept + [attempts[|attempts| - 1]] else kept
  }

  lemma {:induction false} RetainKeepsRecent(attempts: seq<nat>, now: nat)
    ensures forall t :: multiset(Retain(attempts, now))[t] ==
              if t >= now || (now - t) / 1_000_000_000 < 600 then multiset(attempts)[t] else 0
  {
    if attempts != [] {
      var before, last := attempts[..|attempts| - 1], attempts[|attempts| - 1];
      RetainKeepsRecent(before, now);
      assert attempts == before + [last];
      assert Recent(last, now) <==> last >= now || (now - last) / 1_000_000_000 < 600;
      hide Recent;
    }
  }

  function Prune(c: Control, now: nat): Control {
    c.(attempts := Retain(c.attempts, now))
  }

  predicate Limited(c: Control, now: nat) {
    |Retain(c.attempts, now)| >= MAX_START_ATTEMPTS || (c.retryAt.Some? && c.retryAt.value > now)
  }

  function Attempt(c: Control, now: nat): Control {
    c.(attempts := Retain(c.attempts, now) + [now])
  }

  function Delay(failures: nat): nat {
    (if failures == 1 then 2 else if failures == 2 then 5 else 15) * SECOND
  }

  function Fail(c: Control, now: nat): Control {
    c.(consecutiveFailures := c.consecutiveFailures + 1, retryAt := Some(now + Delay(c.consecutiveFailures + 1)))
  }

  function Succeed(c: Control): Control {
    c.(consecutiveFailures := 0, retryAt := None)
  }

  class StartGate {
    var attempts: seq<nat>
    var consecutiveFailures: nat
    var retryAt: Option<nat>

    ghost function View(): Control
      reads this
    {
      Control(attempts, consecutiveFailures, retryAt)
    }

    constructor ()
      ensures View() == NEW_CONTROL
    {
      attempts, consecutiveFailures, retryAt := [], 0, None;
    }

    method PruneAttempts(now: nat)
      modifies this`attempts
      ensures View() == Prune(old(View()), now)
      ensures forall t :: multiset(attempts)[t] ==
                if t >= now || (now - t) / 1_000_000_000 < 600 then multiset(old(attempts))[t] else 0
    {
      var kept, i := [], 0;
      while i < |attempts|
        invariant 0 <= i <= |attempts|
        invariant kept == Retain(attempts[..i], now)
      {
        assert attempts[..i + 1][..i] == attempts[..i];
        if Recent(attempts[i], now) {
          kept := kept + [attempts[i]];
        }
        i := i + 1;
      }
      assert attempts[..|attempts|] == attempts;
      RetainKeepsRecent(attempts, now);
      attempts := kept;
    }

    method IsLimited(now: nat) returns (limited: bool)
      modifies this`attempts
      ensures limited == Limited(old(View()), now)
      ensures View() == Prune(old(View()), now)
      ensures limited <==> |attempts| >= 3 || (retryAt.Some? && now < retryAt.value)
    {
      PruneAttempts(now);
      limited := |attempts| >= MAX_START_ATTEMPTS || (retryAt.Some? && retryAt.value > now);
    }

    method RecordAttempt(now: nat)
      modifies this`attempts
      ensures View() == Attempt(old(View()), now)
      ensures attempts != [] && attempts[|attempts| - 1] == now
      ensures forall t :: multiset(attempts[..|attempts| - 1])[t] ==
                if t >= now || (now - t) / 1_000_000_000 < 600 then multiset(old(attempts))[t] else 0
    {
      PruneAttempts(now);
      attempts := attempts + [now];
      assert attempts[..|attempts| - 1] + [now] == attempts;
    }

    method RecordSuccess()
      modifies this`consecutiveFailures, this`retryAt
      ensures View() == Succeed(old(View()))
      ensures consecutiveFailures == 0 && retryAt == None
    {
      consecutiveFailures, retryAt := 0, None;
    }

    method RecordFailure(now: nat)
      modifies this`consecutiveFailures, this`retryAt
      ensures View() == Fail(old(View()), now)
      ensures consecutiveFailures == old(consecutiveFailures) + 1
      ensures retryAt == Some(now + 1_000_000_000 *
                (if consecutiveFailures == 1 then 2 else if consecutiveFailures == 2 then 5 else 15))
    {
      consecutiveFailures := consecutiveFailures + 1;
      var delay := match consecutiveFailures case 1 => 2 case 2 => 5 case _ => 15;
      retryAt := Some(now + delay * SECOND);
    }
  }

  // Every run of one key's control. Its operations are serialised by the gate, which is held from
  // the check of a launch until after its attempt is recorded.

  /**
   * `Launched` was checked at `checked` and recorded at `at`; `Abandoned` passed the check, and its
   * credential could then not be resolved or was locked, so that nothing was recorded.
   */
  datatype Event =
    | Launched(checked: nat, at: nat)
    | Abandoned(checked: nat)
    | Refused(checked: nat)
    | Failed(at: nat)
    | Succeeded(at: nat)
  {
    function Begin(): nat {
      match this
      case Launched(checked, _) => checked
      case Abandoned(checked) => checked
      case Refused(checked) => checked
      case Failed(at) => at
      case Succeeded(at) => at
    }

    function End(): nat {
      if Launched? then at else Begin()
    }
  }

  function Apply(c: Control, e: Event): Control {
    match e
    case Launched(checked, at) => Attempt(Prune(c, checked), at)
    case Abandoned(checked) => Prune(c, checked)
    case Refused(checked) => Prune(c, checked)
    case Failed(at) => Fail(c, at)
    case Succeeded(_) => Succeed(c)
  }

  function Clock(log: seq<Event>): nat {
    if log == [] then 0 else log[|log| - 1].End()
  }

  function After(log: seq<Event>): Control {
    if log == [] then NEW_CONTROL else Apply(After(log[..|log| - 1]), log[|log| - 1])
  }

  /** The clock is monotone; a launch goes on or is abandoned when the check passes, and is refused when it does not. */
  predicate IsRun(log: seq<Event>) {
    log == [] ||
    var before, e := log[..|log| - 1], log[|log| - 1];
    && IsRun(before)
    && Clock(before) <= e.Begin() <= e.End()
    && (e.Launched? || e.Abandoned? ==> !Limited(After(before), e.checked))
    && (e.Refused? ==> Limited(After(before), e.checked))
  }

  /** The times of all recorded attempts, oldest first. */
  function Launches(log: seq<Event>): seq<nat> {
    if log == [] then []
    else
      var before, e := Launches(log[..|log| - 1]), log[|log| - 1];
      if e.Launched? then before + [e.at] else before
  }

  predicate Spaced(times: seq<nat>) {
    && (forall i, j :: 0 <= i <= j < |times| ==> times[i] <= times[j])
    && (forall i, j :: 0 <= i && i + MAX_START_ATTEMPTS <= j < |times| ==> times[i] + WINDOW <= times[j])
  }

  /** The control remembers the newest launches; those it has forgotten are out of any window that is still open. */
  predicate Remembers(c: Control, times: seq<nat>, now: nat) {
    && |c.attempts| <= |times|
    && c.attempts == times[|times| - |c.attempts|..]
    && (forall i :: 0 <= i < |times| ==> times[i] <= now)
    && (forall i :: 0 <= i < |times| - |c.attempts| ==> times[i] + WINDOW <= now)
  }

  lemma {:induction false} RetainSuffix(attempts: seq<nat>, now: nat)
    requires forall i, j :: 0 <= i <= j < |attempts| ==> attempts[i] <= attempts[j]
    requires forall i :: 0 <= i < |attempts| ==> attempts[i] <= now
    ensures
      var kept := Retain(attempts, now);
      && |kept| <= |attempts|
      && kept == attempts[|attempts| - |kept|..]
      && (forall i :: 0 <= i < |attempts| - |kept| ==> attempts[i] + WINDOW <= now)
      && (forall i :: |attempts| - |kept| <= i < |attempts| ==> now < attempts[i] + WINDOW)
  {
    if attempts != [] {
      var before, last := attempts[..|attempts| - 1], attempts[|attempts| - 1];
      RetainSuffix(before, now);
      assert Recent(last, now) <==> now < last + WINDOW;
    }
  }

  lemma PruneRemembers(c: Control, times: seq<nat>, now: nat, later: nat)
    requires Spaced(times) && Remembers(c, times, now) && now <= later
    ensures Remembers(Prune(c, later), times, later)
    ensures |times| >= MAX_START_ATTEMPTS && |Prune(c, later).attempts| < MAX_START_ATTEMPTS ==>
              times[|times| - MAX_START_ATTEMPTS] + WINDOW <= later
  {
    hide Retain, Recent;
    RetainSuffix(c.attempts, later);
    SuffixRemembers(c, times, now, later, Retain(c.attempts, later));
  }

  lemma SuffixRemembers(c: Control, times: seq<nat>, now: nat, later: nat, kept: seq<nat>)
    requires Remembers(c, times, now) && now <= later
    requires |kept| <= |c.attempts| && kept == c.attempts[|c.attempts| - |kept|..]
    requires forall i :: 0 <= i < |c.attempts| - |kept| ==> c.attempts[i] + WINDOW <= later
    ensures Remembers(c.(attempts := kept), times, later)
  {
    var cut := |times| - |c.attempts|;
    forall i | cut <= i < |times| - |kept| ensures times[i] + WINDOW <= later {
      assert times[i] == c.attempts[i - cut];
    }
  }

  lemma AppendSpaced(times: seq<nat>, at: nat)
    requires Spaced(times) && forall i :: 0 <= i < |times| ==> times[i] <= at
    requires |times| >= MAX_START_ATTEMPTS ==> times[|times| - MAX_START_ATTEMPTS] + WINDOW <= at
    ensures Spaced(times + [at])
  {
  }

  lemma AppendRemembers(c: Control, times: seq<nat>, at: nat)
    requires Remembers(c, times, at)
    ensures Remembers(c.(attempts := c.attempts + [at]), times + [at], at)
  {
  }

  lemma LaunchRemembers(c: Control, times: seq<nat>, now: nat, checked: nat, at: nat)
    requires Spaced(times) && Remembers(c, times, now) && now <= checked <= at && !Limited(c, checked)
    ensures Spaced(times + [at]) && Remembers(Attempt(Prune(c, checked), at), times + [at], at)
  {
    PruneRemembers(c, times, now, checked);
    var pruned := Prune(c, checked);
    PruneRemembers(pruned, times, checked, at);
    AppendSpaced(times, at);
    AppendRemembers(Prune(pruned, at), times, at);
  }

  lemma {:induction false} RunSpacesLaunches(log: seq<Event>)
    requires IsRun(log)
    ensures Spaced(Launches(log)) && Remembers(After(log), Launches(log), Clock(log))
  {
    if log != [] {
      var before, e := log[..|log| - 1], log[|log| - 1];
      RunSpacesLaunches(before);
      var c, times, now := After(before), Launches(before), Clock(before);
      match e
      case Abandoned(checked) => PruneRemembers(c, times, now, checked);
      case Refused(checked) => PruneRemembers(c, times, now, checked);
      case Launched(checked, at) => LaunchRemembers(c, times, now, checked, at);
      case Failed(_) =>
      case Succeeded(_) =>
    }
  }

  /** Any half-open window of 600 seconds holds at most three recorded attempts. */
  lemma AtMostThreePerWindow(log: seq<Event>, start: nat)
    requires IsRun(log)
    ensures
      var times := Launches(log);
      |set i | 0 <= i < |times| && start <= times[i] < start + WINDOW| <= MAX_START_ATTEMPTS
  {
    RunSpacesLaunches(log);
    FewInside(Launches(log), start);
  }

  lemma FewInside(times: seq<nat>, start: nat)
    requires Spaced(times)
    ensures |set i | 0 <= i < |times| && start <= times[i] < start + WINDOW| <= MAX_START_ATTEMPTS
  {
    var inside := set i | 0 <= i < |times| && start <= times[i] < start + WINDOW;
    var first := 0;
    while first < |times| && times[first] < start
      invariant 0 <= first <= |times|
      invariant forall i :: 0 <= i < first ==> times[i] < start
    {
      first := first + 1;
    }
    forall i | i in inside ensures first <= i < first + MAX_START_ATTEMPTS {}
    AtMostThree(inside, first);
  }

  lemma AtMostThree(s: set<int>, first: int)
    requires forall i :: i in s ==> first <= i < first + 3
    ensures |s| <= 3
  {
    var few := {first, first + 1, first + 2};
    assert s <= few by {
      forall i | i in s ensures i in few {
        assert i == first || i == first + 1 || i == first + 2;
      }
    }
    assert few == s + (few - s);
  }

  /** Failures since the latest success. */
  function FailureStreak(log: seq<Event>): nat {
    if log == [] then 0
    else
      var before, e := FailureStreak(log[..|log| - 1]), log[|log| - 1];
      if e.Failed? then before + 1 else if e.Succeeded? then 0 else before
  }

  /** The retry time that failure `f` of the log sets. */
  function RetryTime(log: seq<Event>, f: nat): nat
    requires f < |log| && log[f].Failed?
  {
    log[f].at + Delay(FailureStreak(log[..f + 1]))
  }

  predicate SuccessBetween(log: seq<Event>, f: nat, k: nat)
    requires k <= |log|
  {
    exists i :: f < i < k && log[i].Succeeded?
  }

  lemma {:induction false} RetryCoversFailures(log: seq<Event>, f: nat)
    requires IsRun(log) && f < |log| && log[f].Failed? && !SuccessBetween(log, f, |log|)
    ensures After(log).consecutiveFailures == FailureStreak(log) > 0
    ensures After(log).retryAt.Some? && RetryTime(log, f) <= After(log).retryAt.value
    ensures log[|log| - 1].Failed? ==> After(log).retryAt.value == RetryTime(log, |log| - 1)
  {
    var before, e := log[..|log| - 1], log[|log| - 1];
    StreakFollows(before);
    assert before + [e] == log;
    if f < |before| {
      assert !SuccessBetween(before, f, |before|) by {
        assert forall i :: f < i < |before| ==> before[i] == log[i];
      }
      RetryCoversFailures(before, f);
      assert log[..f + 1] == before[..f + 1];
      assert log[|log| - 1] == e && !e.Succeeded?;
      RetryInFuture(before);
    }
    assert log[..|log|] == log;
  }

  lemma {:induction false} StreakFollows(log: seq<Event>)
    ensures After(log).consecutiveFailures == FailureStreak(log)
  {
    if log != [] {
      StreakFollows(log[..|log| - 1]);
    }
  }

  /** A pending retry time was set by a failure no later than now, with the delay of the present streak. */
  lemma {:induction false} RetryInFuture(log: seq<Event>)
    requires IsRun(log)
    ensures After(log).retryAt.Some? ==> After(log).retryAt.value <= Clock(log) + Delay(FailureStreak(log))
    ensures After(log).retryAt.Some? <==> FailureStreak(log) > 0
  {
    if log != [] {
      RetryInFuture(log[..|log| - 1]);
      StreakFollows(log[..|log| - 1]);
    }
  }

  /** No launch passes the check before the retry time of any earlier failure, unless a success came between. */
  lemma {:induction false} BackoffRespected(log: seq<Event>, f: nat, k: nat)
    requires IsRun(log) && f < k < |log| && log[f].Failed? && (log[k].Launched? || log[k].Abandoned?)
    requires !SuccessBetween(log, f, k)
    ensures RetryTime(log, f) <= log[k].checked
    ensures log[k].Launched? ==> log[k].checked <= log[k].at
  {
    var before := log[..|log| - 1];
    if k < |before| {
      assert forall i :: 0 <= i < |before| ==> before[i] == log[i];
      BackoffRespected(before, f, k);
      assert log[..f + 1] == before[..f + 1];
    } else {
      assert !SuccessBetween(before, f, |before|) by {
        assert forall i :: f < i < |before| ==> before[i] == log[i];
      }
      RetryCoversFailures(before, f);
      assert log[..f + 1] == before[..f + 1];
    }
  }

  /** The retry time never moves earlier until a success. */
  lemma RetryNeverEarlier(log: seq<Event>, f: nat, g: nat)
    requires IsRun(log) && f < g < |log| && log[f].Failed? && log[g].Failed?
    requires !SuccessBetween(log, f, g)
    ensures RetryTime(log, f) <= RetryTime(log, g)
  {
    hide IsRun, After, FailureStreak, Delay;
    var upTo := log[..g + 1];
    RunPrefix(log, g + 1);
    assert forall i :: 0 <= i <= g ==> upTo[i] == log[i];
    assert !SuccessBetween(upTo, f, |upTo|);
    RetryCoversFailures(upTo, f);
    assert upTo[..f + 1] == log[..f + 1] && upTo[..g + 1] == log[..g + 1];
  }

  lemma {:induction false} RunPrefix(log: seq<Event>, n: nat)
    requires IsRun(log) && n <= |log|
    ensures IsRun(log[..n])
  {
    if n < |log| {
      RunPrefix(log[..|log| - 1], n);
      assert log[..|log| - 1][..n] == log[..n];
    } else {
      assert log[..n] == log;
    }
  }

  /** The delays in numbers, by the failures since the latest success. */
  lemma RetryTimeExactly(log: seq<Event>, f: nat)
    requires f < |log| && log[f].Failed?
    ensures FailureStreak(log[..f + 1]) > 0
    ensures
      var streak := FailureStreak(log[..f + 1]);
      RetryTime(log, f) == log[f].at + 1_000_000_000 * if streak == 1 then 2 else if streak == 2 then 5 else 15
  {
    assert log[..f + 1][f] == log[f];
  }

  /** The latest failure, while no success has come since. */
  ghost predicate LatestFailure(log: seq<Event>, f: nat) {
    f < |log| && log[f].Failed? && forall i :: f < i < |log| ==> !log[i].Failed? && !log[i].Succeeded?
  }

  lemma {:induction false} RetryIsLatest(log: seq<Event>, f: nat)
    requires IsRun(log) && LatestFailure(log, f)
    ensures After(log).retryAt == Some(RetryTime(log, f))
  {
    var before, e := log[..|log| - 1], log[|log| - 1];
    StreakFollows(log);
    if f == |log| - 1 {
      assert log[..f + 1] == log;
      StreakFollows(before);
    } else {
      assert forall i :: 0 <= i < |before| ==> before[i] == log[i];
      RetryIsLatest(before, f);
      assert before[..f + 1] == log[..f + 1];
    }
  }

  lemma {:induction false} NoRetryWithoutFailure(log: seq<Event>)
    requires IsRun(log) && After(log).retryAt.Some?
    ensures exists f :: LatestFailure(log, f)
  {
    var before, e := log[..|log| - 1], log[|log| - 1];
    if e.Failed? {
      assert LatestFailure(log, |log| - 1);
    } else {
      NoRetryWithoutFailure(before);
      var f :| LatestFailure(before, f);
      assert forall i :: 0 <= i < |before| ==> before[i] == log[i];
      assert LatestFailure(log, f);
    }
  }

  /**
   * Who is refused, by the history alone: a check fails exactly when the third launch back is less than 600
   * seconds old, or the retry time of the latest failure, with no success since, is still ahead.
   */
  lemma LimitedExactly(log: seq<Event>, now: nat)
    requires IsRun(log) && Clock(log) <= now
    ensures
      var times := Launches(log);
      Limited(After(log), now) <==>
        || (|times| >= 3 && now < times[|times| - 3] + 600 * 1_000_000_000)
        || (exists f :: LatestFailure(log, f) && now < RetryTime(log, f))
  {
    var c, times := After(log), Launches(log);
    RunSpacesLaunches(log);
    RetainCount(c, times, Clock(log), now);
    if c.retryAt.Some? {
      NoRetryWithoutFailure(log);
    }
    forall f | LatestFailure(log, f) ensures c.retryAt == Some(RetryTime(log, f)) {
      RetryIsLatest(log, f);
    }
  }

  lemma RetainCount(c: Control, times: seq<nat>, now: nat, later: nat)
    requires Spaced(times) && Remembers(c, times, now) && now <= later
    ensures |Retain(c.attempts, later)| >= 3 <==> |times| >= 3 && later < times[|times| - 3] + WINDOW
  {
    RetainSuffix(c.attempts, later);
    var kept, cut := |Retain(c.attempts, later)|, |times| - |c.attempts|;
    assert forall i :: 0 <= i < |c.attempts| ==> c.attempts[i] == times[cut + i];
    if |times| >= 3 {
      var third := |times| - 3;
      if kept >= 3 {
        assert times[third] == c.attempts[third - cut];
      } else if third >= cut {
        assert times[third] == c.attempts[third - cut];
      }
    }
  }
}
