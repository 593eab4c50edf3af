/**
 * Over whole runs: each executor that enters the session tables is reported for shutdown once,
 * whoever tears it down.
 */
module SessionShutdowns {
  import opened Options
  import opened SessionTables
  import opened SessionOperations
  import opened SessionProtocol

  /** The executors behind the browsers of the table. */
  function Live(t: Tables): set<nat> {
    Executors(t, t.browsers.Keys)
  }

  /**
   * The executors that one critical section reports as gone from the table: to be shut down, or for
   * `DoEnded`, already ended. These are the obligations in the contracts of `DaemonTables`.
   */
  function Reported(s: State, a: Action): set<nat>
    requires Enabled(s, a)
  {
    var t := s.tables;
    match a
    case DoReap => Executors(t, Dropped(t, ExpiredLeases(t, s.now)))
    case DoRevoke(principal) => Executors(t, Dropped(t, LeasesOf(t, principal)))
    case DoDrain(ns) => Executors(t, NamespaceBrowsers(t, ns))
    case DoDisconnect(session, _, id) =>
      if t.browsers[id].leases.Keys == {session} then {t.browsers[id].executor} else {}
    case DoEnded(id) => Executors(t, {id})
    case Expire(task) => PastDeadline(t, s.tasks[task].id, s.now)
    case LeaseGranted(task, _, _, _) => PastDeadline(t, s.tasks[task].id, s.now)
    case _ => {}
  }

  function PastDeadline(t: Tables, id: string, now: nat): set<nat> {
    if id in t.browsers && t.browsers[id].deadline <= now then {t.browsers[id].executor} else {}
  }

  function EnteredBy(s: State, a: Action): set<nat>
    requires Enabled(s, a)
  {
    if a.Enter? then {s.tasks[a.task].browser.executor} else {}
  }

  // One critical section.

  lemma CullLive(t: Tables, gone: set<LeaseRef>)
    requires ExecutorsUnique(t)
    ensures Live(Cull(t, gone)) == Live(t) - Executors(t, Dropped(t, gone))
    ensures Executors(t, Dropped(t, gone)) <= Live(t)
  {
    var t' := Cull(t, gone);
    forall e | e in Live(t') ensures e in Live(t) - Executors(t, Dropped(t, gone)) {
      var id :| id in t'.browsers && t'.browsers[id].executor == e;
      assert id in t.browsers && t.browsers[id].executor == e;
    }
    forall e | e in Live(t) - Executors(t, Dropped(t, gone)) ensures e in Live(t') {
      var id :| id in t.browsers && t.browsers[id].executor == e;
      assert id !in Dropped(t, gone);
      assert id in t'.browsers && t'.browsers[id].executor == e;
    }
  }

  lemma WholeBrowsersDropped(t: Tables, ids: set<string>)
    requires NoneEmpty(t)
    ensures Executors(t, Dropped(t, AllLeases(t, ids))) == Executors(t, ids)
  {
    var gone := AllLeases(t, ids);
    forall id | id in t.browsers
      ensures Left(t.browsers[id], id, gone) == if id in ids then map[] else t.browsers[id].leases
    {
    }
    assert Dropped(t, gone) == set id | id in ids && id in t.browsers;
  }

  lemma LastLeaseDropped(t: Tables, id: string, session: string)
    requires HasLease(t, id, session) && NoneEmpty(t)
    ensures Executors(t, Dropped(t, {(id, session)})) ==
      if t.browsers[id].leases.Keys == {session} then {t.browsers[id].executor} else {}
  {
    var gone := {(id, session)};
    var b := t.browsers[id];
    forall i | i in t.browsers && i != id ensures Left(t.browsers[i], i, gone) == t.browsers[i].leases {
    }
    assert Left(b, id, gone).Keys == b.leases.Keys - {session};
    assert Left(b, id, gone) == map[] <==> Left(b, id, gone).Keys == {};
    assert b.leases.Keys - {session} == {} <==> b.leases.Keys == {session};
    assert Dropped(t, gone) == if b.leases.Keys == {session} then {id} else {};
  }

  /** A teardown takes exactly the reported executors out of the table. */
  lemma TeardownReports(s: State, a: Action)
    requires Inv(s) && Enabled(s, a) && (a.DoDisconnect? || a.DoReap? || a.DoDrain? || a.DoRevoke? || a.DoEnded?)
    ensures Live(Do(s, a).tables) == Live(s.tables) - Reported(s, a) && Reported(s, a) <= Live(s.tables)
  {
    var t := s.tables;
    assert Consistent(t, Orphans(s));
    ConsistentParts(t, Orphans(s));
    hide Consistent, TasksOk, GatesOk, TasksApart, IdsUsed, Orphans, ExecutorsUnique, NoneEmpty;
    hide Cull, Dropped, Executors, Live, AllLeases, ExpiredLeases, LeasesOf, NamespaceBrowsers;
    match a
    case DoDisconnect(session, _, id) =>
      CullLive(t, {(id, session)});
      LastLeaseDropped(t, id, session);
    case DoReap => CullLive(t, ExpiredLeases(t, s.now));
    case DoRevoke(principal) => CullLive(t, LeasesOf(t, principal));
    case DoDrain(ns) =>
      CullLive(t, AllLeases(t, NamespaceBrowsers(t, ns)));
      WholeBrowsersDropped(t, NamespaceBrowsers(t, ns));
    case DoEnded(id) =>
      CullLive(t, AllLeases(t, {id}));
      WholeBrowsersDropped(t, {id});
  }

  lemma AddLeaseLive(t: Tables, id: string, session: string, lease: Lease)
    requires id in t.browsers
    ensures Live(AddLease(t, id, session, lease)) == Live(t)
  {
    var t' := AddLease(t, id, session, lease);
    forall e | e in Live(t) ensures e in Live(t') {
      var i :| i in t.browsers && t.browsers[i].executor == e;
      assert i in t'.browsers && t'.browsers[i].executor == e;
    }
    forall e | e in Live(t') ensures e in Live(t) {
      var i :| i in t'.browsers && t'.browsers[i].executor == e;
      assert i in t.browsers && t.browsers[i].executor == e;
    }
  }

  /** A browser past its deadline, taken by a login that wanted to join it. */
  lemma ExpiryReports(t: Tables, id: string, now: nat, orphans: set<string>)
    requires Consistent(t, orphans) && id in t.browsers && t.browsers[id].deadline <= now
    ensures Live(Cull(t, AllLeases(t, {id}))) == Live(t) - PastDeadline(t, id, now) &&
        PastDeadline(t, id, now) <= Live(t)
  {
    ConsistentParts(t, orphans);
    assert Executors(t, {id}) == {t.browsers[id].executor};
    hide Consistent, ExecutorsUnique, NoneEmpty, Cull, Dropped, Executors, Live, AllLeases;
    CullLive(t, AllLeases(t, {id}));
    WholeBrowsersDropped(t, {id});
  }

  lemma JoinReports(t: Tables, id: string, session: string, targetId: string, principal: string, ttl: nat, now: nat,
                    orphans: set<string>)
    requires Consistent(t, orphans)
    ensures
      var t' := JoinedTables(t, id, session, targetId, principal, ttl, now);
      Live(t') == Live(t) - PastDeadline(t, id, now) && PastDeadline(t, id, now) <= Live(t)
  {
    if id in t.browsers && t.browsers[id].deadline <= now {
      ExpiryReports(t, id, now, orphans);
    } else if id in t.browsers {
      AddLeaseLive(t, id, session, Lease(principal, LeaseExpiry(now, ttl, t.browsers[id].deadline), Tab(targetId)));
    }
  }

  lemma EnterLive(t: Tables, id: string, b: Browser)
    requires id !in t.browsers
    ensures Live(AddBrowser(t, id, b)) == Live(t) + {b.executor}
  {
    var t' := AddBrowser(t, id, b);
    forall e | e in Live(t) + {b.executor} ensures e in Live(t') {
      if e == b.executor {
        assert t'.browsers[id].executor == e;
      } else {
        var i :| i in t.browsers && t.browsers[i].executor == e;
        assert t'.browsers[i].executor == e;
      }
    }
    forall e | e in Live(t') ensures e in Live(t) + {b.executor} {
      var i :| i in t'.browsers && t'.browsers[i].executor == e;
      assert i != id ==> i in t.browsers && t.browsers[i].executor == e;
    }
  }

  lemma JoinStepReports(s: State, a: Action)
    requires Inv(s) && Enabled(s, a) && (a.LeaseGranted? || a.Expire?)
    ensures Live(Do(s, a).tables) == Live(s.tables) - Reported(s, a) && Reported(s, a) <= Live(s.tables)
  {
    hide Live, JoinedTables, Consistent, TasksOk, GatesOk, TasksApart, IdsUsed, Cull, AllLeases;
    var id := s.tasks[a.task].id;
    if a.LeaseGranted? {
      var launch := s.tasks[a.task].launch;
      JoinReports(s.tables, id, a.session, a.targetId, launch.key.principal, a.ttl, s.now, Orphans(s));
    } else if id in s.tables.browsers && s.tables.browsers[id].deadline <= s.now {
      ExpiryReports(s.tables, id, s.now, Orphans(s));
    }
  }

  lemma EnterStepReports(s: State, a: Action)
    requires Inv(s) && Enabled(s, a) && a.Enter?
    ensures Live(Do(s, a).tables) == Live(s.tables) + EnteredBy(s, a)
  {
    hide Live, Consistent, TasksOk, GatesOk, TasksApart, AddBrowser;
    EnterLive(s.tables, a.id, s.tasks[a.task].browser);
  }

  predicate Quiet(a: Action) {
    !(a.DoDisconnect? || a.DoReap? || a.DoDrain? || a.DoRevoke? || a.DoEnded? ||
      a.LeaseGranted? || a.Expire? || a.Enter?)
  }

  lemma QuietStep(s: State, a: Action)
    requires Enabled(s, a) && Quiet(a)
    ensures Do(s, a).tables.browsers == s.tables.browsers && Reported(s, a) == {} && EnteredBy(s, a) == {}
  {
  }

  /** What one critical section does to the executors in the table: the reported ones leave, the entered one comes. */
  lemma StepReports(s: State, a: Action)
    requires Inv(s) && Enabled(s, a)
    ensures Reported(s, a) <= Live(s.tables)
    ensures Live(Do(s, a).tables) == (Live(s.tables) - Reported(s, a)) + EnteredBy(s, a)
  {
    hide Do, Enabled, Inv;
    if Quiet(a) {
      QuietStep(s, a);
    } else if a.Enter? {
      hide Live;
      EnterStepReports(s, a);
    } else {
      hide Live, Reported;
      if a.LeaseGranted? || a.Expire? {
        JoinStepReports(s, a);
      } else {
        TeardownReports(s, a);
      }
    }
  }

  /** An executor in a task's hands stays there, or was never used before. */
  lemma StepCarries(s: State, a: Action, task: nat)
    requires Enabled(s, a) && task in Do(s, a).tasks && HasExecutor(Do(s, a).tasks[task])
    ensures
      var e := ExecutorOf(Do(s, a).tasks[task]);
      e !in s.usedExecutors || (task in s.tasks && HasExecutor(s.tasks[task]) && ExecutorOf(s.tasks[task]) == e)
  {
    hide JoinedTables, Cull, AddBrowser;
  }

  lemma StepUses(s: State, a: Action)
    requires Enabled(s, a)
    ensures s.usedExecutors <= Do(s, a).usedExecutors
  {
    hide JoinedTables, Cull, AddBrowser;
  }

  // Whole runs.

  function EnteredSoFar(states: seq<State>, actions: seq<Action>, n: nat): set<nat>
    requires Steps(states, actions) && n <= |actions|
  {
    if n == 0 then {} else EnteredSoFar(states, actions, n - 1) + EnteredBy(states[n - 1], actions[n - 1])
  }

  function ReportedSoFar(states: seq<State>, actions: seq<Action>, n: nat): set<nat>
    requires Steps(states, actions) && n <= |actions|
  {
    if n == 0 then {} else ReportedSoFar(states, actions, n - 1) + Reported(states[n - 1], actions[n - 1])
  }

  /** No executor that has entered is in a task's hands. */
  predicate Spent(s: State, entered: set<nat>) {
    && entered <= s.usedExecutors
    && forall task | task in s.tasks && HasExecutor(s.tasks[task]) :: ExecutorOf(s.tasks[task]) !in entered
  }

  lemma EntererLeaves(s: State, a: Action)
    requires Inv(s) && Enabled(s, a) && a.Enter?
    ensures Spent(Do(s, a), EnteredBy(s, a)) && EnteredBy(s, a) !! Live(s.tables)
  {
    var pc := s.tasks[a.task];
    assert PcOk(s, pc);
    forall task | task in s.tasks && task != a.task && HasExecutor(s.tasks[task])
      ensures ExecutorOf(s.tasks[task]) != ExecutorOf(pc)
    {
      assert Apart(s.tasks[task], pc);
    }
  }

  lemma StepSpends(s: State, a: Action, entered: set<nat>)
    requires Inv(s) && Enabled(s, a) && Spent(s, entered)
    ensures Spent(Do(s, a), entered + EnteredBy(s, a)) && EnteredBy(s, a) !! entered
  {
    hide Do, Enabled, Inv;
    var s' := Do(s, a);
    StepUses(s, a);
    forall task | task in s'.tasks && HasExecutor(s'.tasks[task]) ensures ExecutorOf(s'.tasks[task]) !in entered {
      StepCarries(s, a, task);
    }
    if a.Enter? {
      EntererLeaves(s, a);
      EntererKnown(s, a);
    }
  }

  lemma EntererKnown(s: State, a: Action)
    requires Enabled(s, a) && a.Enter?
    ensures a.task in s.tasks && HasExecutor(s.tasks[a.task]) && EnteredBy(s, a) == {ExecutorOf(s.tasks[a.task])}
  {
  }

  /** Conservation: what has entered is in the table or was reported, and not both. */
  lemma {:induction false} ExecutorsConserved(states: seq<State>, actions: seq<Action>, n: nat)
    requires IsRun(states, actions) && n <= |actions|
    ensures Spent(states[n], EnteredSoFar(states, actions, n))
    ensures EnteredSoFar(states, actions, n) == Live(states[n].tables) + ReportedSoFar(states, actions, n)
    ensures Live(states[n].tables) !! ReportedSoFar(states, actions, n)
  {
    if n > 0 {
      hide Do, Enabled, Inv, Live, Spent;
      ExecutorsConserved(states, actions, n - 1);
      RunKeepsInv(states, actions, n - 1);
      StepReports(states[n - 1], actions[n - 1]);
      StepSpends(states[n - 1], actions[n - 1], EnteredSoFar(states, actions, n - 1));
    }
  }

  lemma {:induction false} ReportedGrows(states: seq<State>, actions: seq<Action>, i: nat, n: nat)
    requires Steps(states, actions) && i < n <= |actions|
    ensures Reported(states[i], actions[i]) <= ReportedSoFar(states, actions, n)
    ensures EnteredBy(states[i], actions[i]) <= EnteredSoFar(states, actions, n)
    decreases n
  {
    hide Do, Enabled, Reported, EnteredBy;
    if i < n - 1 {
      ReportedGrows(states, actions, i, n - 1);
    }
  }

  /**
   * Over any run, across reapers, disconnect, vault lock, peer revocation, expiry on join and executor
   * end: an executor enters the table at most once, is reported at most once, only while it is in the
   * table, and is in the table until then. So one that entered is still there or was reported by exactly
   * one critical section.
   */
  lemma OneShutdownEach(states: seq<State>, actions: seq<Action>, n: nat, e: nat)
    requires IsRun(states, actions) && n <= |actions| && e in EnteredSoFar(states, actions, n)
    ensures e in Live(states[n].tables) <==> forall i | 0 <= i < n :: e !in Reported(states[i], actions[i])
    ensures forall i, j | 0 <= i < j < n ::
              !(e in Reported(states[i], actions[i]) && e in Reported(states[j], actions[j])) &&
              !(e in EnteredBy(states[i], actions[i]) && e in EnteredBy(states[j], actions[j]))
  {
    hide Do, Enabled, Reported, EnteredBy, Live, Spent, Inv;
    ExecutorsConserved(states, actions, n);
    forall i | 0 <= i < n ensures e in Reported(states[i], actions[i]) ==> e in ReportedSoFar(states, actions, n) {
      ReportedGrows(states, actions, i, n);
    }
    if e in ReportedSoFar(states, actions, n) {
      var i := ReportedAt(states, actions, n, e);
    }
    forall i, j | 0 <= i < j < n
      ensures !(e in Reported(states[i], actions[i]) && e in Reported(states[j], actions[j])) &&
              !(e in EnteredBy(states[i], actions[i]) && e in EnteredBy(states[j], actions[j]))
    {
      ReportedGrows(states, actions, i, j);
      ExecutorsConserved(states, actions, j);
      RunKeepsInv(states, actions, j);
      StepReports(states[j], actions[j]);
      StepSpends(states[j], actions[j], EnteredSoFar(states, actions, j));
    }
  }

  lemma {:induction false} ReportedAt(states: seq<State>, actions: seq<Action>, n: nat, e: nat) returns (i: nat)
    requires Steps(states, actions) && n <= |actions| && e in ReportedSoFar(states, actions, n)
    ensures i < n && e in Reported(states[i], actions[i])
  {
    hide Do, Enabled, Reported;
    if e in Reported(states[n - 1], actions[n - 1]) {
      i := n - 1;
    } else {
      i := ReportedAt(states, actions, n - 1, e);
    }
  }
}
