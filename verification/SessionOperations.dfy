/** The critical sections that change the session tables, as the daemon runs them under its mutex. */
module SessionOperations {
  import opened Options
  import opened SessionTables

  // Intermediate states inside one critical section.

  /** Whole browsers removed, with their index entries and ports. */
  function Without(t: Tables, ids: set<string>): Tables {
    Tables(t.browsers - ids, t.shared - SharedKeys(t, ids), t.ports - Sessions(AllLeases(t, ids)))
  }

  /** Leases removed, with their ports; browsers stay, even if nothing is left on them. */
  function Trim(t: Tables, gone: set<LeaseRef>): Tables {
    Tables(
      map id | id in t.browsers :: t.browsers[id].(leases := Left(t.browsers[id], id, gone)),
      t.shared,
      t.ports - Sessions(gone))
  }

  function EmptyBrowsers(t: Tables): set<string> {
    set id | id in t.browsers && t.browsers[id].leases == map[]
  }

  /** Browsers without a lease removed, with their index entries. */
  function Sweep(t: Tables): Tables {
    Tables(t.browsers - EmptyBrowsers(t), t.shared - SharedKeys(t, EmptyBrowsers(t)), t.ports)
  }

  lemma WithoutMore(t: Tables, a: set<string>, b: set<string>)
    ensures Without(Without(t, a), b) == Without(t, a + b)
  {
    var u := Without(t, a);
    assert u.browsers - b == t.browsers - (a + b);
    assert SharedKeys(t, a) + SharedKeys(u, b) == SharedKeys(t, a + b);
    assert AllLeases(t, a) + AllLeases(u, b) == AllLeases(t, a + b);
    SessionsUnion(AllLeases(t, a), AllLeases(u, b));
    assert u.shared - SharedKeys(u, b) == t.shared - SharedKeys(t, a + b);
    assert u.ports - Sessions(AllLeases(u, b)) == t.ports - Sessions(AllLeases(t, a + b));
  }

  lemma SessionsUnion(a: set<LeaseRef>, b: set<LeaseRef>)
    ensures Sessions(a + b) == Sessions(a) + Sessions(b)
  {
  }

  /** Removing whole browsers is a cull of all their leases. */
  lemma WithoutIsCull(t: Tables, ids: set<string>)
    requires NoneEmpty(t)
    ensures Without(t, ids) == Cull(t, AllLeases(t, ids))
  {
    var gone := AllLeases(t, ids);
    forall id | id in t.browsers
      ensures Left(t.browsers[id], id, gone) == if id in ids then map[] else t.browsers[id].leases
    {
    }
    assert Dropped(t, gone) == set id | id in ids && id in t.browsers;
    assert SharedKeys(t, Dropped(t, gone)) == SharedKeys(t, ids);
  }

  lemma SweepTrimIsCull(t: Tables, gone: set<LeaseRef>)
    ensures Sweep(Trim(t, gone)) == Cull(t, gone)
  {
    var u := Trim(t, gone);
    assert EmptyBrowsers(u) == Dropped(t, gone);
    assert SharedKeys(u, EmptyBrowsers(u)) == SharedKeys(t, Dropped(t, gone));
  }

  lemma TrimMore(t: Tables, gone: set<LeaseRef>, more: set<LeaseRef>)
    ensures Trim(Trim(t, gone), more) == Trim(t, gone + more)
  {
    var u, v := Trim(t, gone), Trim(t, gone + more);
    forall id | id in t.browsers ensures Left(u.browsers[id], id, more) == Left(t.browsers[id], id, gone + more) {
    }
    SessionsUnion(gone, more);
    assert Trim(u, more).ports == v.ports;
  }

  /** Browsers that a trim did not touch may as well be removed before it. */
  lemma TrimThenWithout(t: Tables, gone: set<LeaseRef>, ids: set<string>)
    requires forall g | g in gone :: g.0 !in ids
    ensures Without(Trim(t, gone), ids) == Trim(Without(t, ids), gone)
  {
    var u, v := Trim(t, gone), Without(t, ids);
    forall id | id in ids && id in t.browsers ensures u.browsers[id] == t.browsers[id] {
      assert Left(t.browsers[id], id, gone) == t.browsers[id].leases;
    }
    assert AllLeases(u, ids) == AllLeases(t, ids);
    assert SharedKeys(u, ids) == SharedKeys(t, ids);
    assert Without(u, ids).ports == Trim(v, gone).ports;
  }

  lemma LeftTwice(t: Tables, a: set<LeaseRef>, b: set<LeaseRef>, id: string)
    requires id in t.browsers
    ensures id in Dropped(t, a) ==> Left(t.browsers[id], id, a + b) == map[]
    ensures id !in Dropped(t, a) ==> Left(Cull(t, a).browsers[id], id, b) == Left(t.browsers[id], id, a + b)
  {
    var once, twice := Left(t.browsers[id], id, a), Left(t.browsers[id], id, a + b);
    assert forall s | s in twice :: s in once;
  }

  lemma DroppedTwice(t: Tables, a: set<LeaseRef>, b: set<LeaseRef>)
    ensures Dropped(t, a) + Dropped(Cull(t, a), b) == Dropped(t, a + b)
    ensures SharedKeys(t, Dropped(t, a)) + SharedKeys(Cull(t, a), Dropped(Cull(t, a), b)) ==
        SharedKeys(t, Dropped(t, a + b))
  {
    var u := Cull(t, a);
    forall id | id in t.browsers ensures id in Dropped(t, a + b) <==> id in Dropped(t, a) || id in Dropped(u, b) {
      LeftTwice(t, a, b, id);
    }
    SharedKeysSplit(t, u, Dropped(t, a), Dropped(u, b));
  }

  lemma SharedKeysSplit(t: Tables, u: Tables, x: set<string>, y: set<string>)
    requires y <= u.browsers.Keys <= t.browsers.Keys
    requires forall id | id in u.browsers ::
               u.browsers[id].key == t.browsers[id].key && u.browsers[id].exclusive == t.browsers[id].exclusive
    ensures SharedKeys(t, x) + SharedKeys(u, y) == SharedKeys(t, x + y)
  {
  }

  lemma MinusTwice<K, V>(m: map<K, V>, a: set<K>, b: set<K>)
    ensures (m - a) - b == m - (a + b)
  {
  }

  lemma CullTwiceBrowsers(t: Tables, a: set<LeaseRef>, b: set<LeaseRef>)
    ensures Cull(Cull(t, a), b).browsers == Cull(t, a + b).browsers
  {
    DroppedTwice(t, a, b);
    hide SharedKeys, Sessions, Dropped;
    var v, w := Cull(Cull(t, a), b).browsers, Cull(t, a + b).browsers;
    forall id | id in v ensures id in w && v[id] == w[id] {
      LeftTwice(t, a, b, id);
    }
    forall id | id in w ensures id in v {
      LeftTwice(t, a, b, id);
    }
  }

  lemma CullTwice(t: Tables, a: set<LeaseRef>, b: set<LeaseRef>)
    ensures Cull(Cull(t, a), b) == Cull(t, a + b)
  {
    CullTwiceBrowsers(t, a, b);
    DroppedTwice(t, a, b);
    MinusTwice(t.shared, SharedKeys(t, Dropped(t, a)), SharedKeys(Cull(t, a), Dropped(Cull(t, a), b)));
    SessionsUnion(a, b);
    MinusTwice(t.ports, Sessions(a), Sessions(b));
  }

  // What a teardown hands to the code that runs after the mutex is released.

  /** One removed lease; `shutdown` asks for the executor to be stopped as well. */
  datatype Removal = Removal(session: string, lease: Lease, executor: nat, key: BrowserKey, shutdown: bool,
      persistCookies: bool)

  ghost function RemovedSessions(rs: seq<Removal>): multiset<string> {
    if rs == [] then multiset{} else RemovedSessions(rs[..|rs| - 1]) + multiset{rs[|rs| - 1].session}
  }

  ghost function Shutdowns(rs: seq<Removal>): multiset<nat> {
    if rs == [] then multiset{}
    else Shutdowns(rs[..|rs| - 1]) + (if rs[|rs| - 1].shutdown then multiset{rs[|rs| - 1].executor} else multiset{})
  }

  ghost function BrowserSessions(bs: seq<Browser>): multiset<string> {
    if bs == [] then multiset{} else BrowserSessions(bs[..|bs| - 1]) + multiset(bs[|bs| - 1].leases.Keys)
  }

  ghost function BrowserExecutors(bs: seq<Browser>): multiset<nat> {
    if bs == [] then multiset{} else BrowserExecutors(bs[..|bs| - 1]) + multiset{bs[|bs| - 1].executor}
  }

  /** Where in a list a property holds. */
  ghost function Places<T>(s: seq<T>, p: T -> bool): set<int> {
    set i | 0 <= i < |s| && p(s[i])
  }

  lemma PlacesSnoc<T>(s: seq<T>, p: T -> bool)
    requires s != []
    ensures |Places(s, p)| == |Places(s[..|s| - 1], p)| + if p(s[|s| - 1]) then 1 else 0
  {
    var n := |s| - 1;
    assert Places(s, p) == Places(s[..n], p) + if p(s[n]) then {n} else {};
  }

  /** What the records amount to, by counting: reports of a session, and orders to stop an executor. */
  lemma {:induction false} RemovalsCount(rs: seq<Removal>, session: string, executor: nat)
    ensures RemovedSessions(rs)[session] == |Places(rs, (r: Removal) => r.session == session)|
    ensures Shutdowns(rs)[executor] == |Places(rs, (r: Removal) => r.shutdown && r.executor == executor)|
  {
    hide Places;
    var reports, stops := (r: Removal) => r.session == session, (r: Removal) => r.shutdown && r.executor == executor;
    if rs == [] {
      NoPlaces(reports);
      NoPlaces(stops);
    } else {
      RemovalsCount(rs[..|rs| - 1], session, executor);
      PlacesSnoc(rs, reports);
      PlacesSnoc(rs, stops);
    }
  }

  lemma NoPlaces<T>(p: T -> bool)
    ensures |Places([], p)| == 0
  {
  }

  lemma {:induction false} BrowsersCount(bs: seq<Browser>, session: string, executor: nat)
    ensures BrowserSessions(bs)[session] == |Places(bs, (b: Browser) => session in b.leases)|
    ensures BrowserExecutors(bs)[executor] == |Places(bs, (b: Browser) => b.executor == executor)|
  {
    hide Places;
    var holds, runs := (b: Browser) => session in b.leases, (b: Browser) => b.executor == executor;
    if bs == [] {
      NoPlaces(holds);
      NoPlaces(runs);
    } else {
      BrowsersCount(bs[..|bs| - 1], session, executor);
      PlacesSnoc(bs, holds);
      PlacesSnoc(bs, runs);
    }
  }

  lemma {:induction false} RemovalsAppend(a: seq<Removal>, b: seq<Removal>)
    ensures RemovedSessions(a + b) == RemovedSessions(a) + RemovedSessions(b)
    ensures Shutdowns(a + b) == Shutdowns(a) + Shutdowns(b)
  {
    if b == [] {
      assert a + b == a;
    } else {
      assert (a + b)[..|a + b| - 1] == a + b[..|b| - 1];
      RemovalsAppend(a, b[..|b| - 1]);
    }
  }

  function Refs(id: string, sessions: set<string>): set<LeaseRef> {
    set session | session in sessions :: (id, session)
  }

  lemma SessionsOfRefs(id: string, sessions: set<string>)
    ensures Sessions(Refs(id, sessions)) == sessions
  {
    forall s | s in sessions ensures s in Sessions(Refs(id, sessions)) {
      assert (id, s) in Refs(id, sessions);
    }
  }

  class DaemonTables {
    var browsers: map<string, Browser>
    var shared: map<BrowserKey, string>
    var ports: map<string, (string, nat)>

    ghost function View(): Tables
      reads this
    {
      Tables(browsers, shared, ports)
    }

    constructor ()
      ensures View() == NO_SESSIONS
    {
      browsers, shared, ports := map[], map[], map[];
    }

    /** Takes sessions off the port list, one at a time, in any order. */
    method ForgetPorts(sessions: set<string>)
      modifies this`ports
      ensures ports == old(ports) - sessions
    {
      var todo := sessions;
      while todo != {}
        invariant todo <= sessions && ports == old(ports) - (sessions - todo)
        decreases |todo|
      {
        var session :| session in todo;
        ports := ports - {session};
        todo := todo - {session};
      }
    }

    method TakeBrowserLocked(id: string) returns (taken: Option<Browser>)
      modifies this
      ensures taken == if id in old(browsers) then Some(old(browsers)[id]) else None
      ensures View() == Without(old(View()), {id})
      ensures browsers == old(browsers) - {id}
      ensures taken.Some? ==>
        && ports == old(ports) - taken.value.leases.Keys
        && shared == if taken.value.exclusive then old(shared) else old(shared) - {taken.value.key}
      ensures taken.None? ==> ports == old(ports) && shared == old(shared)
    {
      if id !in browsers {
        assert AllLeases(View(), {id}) == {} && SharedKeys(View(), {id}) == {};
        return None;
      }
      var b := browsers[id];
      assert AllLeases(View(), {id}) == Refs(id, b.leases.Keys);
      SessionsOfRefs(id, b.leases.Keys);
      assert SharedKeys(View(), {id}) == if b.exclusive then {} else {b.key};
      browsers := browsers - {id};
      if !b.exclusive {
        shared := shared - {b.key};
      }
      ForgetPorts(b.leases.Keys);
      taken := Some(b);
    }

    method ExpireBrowserAtDeadline(id: string, now: nat) returns (taken: Option<Browser>)
      modifies this
      ensures taken.Some? <==> id in old(browsers) && old(browsers)[id].deadline <= now
      ensures taken.Some? ==> taken.value == old(browsers)[id]
      ensures View() == if taken.Some? then Without(old(View()), {id}) else old(View())
    {
      if id in browsers && browsers[id].deadline <= now {
        taken := TakeBrowserLocked(id);
      } else {
        taken := None;
      }
    }

    /** Removes the browsers left without a lease, and their entries in the shared index. */
    method RemoveEmptyBrowsers()
      modifies this`browsers, this`shared
      ensures View() == Sweep(old(View()))
    {
      hide SharedKeys;
      ghost var t := View();
      var empty := EmptyBrowsers(Tables(browsers, shared, ports));
      var todo := empty;
      ghost var done := {};
      SweepStart(t);
      while todo != {}
        invariant todo == empty - done && done <= empty <= t.browsers.Keys
        invariant ports == t.ports
        invariant Swept(t, done, browsers, shared)
        decreases |todo|
      {
        var id :| id in todo;
        var b := browsers[id];
        SweepNext(t, done, id, browsers, shared);
        browsers := browsers - {id};
        if !b.exclusive {
          shared := shared - {b.key};
        }
        todo := todo - {id};
        done := done + {id};
      }
      assert done == empty;
    }

    /** Removes the doomed leases of one browser, and their ports. */
    method TrimBrowser(id: string, doomed: set<string>) returns (removed: seq<Removal>)
      requires id in browsers && doomed <= browsers[id].leases.Keys
      modifies this`browsers, this`ports
      ensures View() == Trim(old(View()), Refs(id, doomed))
      ensures id in browsers && Removed(old(browsers)[id], doomed, browsers[id].leases, removed)
      ensures RecordsOf(old(browsers)[id], removed)
    {
      TrimOne(View(), id, doomed);
      var leases;
      leases, removed := RemoveLeases(browsers[id], doomed);
      browsers := browsers[id := browsers[id].(leases := leases)];
      ForgetPorts(doomed);
    }

    /** One pass of the session reaper: browsers past their deadline go whole, expired leases singly, in any order. */
    method ReapSessions(now: nat, ghost orphans: set<string>)
      returns (deadlineExpired: seq<Browser>, expired: seq<Removal>)
      requires Consistent(View(), orphans)
      modifies this
      ensures Consistent(View(), orphans)
      ensures View() == Cull(old(View()), ExpiredLeases(old(View()), now))
      ensures Accounted(old(View()), ExpiredLeases(old(View()), now),
                BrowserSessions(deadlineExpired) + RemovedSessions(expired),
                BrowserExecutors(deadlineExpired) + Shutdowns(expired))
      ensures Own(old(View()), Overdue(old(View()), now), deadlineExpired) && Truthful(old(View()), expired)
      ensures forall id, session :: HasLease(View(), id, session) <==>
                && HasLease(old(View()), id, session)
                && old(browsers)[id].deadline > now && old(browsers)[id].leases[session].expiresAt > now
      ensures forall id | id in browsers :: id in old(browsers) && SameBut(old(browsers)[id], browsers[id])
      ensures forall i :: 0 <= i < |deadlineExpired| ==> deadlineExpired[i].deadline <= now
    {
      hide Trim, Without, Taken, Recorded, Stale, Overdue, Consistent, Cull, Sweep, Accounted, ExpiredLeases, Partial;
      hide Removed, Refs, Own, Truthful, RecordsOf;
      ghost var t := View();
      var todo := browsers.Keys;
      ghost var done := {};
      deadlineExpired, expired := [], [];
      ReapStart(t, now);
      while todo != {}
        invariant todo == t.browsers.Keys - done && done <= t.browsers.Keys
        invariant Reaped(t, now, done, View(), deadlineExpired, expired)
        decreases |todo|
      {
        var id :| id in todo;
        ReapLookup(t, now, done, id);
        if browsers[id].deadline <= now {
          var taken := TakeBrowserLocked(id);
          ReapDead(t, now, done, id, deadlineExpired, expired, orphans);
          deadlineExpired := deadlineExpired + [taken.value];
        } else {
          var doomed := set session | session in browsers[id].leases && browsers[id].leases[session].expiresAt <= now;
          var removed := TrimBrowser(id, doomed);
          ReapLive(t, now, done, id, deadlineExpired, expired, doomed, browsers[id].leases, removed, orphans);
          expired := expired + removed;
        }
        todo := todo - {id};
        done := done + {id};
      }
      assert done == t.browsers.Keys;
      RemoveEmptyBrowsers();
      ReapEnd(t, now, deadlineExpired, expired, orphans);
      ReapMeans(t, now, deadlineExpired, orphans);
    }

    /** The locked part of `terminate_peer_leases`. */
    method TerminatePeerLeases(principal: string, ghost orphans: set<string>) returns (removed: seq<Removal>)
      requires Consistent(View(), orphans)
      modifies this
      ensures Consistent(View(), orphans)
      ensures View() == Cull(old(View()), LeasesOf(old(View()), principal))
      ensures Accounted(old(View()), LeasesOf(old(View()), principal), RemovedSessions(removed), Shutdowns(removed))
      ensures Truthful(old(View()), removed)
      ensures forall id, session :: HasLease(View(), id, session) <==>
                HasLease(old(View()), id, session) && old(browsers)[id].leases[session].principal != principal
      ensures forall id | id in browsers :: id in old(browsers) && SameBut(old(browsers)[id], browsers[id])
    {
      hide Trim, Recorded, Consistent, Cull, Sweep, Accounted, LeasesOf, Partial, Removed, Refs, Doomed, Listed;
      hide Truthful, RecordsOf;
      ghost var t := View();
      NothingListed(t, {});
      ghost var gone := LeasesOf(t, principal);
      var todo := browsers.Keys;
      ghost var done := {};
      removed := [];
      TrimStart(t, gone);
      while todo != {}
        invariant todo == t.browsers.Keys - done && done <= t.browsers.Keys
        invariant View() == Trim(t, Partial(gone, done))
        invariant Recorded(t, gone, done, removed) && Truthful(t, removed)
        decreases |todo|
      {
        var id :| id in todo;
        TrimLookup(t, gone, done, id);
        PeerFacts(t, principal, id);
        var doomed := set session | session in browsers[id].leases &&
            browsers[id].leases[session].principal == principal;
        var more := TrimBrowser(id, doomed);
        RecordBrowser(t, gone, done, id, removed, browsers[id].leases, more, orphans);
        TrimMore(t, Partial(gone, done), Refs(id, doomed));
        PartialNext(t, gone, done, id);
        TruthfulAppend(t, removed, id, more);
        removed := removed + more;
        todo := todo - {id};
        done := done + {id};
      }
      assert done == t.browsers.Keys;
      RemoveEmptyBrowsers();
      TrimEnd(t, gone, removed, orphans) by {
        PeerListed(t, principal);
      }
      RevokeMeans(t, principal, orphans);
    }

    /** `drain_browsers`: a vault lock or shutdown takes every browser of a namespace. */
    method DrainBrowsers(ns: Option<string>, ghost orphans: set<string>) returns (taken: seq<Browser>)
      requires Consistent(View(), orphans)
      modifies this
      ensures Consistent(View(), orphans)
      ensures View() == Cull(old(View()), AllLeases(old(View()), NamespaceBrowsers(old(View()), ns)))
      ensures Taken(old(View()), NamespaceBrowsers(old(View()), ns), taken)
      ensures Own(old(View()), NamespaceBrowsers(old(View()), ns), taken)
      ensures forall id :: id in browsers <==> id in old(browsers) && ns.Some? && old(browsers)[id].key.ns != ns.value
      ensures forall id | id in browsers :: browsers[id] == old(browsers)[id]
    {
      hide Own, Without, Taken, Consistent, Cull, AllLeases, SessionsUnique, ExecutorsUnique, NoneEmpty;
      ghost var t := View();
      ConsistentParts(t, orphans);
      var selected := NamespaceBrowsers(Tables(browsers, shared, ports), ns);
      var todo := selected;
      ghost var done := {};
      taken := [];
      NothingListed(t, selected);
      WithoutStart(t);
      while todo != {}
        invariant todo == selected - done && done <= selected <= t.browsers.Keys
        invariant View() == Without(t, done)
        invariant Taken(t, done, taken) && Own(t, selected, taken)
        decreases |todo|
      {
        var id :| id in todo;
        WithoutLookup(t, done, id);
        WithoutMore(t, done, {id});
        TakeNext(t, done, id, taken);
        var b := TakeBrowserLocked(id);
        OwnSnoc(t, selected, taken, id);
        taken := taken + [b.value];
        todo := todo - {id};
        done := done + {id};
      }
      assert done == selected;
      WithoutIsCull(t, selected);
      AllListed(t, selected);
      CullKeepsConsistent(t, AllLeases(t, selected), orphans);
      DrainMeans(t, ns);
    }

    /** The search of `disconnect` for the caller's lease. */
    method FindLease(session: string, principal: string) returns (found: Option<string>)
      ensures found.Some? ==> found.value in browsers && session in browsers[found.value].leases &&
                              browsers[found.value].leases[session].principal == principal
      ensures found.None? ==> forall id | id in browsers ::
          !(session in browsers[id].leases && browsers[id].leases[session].principal == principal)
    {
      var todo := browsers.Keys;
      while todo != {}
        invariant todo <= browsers.Keys
        invariant forall id | id in browsers && id !in todo ::
                    !(session in browsers[id].leases && browsers[id].leases[session].principal == principal)
        decreases |todo|
      {
        var id :| id in todo;
        if session in browsers[id].leases && browsers[id].leases[session].principal == principal {
          return Some(id);
        }
        todo := todo - {id};
      }
      found := None;
    }

    /** `disconnect`: ends the caller's lease, and the browser with it if that was the last one. */
    method Disconnect(session: string, principal: string, ghost orphans: set<string>)
      returns (found: Option<string>, shutdown: bool)
      requires Consistent(View(), orphans)
      modifies this
      ensures Consistent(View(), orphans)
      ensures found.None? <==> forall id | HasLease(old(View()), id, session) ::
          old(browsers)[id].leases[session].principal != principal
      ensures found.None? ==> View() == old(View()) && !shutdown
      ensures found.Some? ==>
        && HasLease(old(View()), found.value, session)
        && old(browsers)[found.value].leases[session].principal == principal
        && View() == Cull(old(View()), {(found.value, session)})
        && shutdown == (found.value !in browsers)
        && shutdown == (old(browsers)[found.value].leases.Keys == {session})
        && (forall id, s :: HasLease(View(), id, s) <==>
              HasLease(old(View()), id, s) && !(id == found.value && s == session))
        && ports == old(ports) - {session}
    {
      found := FindLease(session, principal);
      if found.None? {
        return None, false;
      }
      var id := found.value;
      var b := browsers[id];
      ConsistentParts(View(), orphans);
      CullOne(View(), id, session);
      CullExactly(View(), {(id, session)});
      OnlyLease(b, session);
      CullKeepsConsistent(View(), {(id, session)}, orphans);
      hide Consistent, Cull;
      shutdown := b.leases - {session} == map[];
      if shutdown {
        browsers := browsers - {id};
        if !b.exclusive {
          shared := shared - {b.key};
        }
      } else {
        browsers := browsers[id := b.(leases := b.leases - {session})];
      }
      ports := ports - {session};
    }

    /** The last section of `spawn_executor_reaper`: the executor's output has ended. */
    method ExecutorEnded(id: string, ghost orphans: set<string>) returns (taken: Option<Browser>)
      requires Consistent(View(), orphans)
      modifies this
      ensures Consistent(View(), orphans)
      ensures taken == if id in old(browsers) then Some(old(browsers)[id]) else None
      ensures View() == Cull(old(View()), AllLeases(old(View()), {id}))
      ensures browsers == old(browsers) - {id}
      ensures taken.Some? ==>
        && ports == old(ports) - taken.value.leases.Keys
        && shared == if taken.value.exclusive then old(shared) else old(shared) - {taken.value.key}
      ensures taken.None? ==> ports == old(ports) && shared == old(shared)
    {
      ConsistentParts(View(), orphans);
      WithoutIsCull(View(), {id});
      AllListed(View(), {id});
      CullKeepsConsistent(View(), AllLeases(View(), {id}), orphans);
      hide Consistent, Cull, AllLeases, Without;
      taken := TakeBrowserLocked(id);
    }

    /** The second locked section of `join_browser`, after the executor has opened a tab. */
    method JoinLocked(id: string, session: string, targetId: string, principal: string, ttl: nat, now: nat,
                      ghost orphans: set<string>)
      returns (joined: bool, expired: Option<Browser>)
      requires Consistent(View(), orphans) && session !in ports
      requires id in browsers ==> browsers[id].key.principal == principal
      modifies this
      ensures Consistent(View(), orphans)
      ensures View() == JoinedTables(old(View()), id, session, targetId, principal, ttl, now)
      ensures joined <==> id in old(browsers) && old(browsers)[id].deadline > now
      ensures expired ==
        if id in old(browsers) && old(browsers)[id].deadline <= now then Some(old(browsers)[id]) else None
      ensures joined ==>
        var b := old(browsers)[id];
        && id in browsers && session in browsers[id].leases
        && var lease := browsers[id].leases[session];
           && lease.principal == principal && lease.target == Tab(targetId)
           && lease.expiresAt <= now + ttl && lease.expiresAt <= b.deadline
           && (lease.expiresAt == now + ttl || lease.expiresAt == b.deadline)
           && browsers == old(browsers)[id := b.(leases := b.leases[session := lease])]
           && shared == old(shared) && ports == old(ports)[session := (principal, b.port)]
      ensures expired.Some? ==>
        && browsers == old(browsers) - {id} && ports == old(ports) - expired.value.leases.Keys
        && shared == if expired.value.exclusive then old(shared) else old(shared) - {expired.value.key}
      ensures !joined && expired.None? ==> browsers == old(browsers) && shared == old(shared) && ports == old(ports)
    {
      JoinKeepsConsistent(View(), id, session, targetId, principal, ttl, now, orphans);
      ConsistentParts(View(), orphans);
      WithoutIsCull(View(), {id});
      if id in browsers && browsers[id].deadline <= now {
        expired := TakeBrowserLocked(id);
        joined := false;
      } else if id in browsers {
        var b := browsers[id];
        var lease := Lease(principal, LeaseExpiry(now, ttl, b.deadline), Tab(targetId));
        browsers := browsers[id := b.(leases := b.leases[session := lease])];
        ports := ports[session := (principal, b.port)];
        joined, expired := true, None;
      } else {
        joined, expired := false, None;
      }
    }

    /** The two steps by which a finished launch enters the tables; the mutex is free between them. */
    method RegisterPort(session: string, principal: string, port: nat, ghost orphans: set<string>)
      requires Consistent(View(), orphans) && session !in ports
      modifies this`ports
      ensures Consistent(View(), orphans + {session})
      ensures View() == AddPort(old(View()), session, principal, port)
      ensures ports == old(ports)[session := (principal, port)]
    {
      AddPortKeepsConsistent(View(), session, principal, port, orphans);
      ports := ports[session := (principal, port)];
    }

    method RegisterBrowser(id: string, b: Browser, ghost session: string, ghost orphans: set<string>)
      requires Consistent(View(), orphans) && id !in browsers && ReadyToEnter(View(), b, session, orphans)
      requires !b.exclusive ==> b.key !in shared
      modifies this`browsers, this`shared
      ensures Consistent(View(), orphans - {session})
      ensures View() == AddBrowser(old(View()), id, b)
      ensures browsers == old(browsers)[id := b]
      ensures shared == if b.exclusive then old(shared) else old(shared)[b.key := id]
    {
      AddBrowserKeepsConsistent(View(), id, b, session, orphans);
      browsers := browsers[id := b];
      if !b.exclusive {
        shared := shared[b.key := id];
      }
    }
  }

  // The teardowns by what they leave, lease by lease.

  lemma ReapMeans(t: Tables, now: nat, bs: seq<Browser>, orphans: set<string>)
    requires Consistent(t, orphans) && Own(t, Overdue(t, now), bs)
    ensures
      var t' := Cull(t, ExpiredLeases(t, now));
      && (forall id, session :: HasLease(t', id, session) <==>
            && HasLease(t, id, session)
            && t.browsers[id].deadline > now && t.browsers[id].leases[session].expiresAt > now)
      && (forall id | id in t'.browsers :: id in t.browsers && SameBut(t.browsers[id], t'.browsers[id]))
      && (forall i :: 0 <= i < |bs| ==> bs[i].deadline <= now)
  {
    ConsistentParts(t, orphans);
    CullExactly(t, ExpiredLeases(t, now));
    hide Cull, SameBut, Consistent, SessionsUnique, ExecutorsUnique, NoneEmpty;
  }

  lemma RevokeMeans(t: Tables, principal: string, orphans: set<string>)
    requires Consistent(t, orphans)
    ensures
      var t' := Cull(t, LeasesOf(t, principal));
      && (forall id, session :: HasLease(t', id, session) <==>
            HasLease(t, id, session) && t.browsers[id].leases[session].principal != principal)
      && (forall id | id in t'.browsers :: id in t.browsers && SameBut(t.browsers[id], t'.browsers[id]))
  {
    ConsistentParts(t, orphans);
    CullExactly(t, LeasesOf(t, principal));
    hide Cull, SameBut, Consistent, SessionsUnique, ExecutorsUnique, NoneEmpty;
  }

  lemma DrainMeans(t: Tables, ns: Option<string>)
    ensures
      var t' := Without(t, NamespaceBrowsers(t, ns));
      && (forall id :: id in t'.browsers <==> id in t.browsers && ns.Some? && t.browsers[id].key.ns != ns.value)
      && (forall id | id in t'.browsers :: t'.browsers[id] == t.browsers[id])
  {
  }

  lemma OnlyLease(b: Browser, session: string)
    requires session in b.leases
    ensures b.leases - {session} == map[] <==> b.leases.Keys == {session}
  {
    assert (b.leases - {session}).Keys == b.leases.Keys - {session};
    if b.leases - {session} == map[] {
      assert b.leases.Keys - {session} == {};
    } else {
      assert b.leases.Keys == {session} ==> (b.leases - {session}).Keys == {};
    }
  }

  /** The one obligation that removing `done` creates: to stop the executor, if no lease is left. */
  ghost function LastOne(b: Browser, done: set<string>): multiset<nat> {
    if done != {} && done == b.leases.Keys then multiset{b.executor} else multiset{}
  }

  /** `done` leases of `b` are removed and recorded; `leases` are left. */
  ghost predicate Removed(b: Browser, done: set<string>, leases: map<string, Lease>, removed: seq<Removal>) {
    && leases == b.leases - done
    && RemovedSessions(removed) == multiset(done)
    && Shutdowns(removed) == LastOne(b, done)
  }

  /** The record of one removed lease; only `shutdown` depends on the order of removal. */
  function RecordOf(b: Browser, session: string, shutdown: bool): Removal
    requires session in b.leases
  {
    Removal(session, b.leases[session], b.executor, b.key, shutdown, b.persistCookies)
  }

  predicate RecordsOf(b: Browser, rs: seq<Removal>) {
    forall i :: 0 <= i < |rs| ==> rs[i].session in b.leases && rs[i] == RecordOf(b, rs[i].session, rs[i].shutdown)
  }

  /** Every record names a lease of the table, with that lease's own values and those of its browser. */
  ghost predicate Truthful(t: Tables, rs: seq<Removal>) {
    forall i :: 0 <= i < |rs| ==>
      exists id :: HasLease(t, id, rs[i].session) && rs[i] == RecordOf(t.browsers[id], rs[i].session, rs[i].shutdown)
  }

  lemma TruthfulAppend(t: Tables, rs: seq<Removal>, id: string, more: seq<Removal>)
    requires Truthful(t, rs) && id in t.browsers && RecordsOf(t.browsers[id], more)
    ensures Truthful(t, rs + more)
  {
    var all := rs + more;
    forall i | 0 <= i < |all|
      ensures exists id ::
                HasLease(t, id, all[i].session) && all[i] == RecordOf(t.browsers[id], all[i].session, all[i].shutdown)
    {
      if i < |rs| {
        assert all[i] == rs[i];
      } else {
        assert all[i] == more[i - |rs|] && HasLease(t, id, all[i].session);
      }
    }
  }

  /** Every browser listed is the table's own, of those in `ids`. */
  ghost predicate Own(t: Tables, ids: set<string>, bs: seq<Browser>) {
    forall i :: 0 <= i < |bs| ==> exists id :: id in ids && id in t.browsers && bs[i] == t.browsers[id]
  }

  lemma NothingListed(t: Tables, ids: set<string>)
    ensures Own(t, ids, []) && Truthful(t, [])
  {
  }

  lemma OwnSnoc(t: Tables, ids: set<string>, bs: seq<Browser>, id: string)
    requires Own(t, ids, bs) && id in ids && id in t.browsers
    ensures Own(t, ids, bs + [t.browsers[id]])
  {
    var all := bs + [t.browsers[id]];
    forall i | 0 <= i < |all| ensures exists k :: k in ids && k in t.browsers && all[i] == t.browsers[k] {
      if i < |bs| {
        assert all[i] == bs[i];
      }
    }
  }

  lemma RemoveNothing(b: Browser)
    ensures Removed(b, {}, b.leases, []) && RecordsOf(b, [])
  {
    assert b.leases - {} == b.leases;
  }

  lemma RemoveOne(b: Browser, done: set<string>, leases: map<string, Lease>, removed: seq<Removal>, session: string)
    requires Removed(b, done, leases, removed) && RecordsOf(b, removed) && done <= b.leases.Keys
    requires session in b.leases && session !in done
    ensures
      var record := RecordOf(b, session, leases - {session} == map[]);
      Removed(b, done + {session}, leases - {session}, removed + [record]) && RecordsOf(b, removed + [record])
  {
    var record := RecordOf(b, session, leases - {session} == map[]);
    RecordsSnoc(b, removed, record);
    hide RecordsOf, RemovedSessions, Shutdowns;
    OneMore(b, done, session);
    RemovalsSnoc(removed, record);
  }

  lemma RecordsSnoc(b: Browser, rs: seq<Removal>, r: Removal)
    requires RecordsOf(b, rs) && r.session in b.leases && r == RecordOf(b, r.session, r.shutdown)
    ensures RecordsOf(b, rs + [r])
  {
  }

  /** The inner loop over one browser's doomed leases, in any order. */
  method RemoveLeases(b: Browser, doomed: set<string>) returns (leases: map<string, Lease>, removed: seq<Removal>)
    requires doomed <= b.leases.Keys
    ensures Removed(b, doomed, leases, removed) && RecordsOf(b, removed)
  {
    hide Removed, RecordsOf;
    var todo := doomed;
    ghost var done := {};
    leases, removed := b.leases, [];
    RemoveNothing(b);
    while todo != {}
      invariant todo <= doomed && done == doomed - todo
      invariant Removed(b, done, leases, removed) && RecordsOf(b, removed)
      decreases |todo|
    {
      var session :| session in todo;
      RemoveOne(b, done, leases, removed, session);
      leases := leases - {session};
      removed := removed + [Removal(session, b.leases[session], b.executor, b.key, leases == map[], b.persistCookies)];
      todo := todo - {session};
      done := done + {session};
    }
    assert done == doomed;
  }

  lemma RemovalsSnoc(rs: seq<Removal>, r: Removal)
    ensures RemovedSessions(rs + [r]) == RemovedSessions(rs) + multiset{r.session}
    ensures Shutdowns(rs + [r]) == Shutdowns(rs) + (if r.shutdown then multiset{r.executor} else multiset{})
  {
    assert (rs + [r])[..|rs|] == rs;
  }

  /** Removing one more lease empties the browser exactly when it was the last one. */
  lemma OneMore(b: Browser, done: set<string>, session: string)
    requires done <= b.leases.Keys && session in b.leases && session !in done
    ensures (b.leases - done) - {session} == b.leases - (done + {session})
    ensures b.leases - (done + {session}) == map[] <==> done + {session} == b.leases.Keys
    ensures done != b.leases.Keys
    ensures multiset(done + {session}) == multiset(done) + multiset{session}
  {
    if b.leases - (done + {session}) == map[] {
      forall s | s in b.leases.Keys ensures s in done + {session} {
        assert s !in b.leases - (done + {session});
      }
    }
  }

  ghost predicate Swept(t: Tables, ids: set<string>, browsers: map<string, Browser>, shared: map<BrowserKey, string>) {
    browsers == t.browsers - ids && shared == t.shared - SharedKeys(t, ids)
  }

  lemma SweepStart(t: Tables)
    ensures Swept(t, {}, t.browsers, t.shared)
  {
    assert SharedKeys(t, {}) == {};
  }

  lemma SweepNext(t: Tables, ids: set<string>, id: string, browsers: map<string, Browser>,
                  shared: map<BrowserKey, string>)
    requires Swept(t, ids, browsers, shared) && id in t.browsers && id !in ids
    ensures id in browsers && browsers[id] == t.browsers[id]
    ensures Swept(t, ids + {id}, browsers - {id},
                  if t.browsers[id].exclusive then shared else shared - {t.browsers[id].key})
  {
    var b := t.browsers[id];
    assert SharedKeys(t, ids + {id}) == SharedKeys(t, ids) + (if b.exclusive then {} else {b.key});
  }

  function Executors(t: Tables, ids: set<string>): set<nat> {
    set id | id in ids && id in t.browsers :: t.browsers[id].executor
  }

  /**
   * Teardown accounting: every removed lease is reported once, every browser that leaves the table
   * yields exactly one shutdown, and browsers that stay yield none.
   */
  ghost predicate Accounted(t: Tables, gone: set<LeaseRef>, reported: multiset<string>, shutdowns: multiset<nat>) {
    reported == multiset(Sessions(gone)) && shutdowns == multiset(Executors(t, Dropped(t, gone)))
  }

  function Partial(gone: set<LeaseRef>, done: set<string>): set<LeaseRef> {
    set g | g in gone && g.0 in done
  }

  function Doomed(b: Browser, id: string, gone: set<LeaseRef>): set<string> {
    set session | session in b.leases && (id, session) in gone
  }

  /** The records so far account for the browsers in `done`. */
  ghost predicate Recorded(t: Tables, gone: set<LeaseRef>, done: set<string>, removed: seq<Removal>) {
    && RemovedSessions(removed) == multiset(Sessions(Partial(gone, done)))
    && Shutdowns(removed) == multiset(Executors(t, Dropped(t, gone) * done))
  }

  lemma TrimOne(t: Tables, id: string, doomed: set<string>)
    requires id in t.browsers && doomed <= t.browsers[id].leases.Keys
    ensures Trim(t, Refs(id, doomed)) ==
      Tables(t.browsers[id := t.browsers[id].(leases := t.browsers[id].leases - doomed)], t.shared, t.ports - doomed)
  {
    var gone := Refs(id, doomed);
    SessionsOfRefs(id, doomed);
    forall i | i in t.browsers
      ensures Left(t.browsers[i], i, gone) == if i == id then t.browsers[id].leases - doomed else t.browsers[i].leases
    {
    }
  }

  lemma TrimStart(t: Tables, gone: set<LeaseRef>)
    ensures t == Trim(t, Partial(gone, {})) && Recorded(t, gone, {}, [])
  {
    assert Partial(gone, {}) == {} && Sessions({}) == {} && Executors(t, {}) == {} && Dropped(t, gone) * {} == {};
    assert forall id | id in t.browsers :: Left(t.browsers[id], id, {}) == t.browsers[id].leases;
  }

  lemma TrimLookup(t: Tables, gone: set<LeaseRef>, done: set<string>, id: string)
    requires id in t.browsers && id !in done
    ensures id in Trim(t, Partial(gone, done)).browsers && Trim(t, Partial(gone, done)).browsers[id] == t.browsers[id]
  {
    assert Left(t.browsers[id], id, Partial(gone, done)) == t.browsers[id].leases;
  }

  lemma PartialNext(t: Tables, gone: set<LeaseRef>, done: set<string>, id: string)
    requires Listed(t, gone) && id in t.browsers
    ensures Partial(gone, done + {id}) == Partial(gone, done) + Refs(id, Doomed(t.browsers[id], id, gone))
  {
    forall g | g in gone && g.0 == id ensures g in Refs(id, Doomed(t.browsers[id], id, gone)) {
      assert HasLease(t, g.0, g.1);
    }
  }

  lemma PeerListed(t: Tables, principal: string)
    ensures Listed(t, LeasesOf(t, principal))
  {
  }

  lemma PeerFacts(t: Tables, principal: string, id: string)
    requires id in t.browsers
    ensures Listed(t, LeasesOf(t, principal))
    ensures Doomed(t.browsers[id], id, LeasesOf(t, principal)) ==
      set session | session in t.browsers[id].leases && t.browsers[id].leases[session].principal == principal
  {
  }

  lemma TrimEnd(t: Tables, gone: set<LeaseRef>, removed: seq<Removal>, orphans: set<string>)
    requires Consistent(t, orphans) && Listed(t, gone) && Recorded(t, gone, t.browsers.Keys, removed)
    ensures Sweep(Trim(t, Partial(gone, t.browsers.Keys))) == Cull(t, gone)
    ensures Consistent(Cull(t, gone), orphans)
    ensures Accounted(t, gone, RemovedSessions(removed), Shutdowns(removed))
  {
    assert Partial(gone, t.browsers.Keys) == gone && Dropped(t, gone) * t.browsers.Keys == Dropped(t, gone);
    SweepTrimIsCull(t, gone);
    CullKeepsConsistent(t, gone, orphans);
  }

  /** The records of one more browser join those of the browsers done before. */
  lemma RecordBrowser(t: Tables, gone: set<LeaseRef>, done: set<string>, id: string, removed: seq<Removal>,
                      leases: map<string, Lease>, more: seq<Removal>, orphans: set<string>)
    requires Consistent(t, orphans) && Listed(t, gone) && id in t.browsers && id !in done
    requires Recorded(t, gone, done, removed)
    requires Removed(t.browsers[id], Doomed(t.browsers[id], id, gone), leases, more)
    ensures Recorded(t, gone, done + {id}, removed + more)
  {
    var b := t.browsers[id];
    var doomed := Doomed(b, id, gone);
    RemovalsAppend(removed, more);
    PartialNext(t, gone, done, id);
    SessionsUnion(Partial(gone, done), Refs(id, doomed));
    SessionsOfRefs(id, doomed);
    FreshSessions(t, gone, done, id);
    DropNext(t, gone, done, id);
  }

  lemma FreshSessions(t: Tables, gone: set<LeaseRef>, done: set<string>, id: string)
    requires SessionsUnique(t) && Listed(t, gone) && id in t.browsers && id !in done
    ensures Sessions(Partial(gone, done)) !! Doomed(t.browsers[id], id, gone)
  {
    forall s | s in Sessions(Partial(gone, done)) ensures s !in Doomed(t.browsers[id], id, gone) {
      var g :| g in Partial(gone, done) && g.1 == s;
      assert HasLease(t, g.0, s) && g.0 != id;
      assert s in t.browsers[id].leases ==> HasLease(t, id, s);
    }
  }

  lemma DropNext(t: Tables, gone: set<LeaseRef>, done: set<string>, id: string)
    requires ExecutorsUnique(t) && NoneEmpty(t) && id in t.browsers && id !in done
    ensures
      multiset(Executors(t, Dropped(t, gone) * (done + {id}))) ==
      multiset(Executors(t, Dropped(t, gone) * done)) + LastOne(t.browsers[id], Doomed(t.browsers[id], id, gone))
  {
    var b := t.browsers[id];
    var doomed, dropped := Doomed(b, id, gone), Dropped(t, gone);
    LastDoomed(b, id, gone);
    if id in dropped {
      assert dropped * (done + {id}) == dropped * done + {id};
      assert Executors(t, dropped * (done + {id})) == Executors(t, dropped * done) + {b.executor};
      assert b.executor !in Executors(t, dropped * done);
    } else {
      assert dropped * (done + {id}) == dropped * done;
    }
  }

  lemma LastDoomed(b: Browser, id: string, gone: set<LeaseRef>)
    requires b.leases != map[]
    ensures Left(b, id, gone) == map[] <==> Doomed(b, id, gone) != {} && Doomed(b, id, gone) == b.leases.Keys
  {
    assert Left(b, id, gone).Keys == b.leases.Keys - Doomed(b, id, gone);
    assert Left(b, id, gone) == map[] <==> Left(b, id, gone).Keys == {};
    assert b.leases.Keys == Doomed(b, id, gone) + Left(b, id, gone).Keys;
    assert b.leases.Keys != {};
  }

  // The session reaper's loop.

  function Overdue(t: Tables, now: nat): set<string> {
    set id | id in t.browsers && t.browsers[id].deadline <= now
  }

  /** Expired leases on browsers that are not overdue themselves. */
  function Stale(t: Tables, now: nat): set<LeaseRef> {
    set id, session | id in t.browsers && session in t.browsers[id].leases &&
      t.browsers[id].deadline > now && t.browsers[id].leases[session].expiresAt <= now :: (id, session)
  }

  ghost predicate Taken(t: Tables, ids: set<string>, bs: seq<Browser>) {
    && BrowserSessions(bs) == multiset(Sessions(AllLeases(t, ids)))
    && BrowserExecutors(bs) == multiset(Executors(t, ids))
  }

  ghost predicate Reaped(t: Tables, now: nat, done: set<string>, u: Tables, bs: seq<Browser>, rs: seq<Removal>) {
    && u == Trim(Without(t, Overdue(t, now) * done), Partial(Stale(t, now), done))
    && Taken(t, Overdue(t, now) * done, bs) && Own(t, Overdue(t, now), bs)
    && Recorded(t, Stale(t, now), done, rs) && Truthful(t, rs)
  }

  lemma ReapStart(t: Tables, now: nat)
    ensures Reaped(t, now, {}, t, [], [])
  {
    TrimStart(t, Stale(t, now));
    NothingListed(t, Overdue(t, now));
    assert Overdue(t, now) * {} == {} && AllLeases(t, {}) == {} && SharedKeys(t, {}) == {};
    assert Without(t, {}) == t;
  }

  lemma ReapLookup(t: Tables, now: nat, done: set<string>, id: string)
    requires id in t.browsers && id !in done
    ensures
      var u := Trim(Without(t, Overdue(t, now) * done), Partial(Stale(t, now), done));
      id in u.browsers && u.browsers[id] == t.browsers[id]
  {
    TrimLookup(Without(t, Overdue(t, now) * done), Stale(t, now), done, id);
  }

  lemma FreshBrowser(t: Tables, ids: set<string>, id: string)
    requires SessionsUnique(t) && ExecutorsUnique(t) && id in t.browsers && id !in ids
    ensures Sessions(AllLeases(t, ids + {id})) == Sessions(AllLeases(t, ids)) + t.browsers[id].leases.Keys
    ensures Sessions(AllLeases(t, ids)) !! t.browsers[id].leases.Keys
    ensures Executors(t, ids + {id}) == Executors(t, ids) + {t.browsers[id].executor}
    ensures t.browsers[id].executor !in Executors(t, ids)
  {
    var b := t.browsers[id];
    assert AllLeases(t, ids + {id}) == AllLeases(t, ids) + Refs(id, b.leases.Keys);
    SessionsUnion(AllLeases(t, ids), Refs(id, b.leases.Keys));
    SessionsOfRefs(id, b.leases.Keys);
    forall s | s in Sessions(AllLeases(t, ids)) ensures s !in b.leases {
      var g :| g in AllLeases(t, ids) && g.1 == s;
      assert HasLease(t, g.0, s) && g.0 != id;
      assert s in b.leases ==> HasLease(t, id, s);
    }
  }

  lemma BrowsersSnoc(bs: seq<Browser>, b: Browser)
    ensures BrowserSessions(bs + [b]) == BrowserSessions(bs) + multiset(b.leases.Keys)
    ensures BrowserExecutors(bs + [b]) == BrowserExecutors(bs) + multiset{b.executor}
  {
    assert (bs + [b])[..|bs|] == bs;
  }

  lemma DisjointUnion<T>(a: set<T>, b: set<T>)
    requires a !! b
    ensures multiset(a + b) == multiset(a) + multiset(b)
  {
  }

  lemma TakeNext(t: Tables, ids: set<string>, id: string, bs: seq<Browser>)
    requires SessionsUnique(t) && ExecutorsUnique(t) && Taken(t, ids, bs) && id in t.browsers && id !in ids
    ensures Taken(t, ids + {id}, bs + [t.browsers[id]])
  {
    var b := t.browsers[id];
    BrowsersSnoc(bs, b);
    FreshBrowser(t, ids, id);
    DisjointUnion(Sessions(AllLeases(t, ids)), b.leases.Keys);
    DisjointUnion(Executors(t, ids), {b.executor});
  }

  lemma ConsistentParts(t: Tables, orphans: set<string>)
    requires Consistent(t, orphans)
    ensures SessionsUnique(t) && ExecutorsUnique(t) && NoneEmpty(t)
  {
  }

  lemma DeadFacts(t: Tables, now: nat, done: set<string>, id: string)
    requires id in t.browsers && t.browsers[id].deadline <= now
    ensures Overdue(t, now) * (done + {id}) == Overdue(t, now) * done + {id}
    ensures Listed(t, Stale(t, now)) && forall g | g in Stale(t, now) :: g.0 != id
    ensures Partial(Stale(t, now), done + {id}) == Partial(Stale(t, now), done)
    ensures Doomed(t.browsers[id], id, Stale(t, now)) == {} && id in Overdue(t, now)
  {
  }

  lemma ReapDead(t: Tables, now: nat, done: set<string>, id: string, bs: seq<Browser>, rs: seq<Removal>,
                 orphans: set<string>)
    requires Consistent(t, orphans) && id in t.browsers && id !in done && done <= t.browsers.Keys
    requires t.browsers[id].deadline <= now
    requires Taken(t, Overdue(t, now) * done, bs) && Recorded(t, Stale(t, now), done, rs)
    requires Own(t, Overdue(t, now), bs) && Truthful(t, rs)
    ensures
      var u := Trim(Without(t, Overdue(t, now) * done), Partial(Stale(t, now), done));
      Reaped(t, now, done + {id}, Without(u, {id}), bs + [t.browsers[id]], rs)
  {
    var b, overdue, stale := t.browsers[id], Overdue(t, now), Stale(t, now);
    DeadFacts(t, now, done, id);
    assert b.leases - {} == b.leases;
    hide Trim, Without, Taken, Recorded, Stale, Overdue, Doomed, Listed, Consistent, Own, Truthful;
    OwnSnoc(t, overdue, bs, id);
    assert SessionsUnique(t) && ExecutorsUnique(t) by {
      ConsistentParts(t, orphans);
    }
    TrimThenWithout(Without(t, overdue * done), Partial(stale, done), {id});
    WithoutMore(t, overdue * done, {id});
    TakeNext(t, overdue * done, id, bs);
    RecordBrowser(t, stale, done, id, rs, b.leases, [], orphans);
    assert rs + [] == rs;
  }

  lemma LiveFacts(t: Tables, now: nat, done: set<string>, id: string)
    requires id in t.browsers && t.browsers[id].deadline > now
    ensures Overdue(t, now) * (done + {id}) == Overdue(t, now) * done
    ensures Listed(t, Stale(t, now))
    ensures Doomed(t.browsers[id], id, Stale(t, now)) ==
      set session | session in t.browsers[id].leases && t.browsers[id].leases[session].expiresAt <= now
  {
  }

  lemma ReapLive(t: Tables, now: nat, done: set<string>, id: string, bs: seq<Browser>, rs: seq<Removal>,
                 doomed: set<string>, leases: map<string, Lease>, more: seq<Removal>, orphans: set<string>)
    requires Consistent(t, orphans) && id in t.browsers && id !in done && done <= t.browsers.Keys
    requires t.browsers[id].deadline > now
    requires Taken(t, Overdue(t, now) * done, bs) && Recorded(t, Stale(t, now), done, rs)
    requires Own(t, Overdue(t, now), bs) && Truthful(t, rs)
    requires doomed == set session | session in t.browsers[id].leases && t.browsers[id].leases[session].expiresAt <= now
    requires Removed(t.browsers[id], doomed, leases, more) && RecordsOf(t.browsers[id], more)
    ensures
      var u := Trim(Without(t, Overdue(t, now) * done), Partial(Stale(t, now), done));
      Reaped(t, now, done + {id}, Trim(u, Refs(id, doomed)), bs, rs + more)
  {
    var overdue, stale := Overdue(t, now), Stale(t, now);
    hide Trim, Without, Taken, Recorded, Stale, Overdue, Doomed, Listed, Consistent, Removed, Own, Truthful, RecordsOf;
    TruthfulAppend(t, rs, id, more);
    LiveFacts(t, now, done, id);
    RecordBrowser(t, stale, done, id, rs, leases, more, orphans);
    PartialNext(t, stale, done, id);
    TrimMore(Without(t, overdue * done), Partial(stale, done), Refs(id, doomed));
  }

  lemma ExpiredSessionsApart(t: Tables, now: nat)
    requires SessionsUnique(t)
    ensures Sessions(AllLeases(t, Overdue(t, now))) !! Sessions(Stale(t, now))
  {
    var whole, stale := AllLeases(t, Overdue(t, now)), Stale(t, now);
    forall s | s in Sessions(whole) ensures s !in Sessions(stale) {
      var g :| g in whole && g.1 == s;
      assert HasLease(t, g.0, s);
      assert forall h | h in stale && h.1 == s :: HasLease(t, h.0, s);
    }
  }

  lemma ExpiredDropped(t: Tables, now: nat)
    requires NoneEmpty(t) && ExecutorsUnique(t)
    ensures
      var overdue, whole, stale := Overdue(t, now), AllLeases(t, Overdue(t, now)), Stale(t, now);
      && Dropped(t, whole + stale) == overdue + Dropped(t, stale)
      && Executors(t, overdue) !! Executors(t, Dropped(t, stale))
  {
    var overdue, whole, stale := Overdue(t, now), AllLeases(t, Overdue(t, now)), Stale(t, now);
    forall id | id in t.browsers
      ensures Left(t.browsers[id], id, whole + stale) ==
                if id in overdue then map[] else Left(t.browsers[id], id, stale)
      ensures id in overdue ==> Left(t.browsers[id], id, stale) == t.browsers[id].leases
    {
    }
  }

  lemma ExpiredSplit(t: Tables, now: nat, orphans: set<string>)
    requires Consistent(t, orphans)
    ensures
      var whole, stale := AllLeases(t, Overdue(t, now)), Stale(t, now);
      && ExpiredLeases(t, now) == whole + stale
      && Sessions(whole) !! Sessions(stale)
      && Dropped(t, ExpiredLeases(t, now)) == Overdue(t, now) + Dropped(t, stale)
      && Executors(t, Overdue(t, now)) !! Executors(t, Dropped(t, stale))
  {
    hide Dropped, Executors, Sessions, SessionsUnique, ExecutorsUnique;
    ConsistentParts(t, orphans);
    ExpiredSessionsApart(t, now);
    ExpiredDropped(t, now);
    assert ExpiredLeases(t, now) == AllLeases(t, Overdue(t, now)) + Stale(t, now);
  }

  lemma EndFacts(t: Tables, now: nat)
    ensures
      var overdue, stale, all := Overdue(t, now), Stale(t, now), t.browsers.Keys;
      && overdue * all == overdue && Partial(stale, all) == stale && Dropped(t, stale) * all == Dropped(t, stale)
      && Listed(t, AllLeases(t, overdue) + stale)
      && Executors(t, overdue + Dropped(t, stale)) == Executors(t, overdue) + Executors(t, Dropped(t, stale))
  {
  }

  lemma ReapEnd(t: Tables, now: nat, bs: seq<Browser>, rs: seq<Removal>, orphans: set<string>)
    requires Consistent(t, orphans)
    requires Taken(t, Overdue(t, now) * t.browsers.Keys, bs) && Recorded(t, Stale(t, now), t.browsers.Keys, rs)
    ensures
      var expired := ExpiredLeases(t, now);
      var u := Trim(Without(t, Overdue(t, now) * t.browsers.Keys), Partial(Stale(t, now), t.browsers.Keys));
      && Sweep(u) == Cull(t, expired)
      && Consistent(Cull(t, expired), orphans)
      && Accounted(t, expired, BrowserSessions(bs) + RemovedSessions(rs), BrowserExecutors(bs) + Shutdowns(rs))
  {
    var overdue, stale, all := Overdue(t, now), Stale(t, now), t.browsers.Keys;
    var whole := AllLeases(t, overdue);
    EndFacts(t, now);
    hide Trim, Without, Sweep, Cull, Stale, Overdue, Dropped, Listed, Consistent, Executors, Sessions, AllLeases,
        ExpiredLeases;
    ConsistentParts(t, orphans);
    WithoutIsCull(t, overdue);
    SweepTrimIsCull(Without(t, overdue), stale);
    CullTwice(t, whole, stale);
    ExpiredSplit(t, now, orphans);
    SessionsUnion(whole, stale);
    DisjointUnion(Sessions(whole), Sessions(stale));
    DisjointUnion(Executors(t, overdue), Executors(t, Dropped(t, stale)));
    CullKeepsConsistent(t, whole + stale, orphans);
  }

  lemma WithoutStart(t: Tables)
    ensures Without(t, {}) == t && Taken(t, {}, [])
  {
    assert AllLeases(t, {}) == {} && SharedKeys(t, {}) == {} && Sessions({}) == {} && Executors(t, {}) == {};
  }

  lemma WithoutLookup(t: Tables, ids: set<string>, id: string)
    requires id in t.browsers && id !in ids
    ensures id in Without(t, ids).browsers && Without(t, ids).browsers[id] == t.browsers[id]
  {
  }

  lemma AllListed(t: Tables, ids: set<string>)
    ensures Listed(t, AllLeases(t, ids))
  {
  }

  /** Removing a single lease, spelled out. */
  lemma CullOne(t: Tables, id: string, session: string)
    requires HasLease(t, id, session) && NoneEmpty(t)
    ensures
      var b := t.browsers[id];
      var left := b.leases - {session};
      Cull(t, {(id, session)}) == Tables(
        if left == map[] then t.browsers - {id} else t.browsers[id := b.(leases := left)],
        if left == map[] && !b.exclusive then t.shared - {b.key} else t.shared,
        t.ports - {session})
  {
    TrimOne(t, id, {session});
    assert Refs(id, {session}) == {(id, session)};
    SweepTrimIsCull(t, {(id, session)});
    SweepOne(t, id, t.browsers[id].(leases := t.browsers[id].leases - {session}), t.ports - {session});
  }

  lemma SweepOne(t: Tables, id: string, b: Browser, ports: map<string, (string, nat)>)
    requires id in t.browsers && NoneEmpty(t) && b.key == t.browsers[id].key && b.exclusive == t.browsers[id].exclusive
    ensures Sweep(Tables(t.browsers[id := b], t.shared, ports)) == Tables(
        if b.leases == map[] then t.browsers - {id} else t.browsers[id := b],
        if b.leases == map[] && !b.exclusive then t.shared - {b.key} else t.shared,
        ports)
  {
    var u := Tables(t.browsers[id := b], t.shared, ports);
    assert EmptyBrowsers(u) == if b.leases == map[] then {id} else {};
    assert SharedKeys(u, EmptyBrowsers(u)) == if b.leases == map[] && !b.exclusive then {b.key} else {};
    assert t.browsers[id := b] - {id} == t.browsers - {id};
  }

  /** What `join_browser` does once the executor has answered. */
  function JoinedTables(t: Tables, id: string, session: string, targetId: string, principal: string, ttl: nat,
                        now: nat): Tables
  {
    if id !in t.browsers then t
    else if t.browsers[id].deadline <= now then Cull(t, AllLeases(t, {id}))
    else AddLease(t, id, session, Lease(principal, LeaseExpiry(now, ttl, t.browsers[id].deadline), Tab(targetId)))
  }

  lemma JoinKeepsConsistent(t: Tables, id: string, session: string, targetId: string, principal: string, ttl: nat,
                            now: nat, orphans: set<string>)
    requires Consistent(t, orphans) && session !in t.ports
    requires id in t.browsers ==> t.browsers[id].key.principal == principal
    ensures Consistent(JoinedTables(t, id, session, targetId, principal, ttl, now), orphans)
  {
    hide Consistent, Cull, AddLease, AllLeases;
    if id in t.browsers {
      if t.browsers[id].deadline <= now {
        AllListed(t, {id});
        CullKeepsConsistent(t, AllLeases(t, {id}), orphans);
      } else {
        var lease := Lease(principal, LeaseExpiry(now, ttl, t.browsers[id].deadline), Tab(targetId));
        AddLeaseKeepsConsistent(t, id, session, lease, orphans);
      }
    }
  }

  /** A browser as a registration builds it, around the one session whose port is already listed. */
  predicate ReadyToEnter(t: Tables, b: Browser, session: string, orphans: set<string>) {
    && session in orphans && session in t.ports && t.ports[session] == (b.key.principal, b.port)
    && b.leases.Keys == {session}
    && b.leases[session].principal == b.key.principal && b.leases[session].expiresAt <= b.deadline
    && forall i | i in t.browsers :: t.browsers[i].executor != b.executor
  }
}
