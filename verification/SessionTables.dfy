/** The daemon's three session tables: browsers with their leases, the shared index, and the port list. */
module SessionTables {
  import opened Options

  datatype BrowserKey = BrowserKey(principal: string, ns: string, credId: string)

  datatype LeaseTarget = Tab(targetId: string) | ApiProxy | McpServer

  datatype Lease = Lease(principal: string, expiresAt: nat, target: LeaseTarget)

  /** `executor` names the connection; every registration opens its own. */
  datatype Browser = Browser(
    key: BrowserKey, executor: nat, port: nat, endpoint: string, deadline: nat,
    leases: map<string, Lease>, exclusive: bool, persistCookies: bool)

  datatype Tables = Tables(
    browsers: map<string, Browser>, shared: map<BrowserKey, string>, ports: map<string, (string, nat)>)

  const NO_SESSIONS := Tables(map[], map[], map[])

  /** A lease by its place: browser id and session id. */
  type LeaseRef = (string, string)

  predicate HasLease(t: Tables, id: string, session: string) {
    id in t.browsers && session in t.browsers[id].leases
  }

  // Agreement of the tables whenever the daemon mutex is free.

  /** `shared_browsers` is exactly the map from key to id of the browsers that are not exclusive. */
  predicate IndexAgrees(t: Tables) {
    && (forall id | id in t.browsers && !t.browsers[id].exclusive ::
          t.browsers[id].key in t.shared && t.shared[t.browsers[id].key] == id)
    && (forall key | key in t.shared ::
          t.shared[key] in t.browsers && !t.browsers[t.shared[key]].exclusive && t.browsers[t.shared[key]].key == key)
  }

  predicate LeaseSound(t: Tables, id: string, session: string)
    requires HasLease(t, id, session)
  {
    var b := t.browsers[id];
    && b.leases[session].principal == b.key.principal
    && b.leases[session].expiresAt <= b.deadline
    && session in t.ports && t.ports[session] == (b.leases[session].principal, b.port)
  }

  ghost predicate LeasesSound(t: Tables) {
    forall id, session | HasLease(t, id, session) :: LeaseSound(t, id, session)
  }

  ghost predicate SessionsUnique(t: Tables) {
    forall id, id', session | HasLease(t, id, session) && HasLease(t, id', session) :: id == id'
  }

  predicate ExecutorsUnique(t: Tables) {
    forall id, id' | id in t.browsers && id' in t.browsers && id != id' ::
        t.browsers[id].executor != t.browsers[id'].executor
  }

  /** A port without a lease belongs to a registration between its two steps (`orphans`). */
  ghost predicate PortsAccounted(t: Tables, orphans: set<string>) {
    && orphans <= t.ports.Keys
    && (forall session | session in t.ports && session !in orphans :: exists id :: HasLease(t, id, session))
    && (forall id, session | HasLease(t, id, session) :: session !in orphans)
  }

  predicate NoneEmpty(t: Tables) {
    forall id | id in t.browsers :: t.browsers[id].leases != map[]
  }

  ghost predicate Consistent(t: Tables, orphans: set<string>) {
    && IndexAgrees(t) && LeasesSound(t) && SessionsUnique(t) && ExecutorsUnique(t)
    && PortsAccounted(t, orphans) && NoneEmpty(t)
  }

  // Every teardown is one operation: some leases go, and with them every browser left without one.

  function Left(b: Browser, id: string, gone: set<LeaseRef>): map<string, Lease> {
    map session | session in b.leases && (id, session) !in gone :: b.leases[session]
  }

  /** Browsers that lose their last lease. */
  function Dropped(t: Tables, gone: set<LeaseRef>): set<string> {
    set id | id in t.browsers && Left(t.browsers[id], id, gone) == map[]
  }

  function SharedKeys(t: Tables, ids: set<string>): set<BrowserKey> {
    set id | id in ids && id in t.browsers && !t.browsers[id].exclusive :: t.browsers[id].key
  }

  function Sessions(gone: set<LeaseRef>): set<string> {
    set g | g in gone :: g.1
  }

  predicate Listed(t: Tables, gone: set<LeaseRef>) {
    forall g | g in gone :: HasLease(t, g.0, g.1)
  }

  function Cull(t: Tables, gone: set<LeaseRef>): Tables {
    var dropped := Dropped(t, gone);
    Tables(
      map id | id in t.browsers && id !in dropped :: t.browsers[id].(leases := Left(t.browsers[id], id, gone)),
      t.shared - SharedKeys(t, dropped),
      t.ports - Sessions(gone))
  }

  function AllLeases(t: Tables, ids: set<string>): set<LeaseRef> {
    set id, session | id in ids && id in t.browsers && session in t.browsers[id].leases :: (id, session)
  }

  function ExpiredLeases(t: Tables, now: nat): set<LeaseRef> {
    set id, session | id in t.browsers && session in t.browsers[id].leases &&
      (t.browsers[id].deadline <= now || t.browsers[id].leases[session].expiresAt <= now) :: (id, session)
  }

  function LeasesOf(t: Tables, principal: string): set<LeaseRef> {
    set id, session | id in t.browsers && session in t.browsers[id].leases &&
      t.browsers[id].leases[session].principal == principal :: (id, session)
  }

  predicate InNamespace(b: Browser, ns: Option<string>) {
    ns.None? || ns.value == b.key.ns
  }

  function NamespaceBrowsers(t: Tables, ns: Option<string>): set<string> {
    set id | id in t.browsers && InNamespace(t.browsers[id], ns)
  }

  // Growth.

  function LeaseExpiry(now: nat, ttl: nat, deadline: nat): nat {
    if now + ttl < deadline then now + ttl else deadline
  }

  /** The locked section of `join_browser` that adds a lease to a live browser. */
  function AddLease(t: Tables, id: string, session: string, lease: Lease): Tables
    requires id in t.browsers
  {
    var b := t.browsers[id];
    t.(browsers := t.browsers[id := b.(leases := b.leases[session := lease])],
       ports := t.ports[session := (lease.principal, b.port)])
  }

  /** First step of a registration. */
  function AddPort(t: Tables, session: string, principal: string, port: nat): Tables {
    t.(ports := t.ports[session := (principal, port)])
  }

  /** Second step of a registration. */
  function AddBrowser(t: Tables, id: string, b: Browser): Tables {
    t.(browsers := t.browsers[id := b], shared := if b.exclusive then t.shared else t.shared[b.key := id])
  }

  // What each operation keeps.

  /** The same browser, with other leases; those it still has are as they were. */
  predicate SameBut(b: Browser, b': Browser) {
    && b'.key == b.key && b'.executor == b.executor && b'.port == b.port && b'.endpoint == b.endpoint
    && b'.deadline == b.deadline && b'.exclusive == b.exclusive && b'.persistCookies == b.persistCookies
    && forall session | session in b'.leases && session in b.leases :: b'.leases[session] == b.leases[session]
  }

  /** A teardown ends exactly the leases in `gone`, and exactly the browsers that are left without one. */
  lemma CullExactly(t: Tables, gone: set<LeaseRef>)
    requires NoneEmpty(t)
    ensures
      var t' := Cull(t, gone);
      && (forall id, session :: HasLease(t', id, session) <==> HasLease(t, id, session) && (id, session) !in gone)
      && (forall id | id in t'.browsers :: id in t.browsers && SameBut(t.browsers[id], t'.browsers[id]))
      && (forall id | id in t.browsers && id !in t'.browsers ::
            forall session | session in t.browsers[id].leases :: (id, session) in gone)
      && (forall id | id in t'.browsers :: t'.browsers[id].leases != map[])
      && (forall session :: session in t'.ports <==> session in t.ports && forall id :: (id, session) !in gone)
      && (forall session | session in t'.ports :: t'.ports[session] == t.ports[session])
  {
    CullHasLease(t, gone);
    var t' := Cull(t, gone);
    forall id, session | id in t.browsers && id !in t'.browsers && session in t.browsers[id].leases
      ensures (id, session) in gone
    {
      assert session !in Left(t.browsers[id], id, gone);
    }
    forall session ensures session in Sessions(gone) <==> exists id :: (id, session) in gone {
      if id :| (id, session) in gone {
        assert (id, session).1 == session;
      }
    }
  }

  lemma CullHasLease(t: Tables, gone: set<LeaseRef>)
    ensures forall id, session :: HasLease(Cull(t, gone), id, session) <==>
        HasLease(t, id, session) && (id, session) !in gone
    ensures forall id | id in Cull(t, gone).browsers :: id in t.browsers &&
              Cull(t, gone).browsers[id] == t.browsers[id].(leases := Left(t.browsers[id], id, gone))
  {
    forall id, session | HasLease(t, id, session) && (id, session) !in gone ensures id in Cull(t, gone).browsers {
      assert session in Left(t.browsers[id], id, gone);
    }
  }

  lemma CullKeepsIndex(t: Tables, gone: set<LeaseRef>)
    requires IndexAgrees(t)
    ensures IndexAgrees(Cull(t, gone))
  {
    var t' := Cull(t, gone);
    forall id | id in t'.browsers && !t'.browsers[id].exclusive
      ensures t'.browsers[id].key in t'.shared && t'.shared[t'.browsers[id].key] == id
    {
      assert t.shared[t.browsers[id].key] == id;
    }
    forall key | key in t'.shared
      ensures t'.shared[key] in t'.browsers && !t'.browsers[t'.shared[key]].exclusive &&
          t'.browsers[t'.shared[key]].key == key
    {
      assert t.browsers[t.shared[key]].key == key;
    }
  }

  lemma CullKeepsPorts(t: Tables, gone: set<LeaseRef>, orphans: set<string>)
    requires SessionsUnique(t) && LeasesSound(t) && PortsAccounted(t, orphans) && Listed(t, gone)
    ensures LeasesSound(Cull(t, gone)) && PortsAccounted(Cull(t, gone), orphans)
  {
    CullHasLease(t, gone);
    var t' := Cull(t, gone);
    forall id, session | HasLease(t', id, session) ensures LeaseSound(t', id, session) {
      assert LeaseSound(t, id, session);
      assert forall g | g in gone && g.1 == session :: HasLease(t, g.0, session);
    }
    forall session | session in t'.ports && session !in orphans ensures exists id :: HasLease(t', id, session) {
      var id :| HasLease(t, id, session);
      assert HasLease(t', id, session);
    }
  }

  lemma CullKeepsConsistent(t: Tables, gone: set<LeaseRef>, orphans: set<string>)
    requires Consistent(t, orphans) && Listed(t, gone)
    ensures Consistent(Cull(t, gone), orphans)
  {
    CullHasLease(t, gone);
    CullKeepsIndex(t, gone);
    CullKeepsPorts(t, gone, orphans);
  }

  /** Tables that gain one lease, of a session that no lease had, and nothing else about leases. */
  ghost predicate Gains(t: Tables, t': Tables, id: string, session: string) {
    && (forall i, s :: HasLease(t', i, s) <==> HasLease(t, i, s) || (i == id && s == session))
    && (forall i, s | HasLease(t, i, s) :: LeaseSound(t, i, s) ==> LeaseSound(t', i, s))
    && LeaseSound(t', id, session)
  }

  lemma GainKeepsLeases(t: Tables, t': Tables, id: string, session: string, orphans: set<string>)
    requires LeasesSound(t) && SessionsUnique(t) && PortsAccounted(t, orphans)
    requires Gains(t, t', id, session) && t'.ports.Keys == t.ports.Keys + {session}
    requires forall i :: !HasLease(t, i, session)
    ensures LeasesSound(t') && SessionsUnique(t') && PortsAccounted(t', orphans - {session})
  {
    forall s | s in t'.ports && s !in orphans - {session} ensures exists i :: HasLease(t', i, s) {
      if s == session {
        assert HasLease(t', id, s);
      } else {
        var i :| HasLease(t, i, s);
        assert HasLease(t', i, s);
      }
    }
  }

  lemma AddLeaseGains(t: Tables, id: string, session: string, lease: Lease)
    requires id in t.browsers && session !in t.ports
    requires lease.principal == t.browsers[id].key.principal && lease.expiresAt <= t.browsers[id].deadline
    ensures Gains(t, AddLease(t, id, session, lease), id, session)
  {
  }

  lemma AddLeaseKeepsBrowsers(t: Tables, id: string, session: string, lease: Lease)
    requires id in t.browsers && IndexAgrees(t) && ExecutorsUnique(t) && NoneEmpty(t)
    ensures
      var t' := AddLease(t, id, session, lease);
      IndexAgrees(t') && ExecutorsUnique(t') && NoneEmpty(t')
  {
    var t' := AddLease(t, id, session, lease);
    assert session in t'.browsers[id].leases;
    var b, b' := t.browsers[id], t'.browsers[id];
    assert b'.key == b.key && b'.exclusive == b.exclusive && b'.executor == b.executor;
    assert forall i | i in t.browsers && i != id :: t'.browsers[i] == t.browsers[i];
  }

  lemma AddLeaseKeepsConsistent(t: Tables, id: string, session: string, lease: Lease, orphans: set<string>)
    requires Consistent(t, orphans) && id in t.browsers && session !in t.ports
    requires lease.principal == t.browsers[id].key.principal && lease.expiresAt <= t.browsers[id].deadline
    ensures Consistent(AddLease(t, id, session, lease), orphans)
  {
    var t' := AddLease(t, id, session, lease);
    AddLeaseGains(t, id, session, lease);
    forall i ensures !HasLease(t, i, session) {
      assert HasLease(t, i, session) ==> LeaseSound(t, i, session);
    }
    assert orphans - {session} == orphans;
    GainKeepsLeases(t, t', id, session, orphans);
    AddLeaseKeepsBrowsers(t, id, session, lease);
  }

  lemma AddPortKeepsConsistent(t: Tables, session: string, principal: string, port: nat, orphans: set<string>)
    requires Consistent(t, orphans) && session !in t.ports
    ensures Consistent(AddPort(t, session, principal, port), orphans + {session})
  {
    var t' := AddPort(t, session, principal, port);
    assert forall i, s :: HasLease(t', i, s) <==> HasLease(t, i, s);
    forall i, s | HasLease(t', i, s) ensures LeaseSound(t', i, s) && s !in orphans + {session} {
      assert HasLease(t, i, s) && LeaseSound(t, i, s);
    }
    forall s | s in t'.ports && s !in orphans + {session} ensures exists i :: HasLease(t', i, s) {
      var i :| HasLease(t, i, s);
      assert HasLease(t', i, s);
    }
  }

  lemma AddBrowserGains(t: Tables, id: string, b: Browser, session: string)
    requires id !in t.browsers && b.leases.Keys == {session}
    requires session in t.ports && t.ports[session] == (b.key.principal, b.port)
    requires b.leases[session].principal == b.key.principal && b.leases[session].expiresAt <= b.deadline
    ensures Gains(t, AddBrowser(t, id, b), id, session)
  {
  }

  lemma AddBrowserKeepsBrowsers(t: Tables, id: string, b: Browser)
    requires id !in t.browsers && IndexAgrees(t) && ExecutorsUnique(t) && NoneEmpty(t)
    requires b.leases != map[] && (!b.exclusive ==> b.key !in t.shared)
    requires forall i | i in t.browsers :: t.browsers[i].executor != b.executor
    ensures
      var t' := AddBrowser(t, id, b);
      IndexAgrees(t') && ExecutorsUnique(t') && NoneEmpty(t')
  {
  }

  /** A new browser may enter as shared only while its key has no shared browser: the start gate's promise. */
  lemma AddBrowserKeepsConsistent(t: Tables, id: string, b: Browser, session: string, orphans: set<string>)
    requires Consistent(t, orphans) && id !in t.browsers
    requires session in orphans && t.ports[session] == (b.key.principal, b.port)
    requires b.leases.Keys == {session}
    requires b.leases[session].principal == b.key.principal && b.leases[session].expiresAt <= b.deadline
    requires forall i | i in t.browsers :: t.browsers[i].executor != b.executor
    requires !b.exclusive ==> b.key !in t.shared
    ensures Consistent(AddBrowser(t, id, b), orphans - {session})
  {
    var t' := AddBrowser(t, id, b);
    AddBrowserGains(t, id, b, session);
    assert session in b.leases;
    AddBrowserKeepsBrowsers(t, id, b);
    GainKeepsLeases(t, t', id, session, orphans);
  }
}
