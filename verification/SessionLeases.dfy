/** Leases over whole runs: who ends them, how long they may last, and that nothing else about them changes. */
module SessionLeases {
  import opened Options
  import opened SessionTables
  import opened SessionOperations
  import opened SessionProtocol
  import opened SessionShutdowns

  /** Whether a teardown leaves a lease alone, by the lease and its browser. */
  predicate Spares(s: State, a: Action, id: string, session: string)
    requires HasLease(s.tables, id, session)
  {
    var b, lease := s.tables.browsers[id], s.tables.browsers[id].leases[session];
    match a
    case DoReap => b.deadline > s.now && lease.expiresAt > s.now
    case DoDrain(ns) => ns.Some? && b.key.ns != ns.value
    case DoRevoke(principal) => lease.principal != principal
    case DoDisconnect(mine, _, browser) => !(id == browser && session == mine)
    case DoEnded(browser) => id != browser
    case _ => true
  }

  lemma CullEnds(s: State, a: Action, gone: set<LeaseRef>)
    requires NoneEmpty(s.tables)
    requires forall id, session | HasLease(s.tables, id, session) ::
               (id, session) in gone <==> !Spares(s, a, id, session)
    ensures
      var t := Cull(s.tables, gone);
      && BrowsersKept(s.tables, t)
      && (forall id, session :: HasLease(t, id, session) <==>
            HasLease(s.tables, id, session) && Spares(s, a, id, session))
  {
    CullExactly(s.tables, gone);
    hide Cull, Spares, SameBut;
  }

  /** Each teardown ends exactly the leases it is for. */
  lemma TeardownEnds(s: State, a: Action)
    requires Inv(s) && Enabled(s, a) && (a.DoDisconnect? || a.DoReap? || a.DoDrain? || a.DoRevoke? || a.DoEnded?)
    ensures forall id, session :: HasLease(Do(s, a).tables, id, session) <==>
              HasLease(s.tables, id, session) && Spares(s, a, id, session)
    ensures BrowsersKept(s.tables, Do(s, a).tables)
  {
    var t := s.tables;
    ConsistentParts(t, Orphans(s));
    hide Consistent, TasksOk, GatesOk, TasksApart, IdsUsed, Orphans, NoneEmpty, SessionsUnique, ExecutorsUnique, Cull;
    hide BrowsersKept;
    GoneExactly(s, a);
    hide Spares, AllLeases, ExpiredLeases, LeasesOf, NamespaceBrowsers, HasLease, Enabled;
    CullEnds(s, a, Gone(s, a));
  }

  /** The leases that a teardown culls. */
  function Gone(s: State, a: Action): set<LeaseRef>
    requires a.DoDisconnect? || a.DoReap? || a.DoDrain? || a.DoRevoke? || a.DoEnded?
  {
    match a
    case DoDisconnect(session, _, id) => {(id, session)}
    case DoReap => ExpiredLeases(s.tables, s.now)
    case DoRevoke(principal) => LeasesOf(s.tables, principal)
    case DoDrain(ns) => AllLeases(s.tables, NamespaceBrowsers(s.tables, ns))
    case DoEnded(id) => AllLeases(s.tables, {id})
  }

  lemma GoneExactly(s: State, a: Action)
    requires Enabled(s, a) && (a.DoDisconnect? || a.DoReap? || a.DoDrain? || a.DoRevoke? || a.DoEnded?)
    ensures Do(s, a).tables == Cull(s.tables, Gone(s, a))
    ensures forall id, session | HasLease(s.tables, id, session) ::
              (id, session) in Gone(s, a) <==> !Spares(s, a, id, session)
  {
    hide Cull;
  }

  /** Browsers that are in both tables are the same but for leases that came or went. */
  predicate BrowsersKept(t: Tables, t': Tables) {
    forall id | id in t.browsers && id in t'.browsers :: SameBut(t.browsers[id], t'.browsers[id])
  }

  /** A lease in the table, or in the hands of a registration that will put it there, with its browser's deadline. */
  ghost predicate Held(s: State, session: string, lease: Lease, deadline: nat) {
    || (exists id :: HasLease(s.tables, id, session) && s.tables.browsers[id].leases[session] == lease &&
                     s.tables.browsers[id].deadline == deadline)
    || (exists task :: task in s.tasks && s.tasks[task].Entering? && session in s.tasks[task].browser.leases &&
                       s.tasks[task].browser.leases[session] == lease && s.tasks[task].browser.deadline == deadline)
  }

  /**
   * A join or a registration makes a lease for the principal of its key: it expires a time to live after
   * a clock reading that is not in the future, or at the browser's deadline, whichever comes first.
   */
  predicate Makes(s: State, a: Action, session: string, lease: Lease, deadline: nat) {
    && (a.LeaseGranted? || a.ListPort?) && a.session == session && a.task in s.tasks
    && lease.principal == s.tasks[a.task].Key().principal
    && (a.LeaseGranted? ==> lease.target == Tab(a.targetId)) && (a.ListPort? ==> lease.target == a.target)
    && var clock := if a.ListPort? then a.readAt else s.now;
       && clock <= s.now && lease.expiresAt <= clock + a.ttl && lease.expiresAt <= deadline
       && (lease.expiresAt == clock + a.ttl || lease.expiresAt == deadline)
  }

  /** The tables after a join: no other lease and no browser is touched, unless the browser was past its deadline. */
  lemma JoinTouches(t: Tables, id: string, session: string, targetId: string, principal: string, ttl: nat, now: nat)
    requires NoneEmpty(t) && forall i :: !HasLease(t, i, session)
    ensures
      var t' := JoinedTables(t, id, session, targetId, principal, ttl, now);
      && BrowsersKept(t, t') && t'.browsers.Keys <= t.browsers.Keys
      && (forall i, s | HasLease(t', i, s) && !HasLease(t, i, s) ::
            var lease, deadline := t'.browsers[i].leases[s], t'.browsers[i].deadline;
            && i == id && s == session && lease.principal == principal && lease.target == Tab(targetId)
            && lease.expiresAt <= now + ttl && lease.expiresAt <= deadline
            && (lease.expiresAt == now + ttl || lease.expiresAt == deadline))
  {
    if id in t.browsers && t.browsers[id].deadline <= now {
      CullExactly(t, AllLeases(t, {id}));
      hide Cull;
    } else if id in t.browsers {
      assert !HasLease(t, id, session);
      hide Cull, AllLeases;
    }
  }

  lemma JoinedLease(s: State, a: Action)
    requires Inv(s) && Enabled(s, a) && a.LeaseGranted?
    ensures BrowsersKept(s.tables, Do(s, a).tables)
    ensures forall id, session | HasLease(Do(s, a).tables, id, session) && !HasLease(s.tables, id, session) ::
              var b := Do(s, a).tables.browsers[id];
              Makes(s, a, session, b.leases[session], b.deadline)
    ensures Do(s, a).tables.browsers.Keys <= s.tables.browsers.Keys
    ensures forall task | task in Do(s, a).tasks && Do(s, a).tasks[task].Entering? ::
              task in s.tasks && s.tasks[task] == Do(s, a).tasks[task]
  {
    var Leasing(launch, id) := s.tasks[a.task];
    UnknownSession(s, a.session);
    ConsistentParts(s.tables, Orphans(s));
    hide Consistent, TasksOk, GatesOk, TasksApart, IdsUsed, Orphans, SessionsUnique, ExecutorsUnique, NoneEmpty;
    hide JoinedTables, BrowsersKept;
    JoinTouches(s.tables, id, a.session, a.targetId, launch.key.principal, a.ttl, s.now);
  }

  lemma UnknownSession(s: State, session: string)
    requires Inv(s) && session !in s.used
    ensures forall id :: !HasLease(s.tables, id, session)
  {
    assert IdsUsed(s) && LeasesSound(s.tables);
    hide TasksOk, GatesOk, TasksApart, Orphans;
    forall id ensures !HasLease(s.tables, id, session) {
      assert HasLease(s.tables, id, session) ==> LeaseSound(s.tables, id, session);
    }
  }

  lemma ExpiryKeeps(s: State, a: Action)
    requires Inv(s) && Enabled(s, a) && a.Expire?
    ensures BrowsersKept(s.tables, Do(s, a).tables)
    ensures forall id, session :: HasLease(Do(s, a).tables, id, session) ==> HasLease(s.tables, id, session)
    ensures Do(s, a).tables.browsers.Keys <= s.tables.browsers.Keys
    ensures forall task | task in Do(s, a).tasks && Do(s, a).tasks[task].Entering? ::
              task in s.tasks && s.tasks[task] == Do(s, a).tasks[task]
  {
    var t, id := s.tables, s.tasks[a.task].id;
    ConsistentParts(t, Orphans(s));
    hide Inv, HasLease;
    var expired := id in t.browsers && t.browsers[id].deadline <= s.now;
    assert Do(s, a).tables == if expired then Cull(t, AllLeases(t, {id})) else t;
    hide Cull, NoneEmpty;
    CullLeavesRest(t, AllLeases(t, {id}));
  }

  lemma CullLeavesRest(t: Tables, gone: set<LeaseRef>)
    requires NoneEmpty(t)
    ensures BrowsersKept(t, Cull(t, gone)) && Cull(t, gone).browsers.Keys <= t.browsers.Keys
    ensures forall id, session :: HasLease(Cull(t, gone), id, session) ==> HasLease(t, id, session)
    ensures BrowsersKept(t, t)
  {
    hide Cull, NoneEmpty;
    CullExactly(t, gone);
  }

  lemma QuietKeeps(s: State, a: Action)
    requires Enabled(s, a) && Quiet(a)
    ensures Do(s, a).tables.browsers == s.tables.browsers
    ensures forall task | task in Do(s, a).tasks && Do(s, a).tasks[task].Entering? ::
              || (task in s.tasks && s.tasks[task] == Do(s, a).tasks[task])
              || (a.ListPort? && task == a.task)
  {
  }

  /** A registration's browser, from its place in the task to its place in the table. */
  lemma RegistrationMakes(s: State, a: Action)
    requires Enabled(s, a) && a.ListPort?
    ensures a.task in Do(s, a).tasks && Do(s, a).tasks[a.task].Entering?
    ensures
      var b := Do(s, a).tasks[a.task].browser;
      && b.leases.Keys == {a.session} && Makes(s, a, a.session, b.leases[a.session], b.deadline)
      && b.deadline == a.deadline && b.port == a.port && b.endpoint == a.endpoint
      && b.persistCookies == a.persistCookies
      && b.key == s.tasks[a.task].Key() && b.executor == s.tasks[a.task].executor
      && (b.exclusive <==> s.tasks[a.task].RegisteringService? || s.tasks[a.task].launch.exclusive)
  {
  }

  lemma EnterKeeps(s: State, a: Action)
    requires Inv(s) && Enabled(s, a) && a.Enter?
    ensures
      var t := Do(s, a).tables;
      && a.task in s.tasks && s.tasks[a.task].Entering?
      && t.browsers == s.tables.browsers[a.id := s.tasks[a.task].browser] && a.id !in s.tables.browsers
      && t.ports == s.tables.ports
    ensures forall task | task in Do(s, a).tasks && Do(s, a).tasks[task].Entering? ::
              task in s.tasks && s.tasks[task] == Do(s, a).tasks[task]
  {
    hide Consistent, TasksOk, GatesOk, TasksApart, Orphans;
  }

  /** One critical section: browsers and leases stay as they are, and new ones are made as they should be. */
  lemma StepKeepsLeases(s: State, a: Action)
    requires Inv(s) && Enabled(s, a)
    ensures BrowsersKept(s.tables, Do(s, a).tables)
    ensures forall session, lease, deadline | Held(Do(s, a), session, lease, deadline) ::
              Held(s, session, lease, deadline) || Makes(s, a, session, lease, deadline)
  {
    var s' := Do(s, a);
    hide Inv, Enabled, Do, Held, Makes;
    StepShape(s, a);
    forall session, lease, deadline | Held(s', session, lease, deadline)
      ensures Held(s, session, lease, deadline) || Makes(s, a, session, lease, deadline)
    {
      HeldBefore(s, a, session, lease, deadline);
    }
  }

  /** Where the leases and the waiting registrations of the new state come from. */
  ghost predicate Shape(s: State, a: Action, s': State) {
    && BrowsersKept(s.tables, s'.tables)
    && (forall id, session | HasLease(s'.tables, id, session) ::
          || HasLease(s.tables, id, session)
          || Makes(s, a, session, s'.tables.browsers[id].leases[session], s'.tables.browsers[id].deadline)
          || (a.Enter? && a.task in s.tasks && s.tasks[a.task].Entering? &&
              s'.tables.browsers[id] == s.tasks[a.task].browser))
    && (forall task | task in s'.tasks && s'.tasks[task].Entering? ::
          || (task in s.tasks && s.tasks[task] == s'.tasks[task])
          || (forall session | session in s'.tasks[task].browser.leases ::
                Makes(s, a, session, s'.tasks[task].browser.leases[session], s'.tasks[task].browser.deadline)))
  }

  lemma StepShape(s: State, a: Action)
    requires Inv(s) && Enabled(s, a)
    ensures Shape(s, a, Do(s, a))
  {
    hide Inv, Enabled, Do, Makes;
    if a.LeaseGranted? {
      JoinedLease(s, a);
    } else if a.Expire? {
      ExpiryKeeps(s, a);
    } else if a.Enter? {
      EnterKeeps(s, a);
    } else if Quiet(a) {
      QuietKeeps(s, a);
      if a.ListPort? {
        RegistrationMakes(s, a);
      }
    } else {
      TeardownEnds(s, a);
      TeardownLeavesTasks(s, a);
    }
  }

  lemma TeardownLeavesTasks(s: State, a: Action)
    requires Enabled(s, a) && (a.DoDisconnect? || a.DoReap? || a.DoDrain? || a.DoRevoke? || a.DoEnded?)
    ensures Do(s, a).tasks == s.tasks
  {
    hide Cull;
  }

  lemma HeldBefore(s: State, a: Action, session: string, lease: Lease, deadline: nat)
    requires Enabled(s, a) && Shape(s, a, Do(s, a)) && Held(Do(s, a), session, lease, deadline)
    ensures Held(s, session, lease, deadline) || Makes(s, a, session, lease, deadline)
  {
    hide Enabled, Do, Makes;
    var s' := Do(s, a);
    if id :| HasLease(s'.tables, id, session) && s'.tables.browsers[id].leases[session] == lease &&
             s'.tables.browsers[id].deadline == deadline
    {
      if HasLease(s.tables, id, session) {
        assert SameBut(s.tables.browsers[id], s'.tables.browsers[id]);
      }
    } else {
      var task :| task in s'.tasks && s'.tasks[task].Entering? && session in s'.tasks[task].browser.leases &&
                  s'.tasks[task].browser.leases[session] == lease && s'.tasks[task].browser.deadline == deadline;
    }
  }

  // Whole runs.

  lemma {:induction false} HeldWasMade(states: seq<State>, actions: seq<Action>, n: nat, session: string, lease: Lease,
                                       deadline: nat)
    returns (k: nat)
    requires IsRun(states, actions) && n < |states| && Held(states[n], session, lease, deadline)
    ensures k < n && Makes(states[k], actions[k], session, lease, deadline)
  {
    hide Inv, Enabled, Do, Makes;
    RunKeepsInv(states, actions, n);
    if n == 0 {
      assert false;
    } else {
      RunKeepsInv(states, actions, n - 1);
      StepKeepsLeases(states[n - 1], actions[n - 1]);
      if Held(states[n - 1], session, lease, deadline) {
        hide Held;
        k := HeldWasMade(states, actions, n - 1, session, lease, deadline);
      } else {
        k := n - 1;
      }
    }
  }

  /**
   * Time to live, over any run: a lease in the table was made by one join or registration. It expires no
   * later than its time to live after that, and no later than its browser's deadline; at one of the two.
   */
  lemma LeasesKeepTheirTime(states: seq<State>, actions: seq<Action>, n: nat, id: string, session: string)
    returns (k: nat)
    requires IsRun(states, actions) && n < |states| && HasLease(states[n].tables, id, session)
    ensures k < n && (actions[k].LeaseGranted? || actions[k].ListPort?) && actions[k].session == session
    ensures
      var b, clock := states[n].tables.browsers[id], if actions[k].ListPort? then actions[k].readAt else states[k].now;
      var expiry := b.leases[session].expiresAt;
      && clock <= states[k].now && expiry <= clock + actions[k].ttl && expiry <= b.deadline
      && (expiry == clock + actions[k].ttl || expiry == b.deadline)
      && actions[k].task in states[k].tasks
      && b.leases[session].principal == states[k].tasks[actions[k].task].Key().principal
  {
    var b := states[n].tables.browsers[id];
    hide Inv, Enabled, Do;
    k := HeldWasMade(states, actions, n, session, b.leases[session], b.deadline);
  }

  lemma UsedGrows(s: State, a: Action)
    requires Enabled(s, a)
    ensures s.used <= Do(s, a).used
    ensures forall id | id in Do(s, a).tables.browsers :: id in s.tables.browsers || (a.Enter? && id == a.id)
  {
    hide LeaseExpiry;
  }

  /** Nothing but the set of its leases ever changes about a browser, and its id stays used. */
  lemma {:induction false} BrowsersNeverChange(states: seq<State>, actions: seq<Action>, i: nat, j: nat, id: string)
    requires IsRun(states, actions) && i <= j < |states|
    requires id in states[i].tables.browsers && id in states[j].tables.browsers
    ensures
      var b, b' := states[i].tables.browsers[id], states[j].tables.browsers[id];
      && b'.key == b.key && b'.executor == b.executor && b'.port == b.port && b'.endpoint == b.endpoint
      && b'.deadline == b.deadline && b'.exclusive == b.exclusive && b'.persistCookies == b.persistCookies
    ensures id in states[i].used && id in states[j].used
    decreases j
  {
    hide Inv, Enabled, Do;
    KnownAreUsed(states, actions, i, id);
    KnownAreUsed(states, actions, j, id);
    if i < j {
      var s, a := states[j - 1], actions[j - 1];
      RunKeepsInv(states, actions, j - 1);
      UsedGrowsOver(states, actions, i, j - 1);
      UsedGrows(s, a);
      if a.Enter? {
        EnterKeeps(s, a);
        FreshId(s, a);
      }
      BrowsersNeverChange(states, actions, i, j - 1, id);
      StepKeepsLeases(s, a);
      assert SameBut(s.tables.browsers[id], states[j].tables.browsers[id]);
    }
  }

  lemma FreshId(s: State, a: Action)
    requires Enabled(s, a) && a.Enter?
    ensures a.id !in s.used
  {
  }

  lemma KnownAreUsed(states: seq<State>, actions: seq<Action>, n: nat, id: string)
    requires IsRun(states, actions) && n < |states| && id in states[n].tables.browsers
    ensures id in states[n].used
  {
    hide Enabled, Do;
    RunKeepsInv(states, actions, n);
    hide Consistent, TasksOk, GatesOk, TasksApart, Orphans;
  }

  lemma {:induction false} UsedGrowsOver(states: seq<State>, actions: seq<Action>, i: nat, j: nat)
    requires IsRun(states, actions) && i <= j < |states|
    ensures states[i].used <= states[j].used
    decreases j
  {
    hide Enabled, Do;
    if i < j {
      UsedGrowsOver(states, actions, i, j - 1);
      UsedGrows(states[j - 1], actions[j - 1]);
    }
  }

  /**
   * What a login does next by what it finds: it joins the key's shared browser, takes one past its
   * deadline out of the way, or launches when there is none.
   */
  lemma LookDecides(s: State, task: nat)
    requires Inv(s) && task in s.tasks && s.tasks[task].Looking?
    ensures
      var launch, t := s.tasks[task].launch, s.tables;
      var pc := Do(s, Look(task)).tasks[task];
      if forall id | id in t.browsers :: t.browsers[id].exclusive || t.browsers[id].key != launch.key then
        pc == Launching(launch)
      else
        exists id | id in t.browsers ::
          && !t.browsers[id].exclusive && t.browsers[id].key == launch.key
          && pc == if t.browsers[id].deadline <= s.now then Expiring(launch, id) else Leasing(launch, id)
  {
    assert IndexAgrees(s.tables);
    hide TasksOk, GatesOk, TasksApart, IdsUsed, Orphans;
  }

  /** A finished stepwise login becomes exclusive exactly when it was asked to be or the key has a shared browser. */
  lemma HandOffDecides(s: State, task: nat)
    requires Inv(s) && task in s.tasks && s.tasks[task].HandingOff?
    ensures
      var HandingOff(launch, executor), pc := s.tasks[task], Do(s, ReadShared(task)).tasks[task];
      && pc.Registering? && pc.executor == executor && pc.launch.key == launch.key
      && (pc.launch.exclusive <==>
            launch.exclusive || exists id | id in s.tables.browsers ::
              !s.tables.browsers[id].exclusive && s.tables.browsers[id].key == launch.key)
  {
    assert IndexAgrees(s.tables);
    hide TasksOk, GatesOk, TasksApart, IdsUsed, Orphans;
  }
}
