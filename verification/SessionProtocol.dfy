/** Every interleaving of the tasks that use the session tables, with the per-key start gate. */
module SessionProtocol {
  import opened Options
  import opened SessionTables
  import opened SessionOperations

  /** `login`; `login_begin` whose executor is done at once; the handoff of a finished stepwise login. */
  datatype Kind = Login | Begin | HandOff

  /** What a launch is for. */
  datatype Launch = Launch(key: BrowserKey, kind: Kind, exclusive: bool)

  /** Where a task stands between two critical sections. */
  datatype Pc =
    | AtGate(launch: Launch)                               // waiting for the start gate of its key
    | Looking(launch: Launch)                              // about to look for a shared browser to join
    | Leasing(launch: Launch, id: string)                  // asking the executor of a shared browser for a tab
    | LeaseFailed(launch: Launch, id: string)              // that request failed
    | Expiring(launch: Launch, id: string)                 // about to remove the browser at its deadline
    | Launching(launch: Launch)                            // starting an executor of its own
    | HandingOff(launch: Launch, executor: nat)            // about to read whether a shared browser exists
    | Registering(launch: Launch, executor: nat)           // about to list the port
    | RegisteringService(key: BrowserKey, executor: nat)   // the same, for a proxy or MCP server: no gate
    | Entering(browser: Browser, session: string, gated: bool)  // port listed, about to enter the browser
  {
    predicate Gated() {
      !AtGate? && !RegisteringService? && (Entering? ==> gated)
    }

    function Key(): BrowserKey {
      if Entering? then browser.key else if RegisteringService? then key else launch.key
    }
  }

  datatype State = State(
    tables: Tables, now: nat, tasks: map<nat, Pc>, gates: map<BrowserKey, nat>,
    used: set<string>, usedExecutors: set<nat>)

  const INITIAL := State(NO_SESSIONS, 0, map[], map[], {}, {})

  datatype Action =
    | Tick(later: nat)
    | Arrive(task: nat, launch: Launch)
    | ArriveService(task: nat, key: BrowserKey, executor: nat)
    | Acquire(task: nat, executor: nat)
    | Look(task: nat)
    | LeaseGranted(task: nat, session: string, targetId: string, ttl: nat)
    | LeaseRefused(task: nat)
    | CheckActive(task: nat)
    | Expire(task: nat)
    | GiveUp(task: nat)
    | Launched(task: nat, executor: nat)
    | ReadShared(task: nat)
    | ListPort(task: nat, session: string, readAt: nat, port: nat, deadline: nat, ttl: nat, target: LeaseTarget,
               endpoint: string, persistCookies: bool)
    | Enter(task: nat, id: string)
    | DoDisconnect(session: string, principal: string, id: string)
    | DoReap
    | DoDrain(ns: Option<string>)
    | DoRevoke(principal: string)
    | DoEnded(id: string)

  function Finish(s: State, task: nat): State
    requires task in s.tasks
  {
    var pc := s.tasks[task];
    s.(tasks := s.tasks - {task}, gates := if pc.Gated() then s.gates - {pc.Key()} else s.gates)
  }

  function Move(s: State, task: nat, pc: Pc): State {
    s.(tasks := s.tasks[task := pc])
  }

  predicate Enabled(s: State, a: Action) {
    match a
    case Tick(later) => later >= s.now
    case Arrive(task, _) => task !in s.tasks
    case ArriveService(task, _, executor) => task !in s.tasks && executor !in s.usedExecutors
    case Acquire(task, executor) =>
      && task in s.tasks && s.tasks[task].AtGate? && s.tasks[task].launch.key !in s.gates
      && (s.tasks[task].launch.kind.HandOff? ==> executor !in s.usedExecutors)
    case Look(task) => task in s.tasks && s.tasks[task].Looking?
    case LeaseGranted(task, session, _, _) => task in s.tasks && s.tasks[task].Leasing? && session !in s.used
    case LeaseRefused(task) => task in s.tasks && s.tasks[task].Leasing?
    case CheckActive(task) => task in s.tasks && s.tasks[task].LeaseFailed?
    case Expire(task) => task in s.tasks && s.tasks[task].Expiring?
    case GiveUp(task) => task in s.tasks && (s.tasks[task].Launching? || s.tasks[task].Registering? ||
        s.tasks[task].RegisteringService?)
    case Launched(task, executor) => task in s.tasks && s.tasks[task].Launching? && executor !in s.usedExecutors
    case ReadShared(task) => task in s.tasks && s.tasks[task].HandingOff?
    case ListPort(task, session, readAt, _, _, _, _, _, _) =>
      && task in s.tasks && (s.tasks[task].Registering? || s.tasks[task].RegisteringService?)
      && session !in s.used && readAt <= s.now
    case Enter(task, id) => task in s.tasks && s.tasks[task].Entering? && id !in s.used
    case DoDisconnect(session, principal, id) =>
      HasLease(s.tables, id, session) && s.tables.browsers[id].leases[session].principal == principal
    case DoReap => true
    case DoDrain(_) => true
    case DoRevoke(_) => true
    case DoEnded(_) => true
  }

  /**
   * The gate taken: a handoff goes on to read the index, an exclusive login launches, others look for
   * a browser to join.
   */
  function Acquired(s: State, task: nat, launch: Launch, executor: nat): State {
    var pc :=
      if launch.kind.HandOff? then HandingOff(launch, executor)
      else if launch.exclusive then Launching(launch)
      else Looking(launch);
    Move(s, task, pc).(gates := s.gates[launch.key := task],
                       usedExecutors := if launch.kind.HandOff? then s.usedExecutors + {executor} else s.usedExecutors)
  }

  /** First section of `join_browser`. */
  function Looked(s: State, task: nat, launch: Launch): Pc {
    if launch.key !in s.tables.shared || s.tables.shared[launch.key] !in s.tables.browsers then Launching(launch)
    else
      var id := s.tables.shared[launch.key];
      if s.tables.browsers[id].deadline <= s.now then Expiring(launch, id) else Leasing(launch, id)
  }

  /** The browser that a registration builds, with its one lease, by a clock read before it waits for the mutex. */
  function NewBrowser(pc: Pc, a: Action): Browser
    requires a.ListPort? && (pc.Registering? || pc.RegisteringService?)
  {
    var lease := Lease(pc.Key().principal, LeaseExpiry(a.readAt, a.ttl, a.deadline), a.target);
    Browser(pc.Key(), pc.executor, a.port, a.endpoint, a.deadline, map[a.session := lease],
            pc.RegisteringService? || pc.launch.exclusive, a.persistCookies)
  }

  /** The browser removed, if it is still there and past its deadline; the login launches its own. */
  function Expired(s: State, task: nat, launch: Launch, id: string): State {
    var t := s.tables;
    var expired := id in t.browsers && t.browsers[id].deadline <= s.now;
    Move(s.(tables := if expired then Cull(t, AllLeases(t, {id})) else t), task, Launching(launch))
  }

  function Entered(s: State, task: nat, id: string): State
    requires task in s.tasks && s.tasks[task].Entering?
  {
    Finish(s.(tables := AddBrowser(s.tables, id, s.tasks[task].browser), used := s.used + {id}), task)
  }

  function Do(s: State, a: Action): State
    requires Enabled(s, a)
  {
    match a
    case Tick(later) => s.(now := later)
    case Arrive(task, launch) => Move(s, task, AtGate(launch))
    case ArriveService(task, key, executor) =>
      Move(s, task, RegisteringService(key, executor)).(usedExecutors := s.usedExecutors + {executor})
    case Acquire(task, executor) => Acquired(s, task, s.tasks[task].launch, executor)
    case Look(task) => Move(s, task, Looked(s, task, s.tasks[task].launch))
    case LeaseGranted(task, session, targetId, ttl) =>
      var Leasing(launch, id) := s.tasks[task];
      var t := s.tables;
      var joined := id in t.browsers && t.browsers[id].deadline > s.now;
      var after := s.(tables := JoinedTables(t, id, session, targetId, launch.key.principal, ttl, s.now),
          used := s.used + {session});
      if joined then Finish(after, task) else Move(after, task, Launching(launch))
    case LeaseRefused(task) => Move(s, task, LeaseFailed(s.tasks[task].launch, s.tasks[task].id))
    case CheckActive(task) =>
      var LeaseFailed(launch, id) := s.tasks[task];
      if id in s.tables.browsers && s.tables.browsers[id].deadline > s.now then Finish(s, task)
      else Move(s, task, Expiring(launch, id))
    case Expire(task) => Expired(s, task, s.tasks[task].launch, s.tasks[task].id)
    case GiveUp(task) => Finish(s, task)
    case Launched(task, executor) =>
      var launch := s.tasks[task].launch;
      Move(s, task, if launch.kind.Login? then Registering(launch, executor) else HandingOff(launch, executor))
        .(usedExecutors := s.usedExecutors + {executor})
    case ReadShared(task) =>
      var HandingOff(launch, executor) := s.tasks[task];
      Move(s, task, Registering(launch.(exclusive := launch.exclusive || launch.key in s.tables.shared), executor))
    case ListPort(task, session, _, port, _, _, _, _, _) =>
      var pc := s.tasks[task];
      Move(s, task, Entering(NewBrowser(pc, a), session, pc.Registering?))
        .(tables := AddPort(s.tables, session, pc.Key().principal, port), used := s.used + {session})
    case Enter(task, id) => Entered(s, task, id)
    case DoDisconnect(session, _, id) => s.(tables := Cull(s.tables, {(id, session)}))
    case DoReap => s.(tables := Cull(s.tables, ExpiredLeases(s.tables, s.now)))
    case DoDrain(ns) => s.(tables := Cull(s.tables, AllLeases(s.tables, NamespaceBrowsers(s.tables, ns))))
    case DoRevoke(principal) => s.(tables := Cull(s.tables, LeasesOf(s.tables, principal)))
    case DoEnded(id) => s.(tables := Cull(s.tables, AllLeases(s.tables, {id})))
  }

  predicate Steps(states: seq<State>, actions: seq<Action>) {
    && |states| == |actions| + 1
    && forall i :: 0 <= i < |actions| ==> Enabled(states[i], actions[i]) && states[i + 1] == Do(states[i], actions[i])
  }

  predicate IsRun(states: seq<State>, actions: seq<Action>) {
    Steps(states, actions) && states[0] == INITIAL
  }

  // What holds whenever the mutex is free.

  function Orphans(s: State): set<string> {
    set task | task in s.tasks && s.tasks[task].Entering? :: s.tasks[task].session
  }

  predicate HasExecutor(pc: Pc) {
    pc.HandingOff? || pc.Registering? || pc.RegisteringService? || pc.Entering?
  }

  function ExecutorOf(pc: Pc): nat
    requires HasExecutor(pc)
  {
    if pc.Entering? then pc.browser.executor else pc.executor
  }

  predicate OutsideTables(s: State, executor: nat) {
    executor in s.usedExecutors && forall id | id in s.tables.browsers :: s.tables.browsers[id].executor != executor
  }

  /** While its gate is held, a key can only lose the shared browser that was seen, never get another. */
  predicate Watches(s: State, key: BrowserKey, id: string) {
    id in s.used && (key in s.tables.shared ==> s.tables.shared[key] == id) &&
    (id in s.tables.browsers ==> s.tables.browsers[id].key == key)
  }

  /** The promise behind a launch that will enter as shared. */
  predicate MayEnter(s: State, key: BrowserKey, exclusive: bool) {
    !exclusive ==> key !in s.tables.shared
  }

  predicate PcOk(s: State, pc: Pc) {
    && (HasExecutor(pc) ==> OutsideTables(s, ExecutorOf(pc)))
    && match pc
       case AtGate(_) => true
       case Looking(launch) => true
       case Leasing(launch, id) => Watches(s, launch.key, id)
       case LeaseFailed(launch, id) => Watches(s, launch.key, id)
       case Expiring(launch, id) => Watches(s, launch.key, id) &&
           (id in s.tables.browsers ==> s.tables.browsers[id].deadline <= s.now)
       case Launching(launch) => MayEnter(s, launch.key, launch.exclusive)
       case HandingOff(_, _) => true
       case Registering(launch, _) => MayEnter(s, launch.key, launch.exclusive)
       case RegisteringService(_, _) => true
       case Entering(b, session, gated) =>
         && MayEnter(s, b.key, b.exclusive) && (!b.exclusive ==> gated)
         && session in s.tables.ports && s.tables.ports[session] == (b.key.principal, b.port)
         && b.leases.Keys == {session}
         && b.leases[session].principal == b.key.principal && b.leases[session].expiresAt <= b.deadline
  }

  predicate TasksOk(s: State) {
    forall task | task in s.tasks :: PcOk(s, s.tasks[task])
  }

  /** The gate of a key is held by exactly the task that is past it. */
  predicate GatesOk(s: State) {
    && (forall task | task in s.tasks && s.tasks[task].Gated() ::
          s.tasks[task].Key() in s.gates && s.gates[s.tasks[task].Key()] == task)
    && (forall key | key in s.gates :: s.gates[key] in s.tasks && s.tasks[s.gates[key]].Gated() &&
          s.tasks[s.gates[key]].Key() == key)
  }

  /** Two tasks that do not clash in what they are about to put into the tables. */
  predicate Apart(p: Pc, q: Pc) {
    && (HasExecutor(p) && HasExecutor(q) ==> ExecutorOf(p) != ExecutorOf(q))
    && (p.Entering? && q.Entering? ==> p.session != q.session)
  }

  predicate TasksApart(s: State) {
    forall a, b | a in s.tasks && b in s.tasks && a != b :: Apart(s.tasks[a], s.tasks[b])
  }

  predicate IdsUsed(s: State) {
    && s.tables.browsers.Keys <= s.used && s.tables.ports.Keys <= s.used
    && forall id | id in s.tables.browsers :: s.tables.browsers[id].executor in s.usedExecutors
  }

  ghost predicate Inv(s: State) {
    Consistent(s.tables, Orphans(s)) && TasksOk(s) && GatesOk(s) && TasksApart(s) && IdsUsed(s)
  }

  /** Tables that have only shrunk, as far as a waiting task with `key` can tell. */
  predicate Narrower(t: Tables, t': Tables, key: BrowserKey) {
    && (key in t'.shared ==> key in t.shared && t'.shared[key] == t.shared[key])
    && (forall id | id in t'.browsers && id in t.browsers ::
          t'.browsers[id].key == t.browsers[id].key && t'.browsers[id].deadline == t.browsers[id].deadline &&
          t'.browsers[id].executor == t.browsers[id].executor)
  }

  lemma PcFrame(s: State, s': State, pc: Pc)
    requires PcOk(s, pc)
    requires pc.Gated() ==> Narrower(s.tables, s'.tables, pc.Key())
    requires forall id | id in s'.tables.browsers && id !in s.tables.browsers :: id !in s.used
    requires s.used <= s'.used && s.now <= s'.now && s.usedExecutors <= s'.usedExecutors
    requires HasExecutor(pc) ==> OutsideTables(s', ExecutorOf(pc))
    requires pc.Entering? ==> pc.session in s'.tables.ports && s'.tables.ports[pc.session] == s.tables.ports[pc.session]
    ensures PcOk(s', pc)
  {
  }

  lemma PcStays(s: State, s': State, pc: Pc)
    requires PcOk(s, pc) && s'.tables == s.tables && s'.now == s.now && s'.used == s.used &&
        s'.usedExecutors == s.usedExecutors
    ensures PcOk(s', pc)
  {
  }

  predicate SameEntering(s: State, s': State) {
    && (forall task | task in s.tasks && s.tasks[task].Entering? :: task in s'.tasks && s'.tasks[task] == s.tasks[task])
    && (forall task | task in s'.tasks && s'.tasks[task].Entering? ::
          task in s.tasks && s'.tasks[task] == s.tasks[task])
  }

  lemma SameOrphans(s: State, s': State)
    requires SameEntering(s, s')
    ensures Orphans(s') == Orphans(s)
  {
    forall session | session in Orphans(s) ensures session in Orphans(s') {
      var task :| task in s.tasks && s.tasks[task].Entering? && s.tasks[task].session == session;
      assert task in s'.tasks && s'.tasks[task] == s.tasks[task];
    }
    forall session | session in Orphans(s') ensures session in Orphans(s) {
      var task :| task in s'.tasks && s'.tasks[task].Entering? && s'.tasks[task].session == session;
      assert task in s.tasks && s'.tasks[task] == s.tasks[task];
    }
  }

  /** The tables shrink or gain a lease while every task stays where it is. */
  lemma TablesKeepInv(s: State, t: Tables, used: set<string>)
    requires Inv(s) && Consistent(t, Orphans(s))
    requires t.browsers.Keys <= s.tables.browsers.Keys && t.ports.Keys <= used && s.used <= used
    requires forall key :: Narrower(s.tables, t, key)
    requires forall session | session in Orphans(s) :: session in t.ports && t.ports[session] == s.tables.ports[session]
    ensures Inv(s.(tables := t, used := used))
  {
    hide Consistent;
    var s' := s.(tables := t, used := used);
    assert Narrower(s.tables, t, BrowserKey("", "", ""));
    SameOrphans(s, s');
    forall task | task in s.tasks ensures PcOk(s', s.tasks[task]) {
      var pc := s.tasks[task];
      assert Narrower(s.tables, t, pc.Key());
      assert pc.Entering? ==> pc.session in Orphans(s);
      PcFrame(s, s', pc);
    }
  }

  lemma CullNarrows(t: Tables, gone: set<LeaseRef>, orphans: set<string>)
    requires Consistent(t, orphans) && Listed(t, gone)
    ensures
      var t' := Cull(t, gone);
      && t'.browsers.Keys <= t.browsers.Keys && t'.ports.Keys <= t.ports.Keys
      && (forall key :: Narrower(t, t', key))
      && (forall session | session in orphans :: session in t'.ports && t'.ports[session] == t.ports[session])
  {
    forall session | session in orphans ensures session !in Sessions(gone) {
      assert forall g | g in gone && g.1 == session :: HasLease(t, g.0, g.1);
    }
  }

  lemma CullKeepsInv(s: State, gone: set<LeaseRef>)
    requires Inv(s) && Listed(s.tables, gone)
    ensures Inv(s.(tables := Cull(s.tables, gone)))
  {
    CullKeepsConsistent(s.tables, gone, Orphans(s));
    CullNarrows(s.tables, gone, Orphans(s));
    hide Cull, Consistent, Narrower;
    TablesKeepInv(s, Cull(s.tables, gone), s.used);
    assert s.(tables := Cull(s.tables, gone), used := s.used) == s.(tables := Cull(s.tables, gone));
  }

  /** One task placed at `pc`, the others left where they are. */
  lemma PlaceApart(s: State, s': State, task: nat, pc: Pc)
    requires TasksApart(s) && s'.tasks == s.tasks[task := pc]
    requires forall other | other in s.tasks && other != task :: Apart(pc, s.tasks[other]) && Apart(s.tasks[other], pc)
    ensures TasksApart(s')
  {
  }

  /** A fresh executor is no other task's. */
  lemma FreshApart(s: State, task: nat, pc: Pc)
    requires TasksOk(s) && TasksApart(s) && !pc.Entering?
    requires HasExecutor(pc) ==>
               || (task in s.tasks && HasExecutor(s.tasks[task]) && ExecutorOf(pc) == ExecutorOf(s.tasks[task]))
               || ExecutorOf(pc) !in s.usedExecutors
    ensures forall other | other in s.tasks && other != task :: Apart(pc, s.tasks[other]) && Apart(s.tasks[other], pc)
  {
    forall other | other in s.tasks && other != task ensures Apart(pc, s.tasks[other]) && Apart(s.tasks[other], pc) {
      assert PcOk(s, s.tasks[other]);
    }
  }

  /** Tasks that stay put keep what they know while only the task table, the gates and the executor set change. */
  lemma OthersOk(s: State, s': State, task: nat)
    requires TasksOk(s) && s'.tables == s.tables && s'.now == s.now && s'.used == s.used &&
        s.usedExecutors <= s'.usedExecutors
    requires forall other | other in s'.tasks && other != task :: other in s.tasks && s'.tasks[other] == s.tasks[other]
    ensures forall other | other in s'.tasks && other != task :: PcOk(s', s'.tasks[other])
  {
    forall other | other in s'.tasks && other != task ensures PcOk(s', s'.tasks[other]) {
      PcFrame(s, s', s'.tasks[other]);
    }
  }

  lemma GatesMove(s: State, s': State, task: nat, pc: Pc)
    requires GatesOk(s) && task in s.tasks && s'.tasks == s.tasks[task := pc] && s'.gates == s.gates
    requires pc.Gated() == s.tasks[task].Gated() && pc.Key() == s.tasks[task].Key()
    ensures GatesOk(s')
  {
  }

  lemma GatesFinish(s: State, task: nat)
    requires GatesOk(s) && task in s.tasks
    ensures GatesOk(Finish(s, task))
  {
  }

  lemma GatesPass(s: State, s': State, task: nat, pc: Pc)
    requires GatesOk(s) && (task in s.tasks ==> !s.tasks[task].Gated()) && s'.tasks == s.tasks[task := pc]
    requires pc.Gated() ==> pc.Key() !in s.gates
    requires s'.gates == if pc.Gated() then s.gates[pc.Key() := task] else s.gates
    ensures GatesOk(s')
  {
  }

  /** A task that goes on to another place, without touching the tables or passing a gate. */
  lemma MoveKeepsInv(s: State, task: nat, pc: Pc, executors: set<nat>)
    requires Inv(s) && task in s.tasks && s.usedExecutors <= executors
    requires !pc.Entering? && !s.tasks[task].Entering?
    requires pc.Gated() == s.tasks[task].Gated() && pc.Key() == s.tasks[task].Key()
    requires PcOk(s.(usedExecutors := executors), pc)
    requires HasExecutor(pc) && !(HasExecutor(s.tasks[task]) && ExecutorOf(pc) == ExecutorOf(s.tasks[task])) ==>
               ExecutorOf(pc) !in s.usedExecutors
    ensures Inv(Move(s, task, pc).(usedExecutors := executors))
  {
    var s' := Move(s, task, pc).(usedExecutors := executors);
    hide Consistent, PcOk, Apart, HasExecutor, Orphans, GatesOk, TasksApart;
    PcStays(s.(usedExecutors := executors), s', pc);
    SameOrphans(s, s');
    OthersOk(s, s', task);
    FreshApart(s, task, pc);
    PlaceApart(s, s', task, pc);
    GatesMove(s, s', task, pc);
  }

  lemma FinishKeepsInv(s: State, task: nat)
    requires Inv(s) && task in s.tasks && !s.tasks[task].Entering?
    ensures Inv(Finish(s, task))
  {
    hide Consistent, PcOk, Apart, HasExecutor, Orphans, GatesOk;
    var s' := Finish(s, task);
    SameOrphans(s, s');
    OthersOk(s, s', task);
    GatesFinish(s, task);
  }

  /** A new task, or one that takes its gate. */
  lemma PassKeepsInv(s: State, s': State, task: nat, pc: Pc)
    requires Inv(s) && (task in s.tasks ==> s.tasks[task].AtGate?)
    requires s' == s.(tasks := s.tasks[task := pc], gates := s'.gates, usedExecutors := s'.usedExecutors) &&
        s.usedExecutors <= s'.usedExecutors
    requires !pc.Entering? && PcOk(s', pc) && (HasExecutor(pc) ==> ExecutorOf(pc) !in s.usedExecutors)
    requires pc.Gated() ==> pc.Key() !in s.gates
    requires s'.gates == if pc.Gated() then s.gates[pc.Key() := task] else s.gates
    ensures Inv(s')
  {
    hide Consistent, PcOk, Apart, HasExecutor, Orphans, GatesOk, TasksApart;
    SameOrphans(s, s');
    OthersOk(s, s', task);
    FreshApart(s, task, pc);
    PlaceApart(s, s', task, pc);
    GatesPass(s, s', task, pc);
  }

  // Registration.

  lemma OrphansPlaced(s: State, s': State, task: nat, pc: Pc)
    requires s'.tasks == s.tasks[task := pc] && pc.Entering? && (task in s.tasks ==> !s.tasks[task].Entering?)
    ensures Orphans(s') == Orphans(s) + {pc.session}
  {
    forall session | session in Orphans(s') ensures session in Orphans(s) + {pc.session} {
      var other :| other in s'.tasks && s'.tasks[other].Entering? && s'.tasks[other].session == session;
      assert other != task ==> other in s.tasks;
    }
    forall session | session in Orphans(s) + {pc.session} ensures session in Orphans(s') {
      if session == pc.session {
        assert task in s'.tasks;
      } else {
        var other :| other in s.tasks && s.tasks[other].Entering? && s.tasks[other].session == session;
        assert s'.tasks[other] == s.tasks[other];
      }
    }
  }

  lemma OrphansLeave(s: State, s': State, task: nat)
    requires TasksApart(s) && task in s.tasks && s.tasks[task].Entering? && s'.tasks == s.tasks - {task}
    ensures Orphans(s') == Orphans(s) - {s.tasks[task].session}
  {
    forall session | session in Orphans(s') ensures session in Orphans(s) - {s.tasks[task].session} {
      var other :| other in s'.tasks && s'.tasks[other].Entering? && s'.tasks[other].session == session;
      assert other != task && Apart(s.tasks[other], s.tasks[task]);
    }
    forall session | session in Orphans(s) - {s.tasks[task].session} ensures session in Orphans(s') {
      var other :| other in s.tasks && s.tasks[other].Entering? && s.tasks[other].session == session;
      assert other in s'.tasks;
    }
  }

  lemma OthersWhileListing(s: State, s': State, task: nat, pc: Pc, other: nat)
    requires TasksApart(s) && task in s.tasks && other in s.tasks && other != task && PcOk(s, s.tasks[other])
    requires !s.tasks[task].Entering? && pc.Entering? && pc.session !in s.used && s.tables.ports.Keys <= s.used
    requires HasExecutor(s.tasks[task]) && ExecutorOf(pc) == ExecutorOf(s.tasks[task])
    requires s' == s.(tables := AddPort(s.tables, pc.session, pc.browser.key.principal, pc.browser.port),
                      tasks := s.tasks[task := pc], used := s.used + {pc.session})
    ensures PcOk(s', s.tasks[other]) && Apart(pc, s.tasks[other]) && Apart(s.tasks[other], pc)
  {
    assert Apart(s.tasks[task], s.tasks[other]);
    PcFrame(s, s', s.tasks[other]);
  }

  lemma PortListed(s: State, s': State, task: nat, pc: Pc)
    requires Inv(s) && task in s.tasks && !s.tasks[task].Entering? && pc.Entering?
    requires pc.session !in s.used && HasExecutor(s.tasks[task]) && ExecutorOf(pc) == ExecutorOf(s.tasks[task])
    requires pc.Gated() == s.tasks[task].Gated() && pc.Key() == s.tasks[task].Key()
    requires s' == s.(tables := AddPort(s.tables, pc.session, pc.browser.key.principal, pc.browser.port),
                      tasks := s.tasks[task := pc], used := s.used + {pc.session})
    requires PcOk(s', pc)
    ensures Inv(s')
  {
    hide Consistent, PcOk, Apart, HasExecutor, Orphans, GatesOk, TasksApart;
    AddPortKeepsConsistent(s.tables, pc.session, pc.browser.key.principal, pc.browser.port, Orphans(s));
    OrphansPlaced(s, s', task, pc);
    forall other | other in s.tasks && other != task
      ensures PcOk(s', s.tasks[other]) && Apart(pc, s.tasks[other]) && Apart(s.tasks[other], pc)
    {
      OthersWhileListing(s, s', task, pc, other);
    }
    PlaceApart(s, s', task, pc);
    GatesMove(s, s', task, pc);
  }

  /** The start gate at work: no other task can be relying on the key that now becomes shared. */
  lemma OthersWhileEntering(s: State, task: nat, id: string, other: nat)
    requires Inv(s) && task in s.tasks && s.tasks[task].Entering? && id !in s.used && other in s.tasks && other != task
    ensures PcOk(Entered(s, task, id), s.tasks[other])
  {
    var s', pc, b := Entered(s, task, id), s.tasks[other], s.tasks[task].browser;
    assert PcOk(s, s.tasks[task]) && PcOk(s, pc) && Apart(s.tasks[task], pc);
    if pc.Gated() && !b.exclusive {
      assert s.gates[b.key] == task && s.gates[pc.Key()] == other;
    }
    PcFrame(s, s', pc);
  }

  lemma EnterConsistent(s: State, task: nat, id: string)
    requires Inv(s) && task in s.tasks && s.tasks[task].Entering? && id !in s.used
    ensures Consistent(Entered(s, task, id).tables, Orphans(Entered(s, task, id)))
  {
    var Entering(b, session, gated) := s.tasks[task];
    assert PcOk(s, s.tasks[task]) && session in Orphans(s);
    hide Consistent, Apart, Orphans, GatesOk;
    AddBrowserKeepsConsistent(s.tables, id, b, session, Orphans(s));
    OrphansLeave(s, Entered(s, task, id), task);
  }

  lemma EnterKeepsInv(s: State, task: nat, id: string)
    requires Inv(s) && task in s.tasks && s.tasks[task].Entering? && id !in s.used
    ensures Inv(Entered(s, task, id))
  {
    var s' := Entered(s, task, id);
    var Entering(b, session, gated) := s.tasks[task];
    assert PcOk(s, s.tasks[task]);
    forall other | other in s'.tasks ensures PcOk(s', s'.tasks[other]) {
      OthersWhileEntering(s, task, id, other);
    }
    EnterConsistent(s, task, id);
    hide Consistent, PcOk, Apart, HasExecutor, Orphans, GatesOk;
    GatesFinish(s.(tables := AddBrowser(s.tables, id, b), used := s.used + {id}), task);
  }

  // Joining.

  /** When the browser that was seen is gone, the key has no shared browser: nobody else could have entered one. */
  lemma NoSharedLeft(s: State, key: BrowserKey, id: string)
    requires Inv(s) && Watches(s, key, id) && id !in s.tables.browsers
    ensures key !in s.tables.shared
  {
  }

  lemma AddLeaseNarrows(t: Tables, id: string, session: string, lease: Lease, orphans: set<string>)
    requires Consistent(t, orphans) && id in t.browsers && session !in t.ports
    ensures
      var t' := AddLease(t, id, session, lease);
      && t'.browsers.Keys == t.browsers.Keys && t'.ports.Keys == t.ports.Keys + {session}
      && (forall key :: Narrower(t, t', key))
      && (forall s | s in orphans :: s in t'.ports && t'.ports[s] == t.ports[s])
  {
  }

  lemma JoinSectionKeepsInv(s: State, launch: Launch, id: string, session: string, targetId: string, ttl: nat)
    requires Inv(s) && Watches(s, launch.key, id) && session !in s.used
    ensures
      var t := JoinedTables(s.tables, id, session, targetId, launch.key.principal, ttl, s.now);
      && Inv(s.(tables := t, used := s.used + {session}))
      && (id in t.browsers ==> id in s.tables.browsers && s.tables.browsers[id].deadline > s.now)
      && Watches(s.(tables := t, used := s.used + {session}), launch.key, id)
  {
    var principal := launch.key.principal;
    JoinKeepsConsistent(s.tables, id, session, targetId, principal, ttl, s.now, Orphans(s));
    var t := JoinedTables(s.tables, id, session, targetId, principal, ttl, s.now);
    if id in s.tables.browsers && s.tables.browsers[id].deadline <= s.now {
      AllListed(s.tables, {id});
      CullNarrows(s.tables, AllLeases(s.tables, {id}), Orphans(s));
      TakenOut(s.tables, id);
    } else if id in s.tables.browsers {
      AddLeaseNarrows(s.tables, id, session,
        Lease(principal, LeaseExpiry(s.now, ttl, s.tables.browsers[id].deadline), Tab(targetId)), Orphans(s));
    } else {
      assert forall key :: Narrower(s.tables, t, key);
    }
    assert Narrower(s.tables, t, launch.key);
    hide Consistent, JoinedTables, TasksOk, TasksApart, GatesOk;
    TablesKeepInv(s, t, s.used + {session});
  }

  lemma TakenOut(t: Tables, id: string)
    ensures id !in Cull(t, AllLeases(t, {id})).browsers
  {
    if id in t.browsers {
      assert Left(t.browsers[id], id, AllLeases(t, {id})) == map[];
    }
  }

  lemma LookKeepsInv(s: State, task: nat)
    requires Inv(s) && task in s.tasks && s.tasks[task].Looking?
    ensures Inv(Move(s, task, Looked(s, task, s.tasks[task].launch)))
  {
    var pc := Looked(s, task, s.tasks[task].launch);
    assert IndexAgrees(s.tables) && IdsUsed(s);
    assert PcOk(s, pc);
    hide PcOk, GatesOk, Consistent, TasksOk, TasksApart;
    MoveKeepsInv(s, task, pc, s.usedExecutors);
    assert Move(s, task, pc).(usedExecutors := s.usedExecutors) == Move(s, task, pc);
  }

  lemma LeaseGrantedKeepsInv(s: State, a: Action)
    requires Inv(s) && a.LeaseGranted? && Enabled(s, a)
    ensures Inv(Do(s, a))
  {
    var Leasing(launch, id) := s.tasks[a.task];
    assert PcOk(s, s.tasks[a.task]);
    hide PcOk, GatesOk, Consistent, TasksOk, TasksApart, JoinedTables, IdsUsed;
    JoinSectionKeepsInv(s, launch, id, a.session, a.targetId, a.ttl);
    var after := s.(tables := JoinedTables(s.tables, id, a.session, a.targetId, launch.key.principal, a.ttl, s.now),
        used := s.used + {a.session});
    if id in s.tables.browsers && s.tables.browsers[id].deadline > s.now {
      FinishKeepsInv(after, a.task);
    } else {
      NoSharedLeft(after, launch.key, id);
      LaunchAfter(after, a.task, launch);
    }
  }

  /** Going on to launch once it is known that the key has no shared browser. */
  lemma LaunchAfter(s: State, task: nat, launch: Launch)
    requires Inv(s) && task in s.tasks && (s.tasks[task].Leasing? || s.tasks[task].Expiring?) &&
        s.tasks[task].launch == launch
    requires launch.key !in s.tables.shared
    ensures Inv(Move(s, task, Launching(launch)))
  {
    assert PcOk(s, Launching(launch));
    hide PcOk, GatesOk, Consistent, TasksOk, TasksApart;
    MoveKeepsInv(s, task, Launching(launch), s.usedExecutors);
    assert Move(s, task, Launching(launch)).(usedExecutors := s.usedExecutors) == Move(s, task, Launching(launch));
  }

  lemma TakenKeepsWatch(s: State, key: BrowserKey, id: string)
    requires Inv(s) && Watches(s, key, id)
    ensures
      var s' := s.(tables := Cull(s.tables, AllLeases(s.tables, {id})));
      Inv(s') && Watches(s', key, id) && id !in s'.tables.browsers
  {
    AllListed(s.tables, {id});
    CullKeepsInv(s, AllLeases(s.tables, {id}));
    hide TasksOk, GatesOk, TasksApart;
    CullNarrows(s.tables, AllLeases(s.tables, {id}), Orphans(s));
    TakenOut(s.tables, id);
    assert Narrower(s.tables, Cull(s.tables, AllLeases(s.tables, {id})), key);
  }

  lemma ExpireKeepsInv(s: State, task: nat)
    requires Inv(s) && task in s.tasks && s.tasks[task].Expiring?
    ensures Inv(Expired(s, task, s.tasks[task].launch, s.tasks[task].id))
  {
    var Expiring(launch, id) := s.tasks[task];
    hide GatesOk, Consistent, TasksApart, Cull, AllLeases, IdsUsed;
    assert PcOk(s, s.tasks[task]);
    hide PcOk, TasksOk, Watches;
    if id in s.tables.browsers {
      TakenKeepsWatch(s, launch.key, id);
      var s' := s.(tables := Cull(s.tables, AllLeases(s.tables, {id})));
      NoSharedLeft(s', launch.key, id);
      LaunchAfter(s', task, launch);
    } else {
      NoSharedLeft(s, launch.key, id);
      LaunchAfter(s, task, launch);
    }
  }

  lemma NewBrowserReady(s: State, a: Action)
    requires a.ListPort? && Enabled(s, a) && PcOk(s, s.tasks[a.task])
    ensures
      var pc := s.tasks[a.task];
      PcOk(Do(s, a), Entering(NewBrowser(pc, a), a.session, pc.Registering?))
  {
  }

  lemma ListPortKeepsInv(s: State, a: Action)
    requires Inv(s) && a.ListPort? && Enabled(s, a)
    ensures Inv(Do(s, a))
  {
    var pc := s.tasks[a.task];
    NewBrowserReady(s, a);
    hide PcOk, GatesOk, Consistent, TasksOk, TasksApart, IdsUsed;
    PortListed(s, Do(s, a), a.task, Entering(NewBrowser(pc, a), a.session, pc.Registering?));
  }

  lemma TickKeepsInv(s: State, later: nat)
    requires Inv(s) && later >= s.now
    ensures Inv(s.(now := later))
  {
    hide Consistent;
    var s' := s.(now := later);
    SameOrphans(s, s');
    forall task | task in s.tasks ensures PcOk(s', s.tasks[task]) {
      PcFrame(s, s', s.tasks[task]);
    }
  }

  /** Moves that need nothing but the place of the task. */
  lemma LocalKeepsInv(s: State, a: Action)
    requires Inv(s) && Enabled(s, a) && (a.LeaseRefused? || a.Launched? || a.ReadShared?)
    ensures Inv(Do(s, a))
  {
    hide Consistent, GatesOk, TasksApart, IdsUsed;
    var s' := Do(s, a);
    var pc := s'.tasks[a.task];
    LocalPlace(s, a);
    hide PcOk, TasksOk;
    MoveKeepsInv(s, a.task, pc, s'.usedExecutors);
  }

  lemma LocalPlace(s: State, a: Action)
    requires TasksOk(s) && Enabled(s, a) && (a.LeaseRefused? || a.Launched? || a.ReadShared?)
    requires a.Launched? ==> IdsUsed(s)
    ensures
      var s' := Do(s, a);
      && s' == Move(s, a.task, s'.tasks[a.task]).(usedExecutors := s'.usedExecutors)
      && PcOk(s.(usedExecutors := s'.usedExecutors), s'.tasks[a.task])
  {
    assert PcOk(s, s.tasks[a.task]);
  }

  lemma CheckActiveKeepsInv(s: State, task: nat)
    requires Inv(s) && task in s.tasks && s.tasks[task].LeaseFailed?
    ensures Inv(Do(s, CheckActive(task)))
  {
    hide Consistent, GatesOk, TasksApart, IdsUsed;
    var LeaseFailed(launch, id) := s.tasks[task];
    assert PcOk(s, s.tasks[task]);
    if id in s.tables.browsers && s.tables.browsers[id].deadline > s.now {
      FinishKeepsInv(s, task);
    } else {
      assert PcOk(s, Expiring(launch, id));
      hide PcOk, TasksOk;
      MoveKeepsInv(s, task, Expiring(launch, id), s.usedExecutors);
    }
  }

  lemma PassingKeepsInv(s: State, a: Action)
    requires Inv(s) && Enabled(s, a) && (a.Arrive? || a.ArriveService? || a.Acquire?)
    ensures Inv(Do(s, a))
  {
    var s' := Do(s, a);
    var pc := s'.tasks[a.task];
    assert PcOk(s', pc);
    hide PcOk, GatesOk, Consistent, TasksOk, TasksApart;
    PassKeepsInv(s, s', a.task, pc);
  }

  lemma TeardownKeepsInv(s: State, a: Action)
    requires Inv(s) && Enabled(s, a) && (a.DoDisconnect? || a.DoReap? || a.DoDrain? || a.DoRevoke? || a.DoEnded?)
    ensures Inv(Do(s, a))
  {
    var t := s.tables;
    hide GatesOk, Consistent, TasksOk, TasksApart, Cull;
    if a.DoDisconnect? {
      CullKeepsInv(s, {(a.id, a.session)});
    } else if a.DoReap? {
      CullKeepsInv(s, ExpiredLeases(t, s.now));
    } else if a.DoDrain? {
      CullKeepsInv(s, AllLeases(t, NamespaceBrowsers(t, a.ns)));
    } else if a.DoRevoke? {
      CullKeepsInv(s, LeasesOf(t, a.principal));
    } else {
      CullKeepsInv(s, AllLeases(t, {a.id}));
    }
  }

  lemma StepKeepsInv(s: State, a: Action)
    requires Inv(s) && Enabled(s, a)
    ensures Inv(Do(s, a))
  {
    hide GatesOk, Consistent, TasksOk, TasksApart, IdsUsed, PcOk;
    match a
    case Tick(later) => TickKeepsInv(s, later);
    case Look(task) => LookKeepsInv(s, task);
    case LeaseGranted(_, _, _, _) => LeaseGrantedKeepsInv(s, a);
    case CheckActive(task) => CheckActiveKeepsInv(s, task);
    case Expire(task) => ExpireKeepsInv(s, task);
    case GiveUp(task) => FinishKeepsInv(s, task);
    case ListPort(_, _, _, _, _, _, _, _, _) => ListPortKeepsInv(s, a);
    case Enter(task, id) => EnterKeepsInv(s, task, id);
    case LeaseRefused(_) => LocalKeepsInv(s, a);
    case Launched(_, _) => LocalKeepsInv(s, a);
    case ReadShared(_) => LocalKeepsInv(s, a);
    case Arrive(_, _) => PassingKeepsInv(s, a);
    case ArriveService(_, _, _) => PassingKeepsInv(s, a);
    case Acquire(_, _) => PassingKeepsInv(s, a);
    case _ => TeardownKeepsInv(s, a);
  }

  lemma {:induction false} RunKeepsInv(states: seq<State>, actions: seq<Action>, n: nat)
    requires IsRun(states, actions) && n < |states|
    ensures Inv(states[n])
  {
    hide Do, Enabled;
    if n == 0 {
      InitialInv();
    } else {
      hide Inv;
      RunKeepsInv(states, actions, n - 1);
      StepKeepsInv(states[n - 1], actions[n - 1]);
    }
  }

  lemma InitialInv()
    ensures Inv(INITIAL)
  {
    assert Orphans(INITIAL) == {};
  }

  /**
   * In every reachable state, `shared_browsers` is exactly the map from key to id of the browsers
   * that are not exclusive, so no key ever has two shared browsers.
   */
  lemma SharedIndexExact(states: seq<State>, actions: seq<Action>, n: nat)
    requires IsRun(states, actions) && n < |states|
    ensures
      var t := states[n].tables;
      && (forall key, id :: key in t.shared && t.shared[key] == id <==>
            id in t.browsers && !t.browsers[id].exclusive && t.browsers[id].key == key)
      && (forall id, id' | id in t.browsers && id' in t.browsers && !t.browsers[id].exclusive &&
            !t.browsers[id'].exclusive ::
            t.browsers[id].key == t.browsers[id'].key ==> id == id')
  {
    RunKeepsInv(states, actions, n);
    var t := states[n].tables;
    assert IndexAgrees(t);
  }

  /**
   * In every reachable state: a lease has its port entry, its key's principal and an expiry within
   * the deadline; a port without a lease is a registration between its two steps; sessions and
   * executors belong to one browser; and no browser is without a lease.
   */
  lemma TablesAlwaysAgree(states: seq<State>, actions: seq<Action>, n: nat)
    requires IsRun(states, actions) && n < |states|
    ensures
      var s, t := states[n], states[n].tables;
      && (forall id, session | HasLease(t, id, session) ::
            var lease := t.browsers[id].leases[session];
            && lease.principal == t.browsers[id].key.principal && lease.expiresAt <= t.browsers[id].deadline
            && session in t.ports && t.ports[session] == (lease.principal, t.browsers[id].port))
      && (forall session | session in t.ports ::
            (exists id :: HasLease(t, id, session)) ||
            (exists task :: task in s.tasks && s.tasks[task].Entering? && s.tasks[task].session == session))
      && (forall id, id', session | HasLease(t, id, session) && HasLease(t, id', session) :: id == id')
      && (forall id | id in t.browsers :: t.browsers[id].leases != map[])
  {
    RunKeepsInv(states, actions, n);
    var s, t := states[n], states[n].tables;
    assert Consistent(t, Orphans(s));
    hide TasksOk, GatesOk, TasksApart, IdsUsed;
    forall id, session | HasLease(t, id, session) ensures LeaseSound(t, id, session) {}
    forall session | session in t.ports && session in Orphans(s)
      ensures exists task :: task in s.tasks && s.tasks[task].Entering? && s.tasks[task].session == session
    {
    }
  }

  // Why a launch holds the gate of its key.

  /** The same protocol with a gate that lets everybody through. */
  predicate UngatedEnabled(s: State, a: Action) {
    if a.Acquire? then
      && a.task in s.tasks && s.tasks[a.task].AtGate?
      && (s.tasks[a.task].launch.kind.HandOff? ==> a.executor !in s.usedExecutors)
    else Enabled(s, a)
  }

  function UngatedDo(s: State, a: Action): State
    requires UngatedEnabled(s, a)
  {
    if a.Acquire? then Acquired(s, a.task, s.tasks[a.task].launch, a.executor) else Do(s, a)
  }

  predicate UngatedSteps(states: seq<State>, actions: seq<Action>) {
    && |states| == |actions| + 1
    && forall i :: 0 <= i < |actions| ==>
         UngatedEnabled(states[i], actions[i]) && states[i + 1] == UngatedDo(states[i], actions[i])
  }

  function LaunchSteps(task: nat, session: string, id: string): seq<Action> {
    [Launched(task, task), ListPort(task, session, 0, 0, 1, 1, Tab(session), "", false), Enter(task, id)]
  }

  /** A launch for a shared browser goes through whatever else is in the tables. */
  lemma LaunchEnters(s: State, task: nat, session: string, id: string) returns (states: seq<State>)
    requires task in s.tasks && s.tasks[task].Launching? && s.tasks[task].launch.kind.Login? &&
        !s.tasks[task].launch.exclusive
    requires session !in s.used && id !in s.used && session != id && task !in s.usedExecutors
    ensures |states| == 4 && states[0] == s && Steps(states, LaunchSteps(task, session, id))
    ensures
      var key, s' := s.tasks[task].launch.key, states[3];
      && s'.tasks == s.tasks - {task} && s'.used == s.used + {session, id} &&
          s'.usedExecutors == s.usedExecutors + {task}
      && s'.tables.shared == s.tables.shared[key := id]
      && s'.tables.browsers.Keys == s.tables.browsers.Keys + {id}
      && s'.tables.browsers[id].key == key && !s'.tables.browsers[id].exclusive
      && forall other | other in s.tables.browsers && other != id ::
          s'.tables.browsers[other] == s.tables.browsers[other]
  {
    var actions := LaunchSteps(task, session, id);
    var s1 := Do(s, actions[0]);
    var s2 := Do(s1, actions[1]);
    states := [s, s1, s2, Do(s2, actions[2])];
    assert states[3].tasks == s.tasks - {task};
    assert states[3].used == s.used + {session, id};
  }

  lemma StepsAreUngated(states: seq<State>, actions: seq<Action>)
    requires Steps(states, actions) && forall a | a in actions :: !a.Acquire?
    ensures UngatedSteps(states, actions)
  {
    hide Do, Enabled, Acquired;
  }

  lemma UngatedAppend(states: seq<State>, actions: seq<Action>, more: seq<State>, next: seq<Action>)
    requires UngatedSteps(states, actions) && UngatedSteps(more, next) && states[|states| - 1] == more[0]
    ensures UngatedSteps(states + more[1..], actions + next)
  {
    hide UngatedDo, UngatedEnabled;
    var all, acts := states + more[1..], actions + next;
    forall i | 0 <= i < |acts| ensures UngatedEnabled(all[i], acts[i]) && all[i + 1] == UngatedDo(all[i], acts[i]) {
      if i >= |actions| {
        assert all[i] == more[i - |actions|] && acts[i] == next[i - |actions|];
      }
    }
  }

  function LoginSteps(task: nat, launch: Launch): seq<Action> {
    [Arrive(task, launch), Acquire(task, 0), Look(task)]
  }

  /** Without a gate, a login that finds no shared browser goes on to launch, whoever else is about to. */
  lemma LoginLaunches(s: State, task: nat, launch: Launch) returns (states: seq<State>)
    requires task !in s.tasks && launch.kind.Login? && !launch.exclusive && launch.key !in s.tables.shared
    ensures |states| == 4 && states[0] == s && UngatedSteps(states, LoginSteps(task, launch))
    ensures states[3] == s.(tasks := s.tasks[task := Launching(launch)], gates := s.gates[launch.key := task])
  {
    var s1 := Move(s, task, AtGate(launch));
    var s2 := Acquired(s1, task, launch, 0);
    var s3 := Move(s2, task, Launching(launch));
    states := [s, s1, s2, s3];
    assert s3.tasks == s.tasks[task := Launching(launch)];
  }

  /** Two launches for one key both enter, and the second replaces the first in the index. */
  lemma BothEnter(s: State, launch: Launch) returns (first: seq<State>, second: seq<State>)
    requires 1 in s.tasks && s.tasks[1] == Launching(launch) && 2 in s.tasks && s.tasks[2] == Launching(launch)
    requires launch.kind.Login? && !launch.exclusive && s.used == {} && s.usedExecutors == {}
    ensures |first| == |second| == 4 && first[0] == s && first[3] == second[0]
    ensures UngatedSteps(first, LaunchSteps(1, "a", "x")) && UngatedSteps(second, LaunchSteps(2, "b", "y"))
    ensures
      var t := second[3].tables;
      && "x" in t.browsers && !t.browsers["x"].exclusive && t.browsers["x"].key == launch.key
      && "y" in t.browsers && !t.browsers["y"].exclusive && t.browsers["y"].key == launch.key
      && !IndexAgrees(t)
  {
    hide Do, Enabled, UngatedSteps, Steps;
    first := LaunchEnters(s, 1, "a", "x");
    second := LaunchEnters(first[3], 2, "b", "y");
    StepsAreUngated(first, LaunchSteps(1, "a", "x"));
    StepsAreUngated(second, LaunchSteps(2, "b", "y"));
    assert second[3].tables.shared[launch.key] == "y";
  }

  /** Two logins of one key, one after the other up to their launch, and then both launches. */
  function ClashingLogins(launch: Launch): seq<Action> {
    LoginSteps(1, launch) + LoginSteps(2, launch) + LaunchSteps(1, "a", "x") + LaunchSteps(2, "b", "y")
  }

  /**
   * The agreement depends on the gate: in the protocol without it, for every key, a run from the initial
   * state ends with two shared browsers of that key and an index that knows only the second.
   */
  lemma GateIsNeeded(key: BrowserKey) returns (states: seq<State>)
    ensures |states| == 13 && states[0] == INITIAL && UngatedSteps(states, ClashingLogins(Launch(key, Login, false)))
    ensures
      var t := states[12].tables;
      && "x" in t.browsers && !t.browsers["x"].exclusive && t.browsers["x"].key == key
      && "y" in t.browsers && !t.browsers["y"].exclusive && t.browsers["y"].key == key
      && !IndexAgrees(t)
  {
    hide Do, Enabled, Acquired, UngatedSteps, Steps, UngatedEnabled, UngatedDo, IndexAgrees;
    var launch := Launch(key, Login, false);
    var one := LoginLaunches(INITIAL, 1, launch);
    var two := LoginLaunches(one[3], 2, launch);
    var first, second := BothEnter(two[3], launch);
    FourParts(one, two, first, second, launch);
    states := one + two[1..] + first[1..] + second[1..];
    assert states[12] == second[3];
  }

  lemma FourParts(one: seq<State>, two: seq<State>, first: seq<State>, second: seq<State>, launch: Launch)
    requires |one| == |two| == |first| == |second| == 4 && one[3] == two[0] && two[3] == first[0] &&
        first[3] == second[0]
    requires UngatedSteps(one, LoginSteps(1, launch)) && UngatedSteps(two, LoginSteps(2, launch))
    requires UngatedSteps(first, LaunchSteps(1, "a", "x")) && UngatedSteps(second, LaunchSteps(2, "b", "y"))
    ensures UngatedSteps(one + two[1..] + first[1..] + second[1..], ClashingLogins(launch))
  {
    hide UngatedSteps;
    var six, nine := one + two[1..], one + two[1..] + first[1..];
    UngatedAppend(one, LoginSteps(1, launch), two, LoginSteps(2, launch));
    UngatedAppend(six, LoginSteps(1, launch) + LoginSteps(2, launch), first, LaunchSteps(1, "a", "x"));
    UngatedAppend(nine, LoginSteps(1, launch) + LoginSteps(2, launch) + LaunchSteps(1, "a", "x"), second,
        LaunchSteps(2, "b", "y"));
  }
}
