/** Time-limited approval grants per (principal, credential). */
module Grants {
  import opened Options

  const GENERATIONS := 0x1_0000_0000_0000_0000

  type Pair = (string, string)

  datatype Grants = Grants(ttl: nat, issued: map<Pair, nat>, generation: nat)

  function NewGrants(ttl: nat): Grants {
    Grants(ttl, map[], 0)
  }

  /** `saturating_duration_since`. */
  function Age(now: nat, at: nat): nat {
    if now <= at then 0 else now - at
  }

  function Prune(g: Grants, now: nat): Grants {
    g.(issued := map pair | pair in g.issued && Age(now, g.issued[pair]) < g.ttl :: g.issued[pair])
  }

  function Reuse(g: Grants, pair: Pair, now: nat): (Grants, bool) {
    if g.ttl == 0 then (g, false) else (Prune(g, now), pair in Prune(g, now).issued)
  }

  function Issue(g: Grants, pair: Pair, now: nat, observed: nat): (Grants, bool) {
    if g.ttl == 0 || observed != g.generation then (g, false)
    else (Prune(g, now).(issued := Prune(g, now).issued[pair := now]), true)
  }

  /** Whether revoking `ns` (`None`: everything) takes a credential's grants with it. */
  predicate Covers(ns: Option<string>, credId: string) {
    ns.None? || ns.value + ":" <= credId
  }

  function Revoke(g: Grants, ns: Option<string>): Grants {
    g.(
      issued := map pair | pair in g.issued && !Covers(ns, pair.1) :: g.issued[pair],
      generation := (g.generation + 1) % GENERATIONS
    )
  }

  class ApprovalGrants {
    const ttl: nat
    var issued: map<Pair, nat>
    var generation: nat

    ghost function View(): Grants
      reads this
    {
      Grants(ttl, issued, generation)
    }

    constructor (ttl: nat)
      ensures View() == NewGrants(ttl)
    {
      this.ttl := ttl;
      issued, generation := map[], 0;
    }

    /** `HashMap::retain`, one entry at a time, in any order. */
    static method Retain(issued: map<Pair, nat>, keep: (Pair, nat) -> bool) returns (kept: map<Pair, nat>)
      ensures kept == map pair | pair in issued && keep(pair, issued[pair]) :: issued[pair]
    {
      var todo := issued.Keys;
      kept := issued;
      while todo != {}
        invariant todo <= issued.Keys
        invariant kept == map pair | pair in issued && (pair in todo || keep(pair, issued[pair])) :: issued[pair]
        decreases |todo|
      {
        var pair :| pair in todo;
        if !keep(pair, issued[pair]) {
          kept := kept - {pair};
        }
        todo := todo - {pair};
      }
    }

    method PruneAt(now: nat)
      modifies this`issued
      ensures View() == Prune(old(View()), now)
      ensures forall pair :: pair in issued <==> pair in old(issued) && (ttl > 0 && now < old(issued)[pair] + ttl)
      ensures forall pair | pair in issued :: issued[pair] == old(issued)[pair]
    {
      var ttl := ttl;
      issued := Retain(issued, (_: Pair, at: nat) => Age(now, at) < ttl);
    }

    method TryReuse(principal: string, credId: string, now: nat) returns (valid: bool)
      modifies this`issued
      ensures (View(), valid) == Reuse(old(View()), (principal, credId), now)
      ensures valid <==>
        ttl > 0 && (principal, credId) in old(issued) && now < old(issued)[(principal, credId)] + ttl
    {
      if ttl == 0 {
        return false;
      }
      PruneAt(now);
      valid := (principal, credId) in issued;
    }

    method TryIssue(principal: string, credId: string, now: nat, observed: nat) returns (recorded: bool)
      modifies this`issued
      ensures (View(), recorded) == Issue(old(View()), (principal, credId), now, observed)
      ensures recorded <==> ttl > 0 && observed == old(generation)
      ensures recorded ==> (principal, credId) in issued && issued[(principal, credId)] == now
      ensures !recorded ==> issued == old(issued)
      ensures recorded ==> forall pair | pair != (principal, credId) ::
                && (pair in issued <==> pair in old(issued) && now < old(issued)[pair] + ttl)
                && (pair in issued ==> issued[pair] == old(issued)[pair])
    {
      if ttl == 0 || observed != generation {
        return false;
      }
      PruneAt(now);
      issued := issued[(principal, credId) := now];
      recorded := true;
    }

    method RevokeAll(ns: Option<string>)
      modifies this
      ensures View() == Revoke(old(View()), ns)
      ensures ns.None? ==> issued == map[]
      ensures ns.Some? && ':' !in ns.value ==>
                forall pair :: pair in issued <==> pair in old(issued) && !NamespaceOf(ns.value, pair.1)
      ensures ns.Some? ==> forall pair :: pair in issued <==> pair in old(issued) && !(ns.value + ":" <= pair.1)
      ensures forall pair | pair in issued :: issued[pair] == old(issued)[pair]
      ensures generation == (old(generation) + 1) % 0x1_0000_0000_0000_0000
    {
      generation := (generation + 1) % GENERATIONS;
      if ns.None? {
        issued := map[];
        return;
      }
      var prefix := ns.value + ":";
      issued := Retain(issued, (pair: Pair, _: nat) => !(prefix <= pair.1));
      if ':' !in ns.value {
        forall pair | pair in old(issued) ensures prefix <= pair.1 <==> NamespaceOf(ns.value, pair.1) {
          PrefixNamesNamespace(ns.value, pair.1);
        }
      }
    }
  }

  // The prefix test of `revoke` against the split that names a credential's namespace elsewhere.

  /** `split_once(':')`. */
  function SplitOnce(s: string): (r: Option<(string, string)>) {
    if s == "" then None
    else if s[0] == ':' then Some(("", s[1..]))
    else
      match SplitOnce(s[1..])
      case None => None
      case Some((left, right)) => Some(([s[0]] + left, right))
  }

  lemma {:induction false} SplitOnceSound(s: string)
    ensures SplitOnce(s).Some? <==> ':' in s
    ensures SplitOnce(s).Some? ==>
      s == SplitOnce(s).value.0 + ":" + SplitOnce(s).value.1 && ':' !in SplitOnce(s).value.0
  {
    if s != "" && s[0] != ':' {
      SplitOnceSound(s[1..]);
      assert s == [s[0]] + s[1..];
    }
  }

  /** `ns` is the namespace of `credId`, as login and the lock of a vault see it. */
  predicate NamespaceOf(ns: string, credId: string) {
    SplitOnce(credId).Some? && SplitOnce(credId).value.0 == ns
  }

  lemma {:induction false} SplitAtFirstColon(left: string, right: string)
    requires ':' !in left
    ensures SplitOnce(left + ":" + right) == Some((left, right))
  {
    var s := left + ":" + right;
    if left != "" {
      assert s[0] == left[0] && left[0] in left;
      assert s[1..] == left[1..] + ":" + right;
      SplitAtFirstColon(left[1..], right);
      assert left == [left[0]] + left[1..];
    } else {
      assert s[1..] == right;
    }
  }

  lemma PrefixNamesNamespace(ns: string, credId: string)
    requires ':' !in ns
    ensures Covers(Some(ns), credId) <==> NamespaceOf(ns, credId)
  {
    SplitOnceSound(credId);
    if Covers(Some(ns), credId) {
      var rest := credId[|ns| + 1..];
      assert credId == ns + ":" + rest;
      SplitAtFirstColon(ns, rest);
    }
  }

  /** The prefix test finds exactly the credentials of a namespace, for all of them, iff the namespace has no colon. */
  lemma PrefixTestExact(ns: string)
    ensures (forall credId :: Covers(Some(ns), credId) <==> NamespaceOf(ns, credId)) <==> ':' !in ns
  {
    if ':' !in ns {
      forall credId ensures Covers(Some(ns), credId) <==> NamespaceOf(ns, credId) {
        PrefixNamesNamespace(ns, credId);
      }
    } else {
      var credId := ns + ":";
      SplitOnceSound(credId);
      assert Covers(Some(ns), credId) && !NamespaceOf(ns, credId);
    }
  }
}

/** `approve_with_grant` under every interleaving with the vault lock that revokes grants. */
module GrantProtocol {
  import opened Options
  import opened Grants

  /** `began` is how much of the log existed when the approval behind the grant was asked for. */
  datatype Event =
    | Issued(pair: Pair, at: nat, began: nat)
    | Revoked(ns: Option<string>)

  /** A request between its two critical sections, waiting for the operator. */
  datatype Waiter = Waiter(pair: Pair, observed: nat, began: nat)

  datatype State = State(grants: Grants, now: nat, waiters: map<nat, Waiter>, log: seq<Event>)

  function Initial(ttl: nat): State {
    State(NewGrants(ttl), 0, map[], [])
  }

  datatype Action =
    | Tick(later: nat)
    | Ask(w: nat, pair: Pair)
    | Approve(w: nat)
    | Refuse(w: nat)
    | Lock(ns: Option<string>)

  predicate Enabled(s: State, a: Action) {
    match a
    case Tick(later) => later >= s.now
    case Ask(w, _) => w !in s.waiters
    case Approve(w) => w in s.waiters
    case Refuse(w) => w in s.waiters
    case Lock(_) => true
  }

  /** `Ask` is the first critical section: a reusable grant passes at once, otherwise the generation is noted. */
  function Do(s: State, a: Action): State
    requires Enabled(s, a)
  {
    match a
    case Tick(later) => s.(now := later)
    case Ask(w, pair) =>
      var (grants, valid) := Reuse(s.grants, pair, s.now);
      if valid then s.(grants := grants)
      else s.(grants := grants, waiters := s.waiters[w := Waiter(pair, grants.generation, |s.log|)])
    case Approve(w) =>
      var Waiter(pair, observed, began) := s.waiters[w];
      var (grants, recorded) := Issue(s.grants, pair, s.now, observed);
      State(grants, s.now, s.waiters - {w}, if recorded then s.log + [Issued(pair, s.now, began)] else s.log)
    case Refuse(w) => s.(waiters := s.waiters - {w})
    case Lock(ns) => s.(grants := Revoke(s.grants, ns), log := s.log + [Revoked(ns)])
  }

  predicate IsRun(states: seq<State>, actions: seq<Action>, ttl: nat) {
    && |states| == |actions| + 1
    && states[0] == Initial(ttl)
    && forall i :: 0 <= i < |actions| ==> Enabled(states[i], actions[i]) && states[i + 1] == Do(states[i], actions[i])
  }

  function Revocations(log: seq<Event>): nat {
    if log == [] then 0 else Revocations(log[..|log| - 1]) + (if log[|log| - 1].Revoked? then 1 else 0)
  }

  lemma {:induction false} RevocationsAppend(a: seq<Event>, b: seq<Event>)
    ensures Revocations(a + b) == Revocations(a) + Revocations(b)
  {
    if b == [] {
      assert a + b == a;
    } else {
      RevocationsAppend(a, b[..|b| - 1]);
      assert (a + b)[..|a + b| - 1] == a + b[..|b| - 1];
    }
  }

  /** Grant `k` of the log was not followed by a revocation that covers it. */
  predicate Standing(log: seq<Event>, k: nat, pair: Pair) {
    && k < |log| && log[k].Issued? && log[k].pair == pair
    && forall j :: k < j < |log| && log[j].Revoked? ==> !Covers(log[j].ns, pair.1)
  }

  /** The reference definition of a reusable grant, by history alone. */
  ghost predicate Reusable(s: State, pair: Pair) {
    exists k: nat :: Standing(s.log, k, pair) && s.now < s.log[k].at + s.grants.ttl
  }

  ghost predicate TableFollowsLog(s: State) {
    && (forall pair | pair in s.grants.issued ::
          exists k: nat :: Standing(s.log, k, pair) && s.log[k].at == s.grants.issued[pair])
    && (forall k: nat, pair :: Standing(s.log, k, pair) && Age(s.now, s.log[k].at) < s.grants.ttl ==>
          pair in s.grants.issued && s.log[k].at <= s.grants.issued[pair])
    && (forall k :: 0 <= k < |s.log| && s.log[k].Issued? ==> s.log[k].at <= s.now)
    && (forall pair | pair in s.grants.issued :: s.grants.issued[pair] <= s.now)
  }

  /** The generation counter after the revocations in `log`. */
  function Generation(log: seq<Event>): nat {
    Revocations(log) % GENERATIONS
  }

  predicate GenerationFollowsLog(s: State) {
    && s.grants.generation == Generation(s.log)
    && (forall w | w in s.waiters :: s.waiters[w].began <= |s.log| &&
          s.waiters[w].observed == Generation(s.log[..s.waiters[w].began]))
    && (forall k :: 0 <= k < |s.log| && s.log[k].Issued? ==>
          s.log[k].began <= k && Generation(s.log[s.log[k].began..k]) == 0)
  }

  ghost predicate Inv(s: State) {
    s.grants.ttl > 0 && TableFollowsLog(s) && GenerationFollowsLog(s)
  }

  lemma PruneKeepsTable(s: State)
    requires s.grants.ttl > 0 && TableFollowsLog(s)
    ensures TableFollowsLog(s.(grants := Prune(s.grants, s.now)))
  {
  }

  lemma StandingAfter(log: seq<Event>, event: Event, k: nat, pair: Pair)
    ensures Standing(log + [event], k, pair) <==>
      || (Standing(log, k, pair) && (event.Revoked? ==> !Covers(event.ns, pair.1)))
      || (k == |log| && event.Issued? && event.pair == pair)
  {
    var longer := log + [event];
    assert forall j :: 0 <= j < |log| ==> longer[j] == log[j];
    assert longer[|log|] == event;
  }

  lemma LockKeepsTable(s: State, ns: Option<string>)
    requires TableFollowsLog(s)
    ensures TableFollowsLog(Do(s, Lock(ns)))
  {
    var t := Do(s, Lock(ns));
    forall k: nat, pair ensures Standing(t.log, k, pair) <==> Standing(s.log, k, pair) && !Covers(ns, pair.1) {
      StandingAfter(s.log, Revoked(ns), k, pair);
    }
    forall pair | pair in t.grants.issued
      ensures exists k: nat :: Standing(t.log, k, pair) && t.log[k].at == t.grants.issued[pair]
    {
      var k: nat :| Standing(s.log, k, pair) && s.log[k].at == s.grants.issued[pair];
      assert Standing(t.log, k, pair);
    }
  }

  lemma IssueKeepsTable(s: State, pair: Pair, began: nat)
    requires s.grants.ttl > 0 && TableFollowsLog(s)
    ensures TableFollowsLog(s.(grants := s.grants.(issued := s.grants.issued[pair := s.now]),
                               log := s.log + [Issued(pair, s.now, began)]))
  {
    var event := Issued(pair, s.now, began);
    var t := s.(grants := s.grants.(issued := s.grants.issued[pair := s.now]), log := s.log + [event]);
    forall k: nat, p ensures Standing(t.log, k, p) <==> Standing(s.log, k, p) || (k == |s.log| && p == pair) {
      StandingAfter(s.log, event, k, p);
    }
    assert forall k: nat | k < |s.log| :: t.log[k] == s.log[k];
    assert forall k: nat, p | Standing(s.log, k, p) :: k < |s.log|;
    assert t.log[|s.log|] == event;
    hide Standing;
    forall p | p in t.grants.issued
      ensures exists k: nat :: Standing(t.log, k, p) && t.log[k].at == t.grants.issued[p]
    {
      if p == pair {
        assert Standing(t.log, |s.log|, p);
      } else {
        var k: nat :| Standing(s.log, k, p) && s.log[k].at == s.grants.issued[p];
        assert Standing(t.log, k, p);
      }
    }
  }

  /** Two readings of the generation agree iff the revocations between them are a multiple of 2^64. */
  lemma ReadingsAgree(log: seq<Event>, began: nat)
    requires began <= |log|
    ensures Generation(log[..began]) == Generation(log) <==> Generation(log[began..]) == 0
  {
    var head, tail := Revocations(log[..began]), Revocations(log[began..]);
    assert Revocations(log) == head + tail by {
      assert log == log[..began] + log[began..];
      RevocationsAppend(log[..began], log[began..]);
    }
    SameResidue(head, tail);
  }

  lemma SameResidue(a: nat, b: nat)
    ensures a % GENERATIONS == (a + b) % GENERATIONS <==> b % GENERATIONS == 0
  {
  }

  lemma LockKeepsGeneration(s: State, ns: Option<string>)
    requires GenerationFollowsLog(s)
    ensures GenerationFollowsLog(Do(s, Lock(ns)))
  {
    hide Generation;
    var t := Do(s, Lock(ns));
    RevocationCounts(s.log, ns);
    Beginnings(s.log, Revoked(ns));
    forall k | 0 <= k < |t.log| && t.log[k].Issued?
      ensures t.log[k].began <= k && Generation(t.log[t.log[k].began..k]) == 0
    {
      assert t.log[k] == s.log[k];
    }
  }

  lemma RevocationCounts(log: seq<Event>, ns: Option<string>)
    ensures Generation(log + [Revoked(ns)]) == (Generation(log) + 1) % GENERATIONS
  {
    assert (log + [Revoked(ns)])[..|log|] == log;
  }

  lemma Beginnings(log: seq<Event>, event: Event)
    ensures forall n | 0 <= n <= |log| :: (log + [event])[..n] == log[..n]
    ensures forall m, n | 0 <= m <= n <= |log| :: (log + [event])[m..n] == log[m..n]
  {
  }

  lemma IssueKeepsGeneration(s: State, w: nat)
    requires GenerationFollowsLog(s) && w in s.waiters
    ensures GenerationFollowsLog(Do(s, Approve(w)))
  {
    hide Generation;
    var t := Do(s, Approve(w));
    ReadingsAgree(s.log, s.waiters[w].began);
    if t.log != s.log {
      IssueFollowsLog(s, t, w, t.log[|s.log|]);
    }
  }

  lemma IssueFollowsLog(s: State, t: State, w: nat, event: Event)
    requires GenerationFollowsLog(s) && w in s.waiters && event.Issued? && event.began == s.waiters[w].began
    requires t.log == s.log + [event] && t.waiters == s.waiters - {w} && t.grants.generation == s.grants.generation
    requires Generation(s.log[event.began..]) == 0
    ensures GenerationFollowsLog(t)
  {
    hide Generation;
    IssueCountsNothing(s.log, event);
    Beginnings(s.log, event);
    assert s.log[event.began..] == s.log[event.began..|s.log|];
    forall k | 0 <= k < |t.log| && t.log[k].Issued?
      ensures t.log[k].began <= k && Generation(t.log[t.log[k].began..k]) == 0
    {
      assert k < |s.log| ==> t.log[k] == s.log[k];
    }
  }

  lemma IssueCountsNothing(log: seq<Event>, event: Event)
    requires event.Issued?
    ensures Generation(log + [event]) == Generation(log)
  {
    assert (log + [event])[..|log|] == log;
  }

  lemma AskKeepsInv(s: State, w: nat, pair: Pair)
    requires Inv(s) && w !in s.waiters
    ensures Inv(Do(s, Ask(w, pair)))
  {
    hide TableFollowsLog, Generation;
    PruneKeepsTable(s);
    var pruned := s.(grants := Prune(s.grants, s.now));
    TableFrame(pruned, pruned.waiters[w := Waiter(pair, pruned.grants.generation, |s.log|)]);
    assert s.log[..|s.log|] == s.log;
  }

  lemma ApproveKeepsInv(s: State, w: nat)
    requires Inv(s) && w in s.waiters
    ensures Inv(Do(s, Approve(w)))
  {
    hide TableFollowsLog, GenerationFollowsLog;
    IssueKeepsGeneration(s, w);
    TableFrame(s, s.waiters - {w});
    if s.waiters[w].observed == s.grants.generation {
      PruneKeepsTable(s);
      var Waiter(pair, _, began) := s.waiters[w];
      var pruned := s.(grants := Prune(s.grants, s.now));
      IssueKeepsTable(pruned, pair, began);
      TableFrame(pruned.(grants := pruned.grants.(issued := pruned.grants.issued[pair := s.now]),
                         log := s.log + [Issued(pair, s.now, began)]), s.waiters - {w});
    }
  }

  lemma TableFrame(s: State, waiters: map<nat, Waiter>)
    requires TableFollowsLog(s)
    ensures TableFollowsLog(s.(waiters := waiters))
  {
  }

  lemma StepKeepsInv(s: State, a: Action)
    requires Inv(s) && Enabled(s, a)
    ensures Inv(Do(s, a))
  {
    match a
    case Tick(_) =>
    case Refuse(_) =>
    case Ask(w, pair) => AskKeepsInv(s, w, pair);
    case Approve(w) => ApproveKeepsInv(s, w);
    case Lock(ns) =>
      LockKeepsTable(s, ns);
      LockKeepsGeneration(s, ns);
  }

  lemma {:induction false} RunKeepsInv(states: seq<State>, actions: seq<Action>, ttl: nat, i: nat)
    requires IsRun(states, actions, ttl) && ttl > 0 && i < |states|
    ensures Inv(states[i])
  {
    if i > 0 {
      RunKeepsInv(states, actions, ttl, i - 1);
      StepKeepsInv(states[i - 1], actions[i - 1]);
      assert states[i] == Do(states[i - 1], actions[i - 1]);
    }
  }

  /** Grants refine their history: `reuse` says yes iff a recorded grant is young enough and was not revoked since. */
  lemma ReuseRefinesHistory(states: seq<State>, actions: seq<Action>, ttl: nat, n: nat, pair: Pair)
    requires IsRun(states, actions, ttl) && ttl > 0 && n < |states|
    ensures Reuse(states[n].grants, pair, states[n].now).1 <==> Reusable(states[n], pair)
  {
    RunKeepsInv(states, actions, ttl, n);
  }

  /** An approval is recorded as a grant iff the revocations since it was asked for number a multiple of 2^64. */
  lemma RecordedIffUndisturbed(states: seq<State>, actions: seq<Action>, ttl: nat, n: nat)
    requires IsRun(states, actions, ttl) && ttl > 0 && n < |actions| && actions[n].Approve?
    ensures
      var s, w := states[n], states[n].waiters[actions[n].w];
      w.began <= |s.log| &&
      (states[n + 1].log == s.log + [Issued(w.pair, s.now, w.began)] <==>
          Revocations(s.log[w.began..]) % GENERATIONS == 0)
  {
    RunKeepsInv(states, actions, ttl, n);
    assert states[n + 1] == Do(states[n], actions[n]);
    ReadingsAgree(states[n].log, states[n].waiters[actions[n].w].began);
  }

  lemma {:induction false} NoRevocations(log: seq<Event>)
    requires Revocations(log) == 0
    ensures forall j :: 0 <= j < |log| ==> !log[j].Revoked?
  {
    if log != [] {
      NoRevocations(log[..|log| - 1]);
    }
  }

  lemma ZeroResidue(n: nat)
    requires n < GENERATIONS && n % GENERATIONS == 0
    ensures n == 0
  {
  }

  /** Too few revocations to wrap: a residue of zero over a stretch of the log means none. */
  lemma NoRevocationWithin(log: seq<Event>, from: nat, to: nat)
    requires from <= to <= |log|
    requires Revocations(log) < GENERATIONS && Revocations(log[from..to]) % GENERATIONS == 0
    ensures forall j :: from <= j < to ==> !log[j].Revoked?
  {
    var head, wait, rest := log[..from], log[from..to], log[to..];
    assert Revocations(wait) <= Revocations(log) by {
      assert log == head + (wait + rest);
      RevocationsAppend(head, wait + rest);
      RevocationsAppend(wait, rest);
    }
    ZeroResidue(Revocations(wait));
    NoRevocations(wait);
    forall j | from <= j < to ensures !log[j].Revoked? {
      assert log[j] == wait[j - from];
    }
  }

  /**
   * With fewer than 2^64 revocations, a reusable grant comes from an approval whose whole wait, from
   * the moment it was asked for until it was recorded, saw no revocation at all, and no revocation
   * since then covers it.
   */
  lemma ReuseMeansUndisturbedWait(states: seq<State>, actions: seq<Action>, ttl: nat, n: nat, pair: Pair)
    returns (k: nat)
    requires IsRun(states, actions, ttl) && ttl > 0 && n < |states|
    requires Revocations(states[n].log) < GENERATIONS
    requires Reuse(states[n].grants, pair, states[n].now).1
    ensures Standing(states[n].log, k, pair) && states[n].now < states[n].log[k].at + ttl
    ensures states[n].log[k].began <= k
    ensures forall j :: states[n].log[k].began <= j < k ==> !states[n].log[j].Revoked?
    ensures forall j :: states[n].log[k].began <= j < |states[n].log| && states[n].log[j].Revoked? ==>
              !Covers(states[n].log[j].ns, pair.1)
  {
    ReuseRefinesHistory(states, actions, ttl, n, pair);
    TtlConstant(states, actions, ttl, n);
    var log := states[n].log;
    k :| Standing(log, k, pair) && states[n].now < log[k].at + states[n].grants.ttl;
    assert log[k].began <= k && Revocations(log[log[k].began..k]) % GENERATIONS == 0 by {
      RunKeepsInv(states, actions, ttl, n);
    }
    NoRevocationWithin(log, log[k].began, k);
  }

  lemma {:induction false} TtlConstant(states: seq<State>, actions: seq<Action>, ttl: nat, n: nat)
    requires IsRun(states, actions, ttl) && n < |states|
    ensures states[n].grants.ttl == ttl
  {
    if n > 0 {
      TtlConstant(states, actions, ttl, n - 1);
      assert states[n] == Do(states[n - 1], actions[n - 1]);
    }
  }
}
