/** Request ids on one executor connection, from `login_begin` through the steps and past the handoff. */
module ExecutorIds {
  import opened Options

  const ID_SPACE: nat := 0x1_0000_0000_0000_0000

  function NextId(id: nat): nat {
    (id + 1) % ID_SPACE
  }

  /** Who counts the ids: the pending executor of a stepwise login, or the connection shared by a browser's leases. */
  class RequestIds {
    var nextId: nat

    constructor (first: nat)
      ensures nextId == first
    {
      nextId := first;
    }

    method TakeId() returns (id: nat)
      modifies this
      ensures id == old(nextId) && nextId == NextId(old(nextId))
    {
      id := nextId;
      nextId := (nextId + 1) % ID_SPACE;
    }
  }

  /**
   * A line from the executor. A reply echoes the id of the request it answers; `answers` is that
   * request's number. Other lines are JSON without a matching number, or not JSON at all.
   */
  datatype Line = Reply(id: nat, answers: nat) | WithoutId | Unreadable

  datatype Counter = Pending(nextId: nat) | Shared(nextId: nat)

  datatype Acceptance = Acceptance(request: nat, answers: nat)

  /**
   * `sent` holds the id of each request by its number, `waiting` the request that has the connection
   * to itself, `pipe` the lines that nobody has read yet. `killed` says that the executor was killed or
   * the stepwise login ended.
   */
  datatype State = State(
    counter: Counter, sent: seq<nat>, waiting: Option<nat>, pipe: seq<Line>, accepted: seq<Acceptance>, killed: bool)

  /** `login_begin` went out with id 1, and the counter starts after it. */
  const INITIAL := State(Pending(2), [1], Some(0), [], [], false)

  datatype Action =
    | Send                 // a request takes the connection and its id
    | GiveUp               // it times out, or cannot be written
    | Answer(request: nat) // the executor answers any request it was sent, as late or as often as it likes
    | Chatter              // a line with no id
    | Garbage              // a line that is not JSON
    | Receive              // the waiting request reads the next line
    | HandOff              // the pending executor becomes a shared connection

  predicate Enabled(s: State, a: Action) {
    match a
    case Send => s.waiting.None?
    case GiveUp => s.waiting.Some?
    case Answer(request) => request < |s.sent|
    case Chatter => true
    case Garbage => true
    case Receive => s.waiting.Some? && s.waiting.value < |s.sent| && s.pipe != []
    case HandOff => s.waiting.None? && s.counter.Pending?
  }

  predicate Accepts(s: State)
    requires Enabled(s, Receive)
  {
    s.pipe[0].Reply? && s.pipe[0].id == s.sent[s.waiting.value]
  }

  function Do(s: State, a: Action): State
    requires Enabled(s, a)
  {
    match a
    case Send =>
      s.(sent := s.sent + [s.counter.nextId], counter := s.counter.(nextId := NextId(s.counter.nextId)),
          waiting := Some(|s.sent|))
    case GiveUp => s.(waiting := None)
    case Answer(request) => s.(pipe := s.pipe + [Reply(s.sent[request], request)])
    case Chatter => s.(pipe := s.pipe + [WithoutId])
    case Garbage => s.(pipe := s.pipe + [Unreadable])
    case Receive =>
      var rest := s.(pipe := s.pipe[1..], waiting := None);
      if Accepts(s) then rest.(accepted := s.accepted + [Acceptance(s.waiting.value, s.pipe[0].answers)])
      else if s.pipe[0].Unreadable? && s.counter.Shared? then rest
      else rest.(killed := true)
    case HandOff => s.(counter := Shared(s.counter.nextId))
  }

  predicate IsRun(states: seq<State>, actions: seq<Action>) {
    && |states| == |actions| + 1 && states[0] == INITIAL
    && forall i :: 0 <= i < |actions| ==> Enabled(states[i], actions[i]) && states[i + 1] == Do(states[i], actions[i])
  }

  predicate Echoes(s: State, line: Line) {
    line.Reply? ==> line.answers < |s.sent| && line.id == s.sent[line.answers]
  }

  /** The id of the request with number `k`. */
  function IdOf(k: nat): nat {
    (k + 1) % ID_SPACE
  }

  predicate Inv(s: State) {
    && s.counter.nextId == IdOf(|s.sent|)
    && (forall k :: 0 <= k < |s.sent| ==> s.sent[k] == IdOf(k))
    && (s.waiting.Some? ==> s.waiting.value < |s.sent|)
    && (forall i :: 0 <= i < |s.pipe| ==> Echoes(s, s.pipe[i]))
    && (forall i :: 0 <= i < |s.accepted| ==>
          s.accepted[i].request < |s.sent| && s.accepted[i].answers < |s.sent| &&
              s.sent[s.accepted[i].request] == s.sent[s.accepted[i].answers])
  }

  lemma NextIdCounts(n: nat)
    ensures NextId(IdOf(n)) == IdOf(n + 1)
  {
  }

  lemma ActionKeepsInv(s: State, a: Action)
    requires Inv(s) && Enabled(s, a)
    ensures Inv(Do(s, a))
  {
    NextIdCounts(|s.sent|);
    hide NextId, IdOf;
  }

  lemma {:induction false} RunKeepsInv(states: seq<State>, actions: seq<Action>, n: nat)
    requires IsRun(states, actions) && n < |states|
    ensures Inv(states[n])
  {
    hide Do, Enabled;
    if n > 0 {
      RunKeepsInv(states, actions, n - 1);
      hide Inv;
      ActionKeepsInv(states[n - 1], actions[n - 1]);
    }
  }

  lemma ResiduesAgree(j: nat, d: nat)
    ensures j % ID_SPACE == (j + d) % ID_SPACE <==> d % ID_SPACE == 0
  {
  }

  /**
   * Two requests on one connection share an id exactly when a multiple of 2^64 lies between them,
   * whatever the handoff.
   */
  lemma IdsRepeatExactly(states: seq<State>, actions: seq<Action>, n: nat, j: nat, k: nat)
    requires IsRun(states, actions) && n < |states| && j < k < |states[n].sent|
    ensures states[n].sent[j] == states[n].sent[k] <==> (k - j) % ID_SPACE == 0
  {
    RunKeepsInv(states, actions, n);
    ResiduesAgree(j + 1, k - j);
  }

  lemma SameIdExactly(states: seq<State>, actions: seq<Action>, n: nat, j: nat, k: nat)
    requires IsRun(states, actions) && n < |states| && j < |states[n].sent| && k < |states[n].sent|
    ensures states[n].sent[j] == states[n].sent[k] <==> (k - j) % ID_SPACE == 0
  {
    if j < k {
      IdsRepeatExactly(states, actions, n, j, k);
    } else if k < j {
      IdsRepeatExactly(states, actions, n, k, j);
      NegatedResidue(j - k);
    }
  }

  lemma NegatedResidue(d: nat)
    ensures d % ID_SPACE == 0 <==> (0 - d) % ID_SPACE == 0
  {
  }

  lemma SmallResidue(d: int)
    requires 0 - ID_SPACE < d < ID_SPACE
    ensures d % ID_SPACE == 0 <==> d == 0
  {
  }

  /** However many requests were sent, a line is accepted exactly when it answers a request a multiple of 2^64 away. */
  lemma AcceptsExactly(states: seq<State>, actions: seq<Action>, n: nat)
    requires IsRun(states, actions) && n < |actions| && actions[n] == Receive
    ensures Accepts(states[n]) <==>
      states[n].pipe[0].Reply? && (states[n].waiting.value - states[n].pipe[0].answers) % ID_SPACE == 0
  {
    RunKeepsInv(states, actions, n);
    var s := states[n];
    assert Echoes(s, s.pipe[0]);
    if s.pipe[0].Reply? {
      SameIdExactly(states, actions, n, s.pipe[0].answers, s.waiting.value);
    }
  }

  /** An accepted reply answers a request a multiple of 2^64 away; up to 2^64 requests, the one that received it. */
  lemma AcceptedRepliesAreOwn(states: seq<State>, actions: seq<Action>, n: nat, i: nat)
    requires IsRun(states, actions) && n < |states| && i < |states[n].accepted|
    ensures
      var Acceptance(request, answers) := states[n].accepted[i];
      && (request - answers) % ID_SPACE == 0
      && (|states[n].sent| <= ID_SPACE ==> answers == request)
  {
    RunKeepsInv(states, actions, n);
    var Acceptance(request, answers) := states[n].accepted[i];
    SameIdExactly(states, actions, n, answers, request);
    if |states[n].sent| <= ID_SPACE {
      SmallResidue(request - answers);
    }
  }

  /**
   * Up to 2^64 requests, a line is accepted exactly when it answers the waiting request. Any other line
   * fails the request and ends the connection, except that a shared one survives a line that is not JSON.
   */
  lemma AcceptsExactlyOwnReply(states: seq<State>, actions: seq<Action>, n: nat)
    requires IsRun(states, actions) && n < |actions| && actions[n] == Receive && |states[n].sent| <= ID_SPACE
    ensures
      var s, s' := states[n], states[n + 1];
      var own := s.pipe[0].Reply? && s.pipe[0].answers == s.waiting.value;
      && s'.waiting.None? && s'.pipe == s.pipe[1..]
      && s'.accepted == (if own then s.accepted + [Acceptance(s.waiting.value, s.waiting.value)] else s.accepted)
      && (s'.killed <==> s.killed || (!own && !(s.pipe[0].Unreadable? && s.counter.Shared?)))
  {
    RunKeepsInv(states, actions, n);
    AcceptsExactly(states, actions, n);
    var s := states[n];
    assert Echoes(s, s.pipe[0]);
    if s.pipe[0].Reply? {
      SmallResidue(s.waiting.value - s.pipe[0].answers);
    }
  }
}
