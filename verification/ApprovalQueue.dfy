/** The pending queue for operator approvals: the shared table and its atomic operations. */
module ApprovalQueue {
  import opened Options

  const ID_SPACE := 1_000_000
  const TOKEN_SPACE := 0x1_0000_0000_0000_0000

  /** `owner` is the registration that made the entry, and stands for its channel; entries are told apart by `token`. */
  datatype Entry = Entry(token: nat, owner: nat)

  /** `sent` holds the values put into the one-shot channels, by registration. */
  datatype Queue = Queue(entries: map<string, Entry>, registered: nat, sent: map<nat, bool>)

  const EMPTY := Queue(map[], 0, map[])

  /** The next value of the 64-bit `NEXT_TOKEN`. */
  function NextToken(q: Queue): nat {
    q.registered % TOKEN_SPACE
  }

  function Digits(n: nat, width: nat): (s: string)
    ensures |s| == width && forall i :: 0 <= i < width ==> '0' <= s[i] <= '9'
  {
    if width == 0 then "" else Digits(n / 10, width - 1) + [(('0' as int) + n % 10) as char]
  }

  function Candidate(draw: nat): (id: string)
    ensures |id| == 6
  {
    Digits(draw % ID_SPACE, 6)
  }

  /** The number a string of digits writes in base ten. */
  ghost function Value(s: string): int {
    if s == "" then 0 else 10 * Value(s[..|s| - 1]) + (s[|s| - 1] as int - '0' as int)
  }

  lemma {:induction false} DigitsWrite(n: nat, width: nat, bound: nat)
    requires bound == Power(width) && n < bound
    ensures Value(Digits(n, width)) == n
  {
    if width > 0 {
      DigitsWrite(n / 10, width - 1, Power(width - 1));
      var s := Digits(n, width);
      assert s[..width - 1] == Digits(n / 10, width - 1);
    }
  }

  ghost function Power(width: nat): nat {
    if width == 0 then 1 else 10 * Power(width - 1)
  }

  /** A request id is six digits that write the draw, taken modulo a million, with leading zeros. */
  lemma CandidateExactly(draw: nat)
    ensures |Candidate(draw)| == 6 && forall c | c in Candidate(draw) :: '0' <= c <= '9'
    ensures Value(Candidate(draw)) == draw % 1_000_000
  {
    assert Power(2) == 100 && Power(4) == 10_000 && Power(6) == 1_000_000;
    DigitsWrite(draw % ID_SPACE, 6, 1_000_000);
  }

  function Register(q: Queue, id: string): Queue {
    Queue(q.entries[id := Entry(NextToken(q), q.registered)], q.registered + 1, q.sent)
  }

  function Decide(q: Queue, id: string, allow: bool): Queue {
    if id in q.entries then q.(entries := q.entries - {id}, sent := q.sent[q.entries[id].owner := allow]) else q
  }

  predicate Owns(q: Queue, id: string, token: nat) {
    id in q.entries && q.entries[id].token == token
  }

  function RemoveOwn(q: Queue, id: string, token: nat): Queue {
    if Owns(q, id, token) then q.(entries := q.entries - {id}) else q
  }

  class PendingQueue {
    var entries: map<string, Entry>
    var registered: nat
    var sent: map<nat, bool>

    ghost function View(): Queue
      reads this
    {
      Queue(entries, registered, sent)
    }

    constructor ()
      ensures View() == EMPTY
    {
      entries, registered, sent := map[], 0, map[];
    }

    /** `draws` is the random source; the loop ends because some draw is free. */
    method RegisterWith(draws: nat -> nat, ghost free: nat) returns (id: string, token: nat)
      requires Candidate(draws(free)) !in entries
      modifies this
      ensures id !in old(entries) && token == old(registered) % 0x1_0000_0000_0000_0000
      ensures entries == old(entries)[id := Entry(token, old(registered))]
      ensures registered == old(registered) + 1 && sent == old(sent)
      ensures View() == Register(old(View()), id)
      ensures exists n: nat :: id == Candidate(draws(n)) && forall m: nat ::
          m < n ==> Candidate(draws(m)) in old(entries)
    {
      token := registered % TOKEN_SPACE;
      var n: nat := 0;
      id := Candidate(draws(n));
      while id in entries
        invariant n <= free && id == Candidate(draws(n))
        invariant forall m: nat :: m < n ==> Candidate(draws(m)) in entries
        decreases free - n
      {
        n := n + 1;
        id := Candidate(draws(n));
      }
      entries := entries[id := Entry(token, registered)];
      registered := registered + 1;
    }

    method DecideOn(id: string, allow: bool) returns (found: bool)
      modifies this
      ensures found == (id in old(entries)) && entries == old(entries) - {id} && registered == old(registered)
      ensures sent == if found then old(sent)[old(entries)[id].owner := allow] else old(sent)
      ensures View() == Decide(old(View()), id, allow)
    {
      if id !in entries {
        return false;
      }
      var entry := entries[id];
      entries := entries - {id};
      sent := sent[entry.owner := allow];
      found := true;
    }

    method RemoveOwnEntry(id: string, token: nat) returns (own: bool)
      modifies this
      ensures own <==> id in old(entries) && old(entries)[id].token == token
      ensures entries == (if own then old(entries) - {id} else old(entries))
      ensures registered == old(registered) && sent == old(sent)
      ensures View() == RemoveOwn(old(View()), id, token)
    {
      own := id in entries && entries[id].token == token;
      if own {
        entries := entries - {id};
      }
    }
  }
}

/** Every interleaving of waiters, decisions, timeouts and drops over one queue. */
module ApprovalProtocol {
  import opened Options
  import opened ApprovalQueue

  datatype Answer = Approved | Denied | TimedOut

  /** Where a `Pending` stands: in `wait`, in its timeout arm, returning, or dropped. */
  datatype Phase =
    | Waiting
    | Expired
    | Missed
    | Leaving(answer: Option<Answer>)
    | Gone(answer: Option<Answer>)

  datatype Waiter = Waiter(id: string, token: nat, phase: Phase)

  /** `decided` records, per registration, the decision that removed its entry. Waiters are indexed by registration. */
  datatype State = State(queue: Queue, waiters: seq<Waiter>, decided: map<nat, bool>)

  const INITIAL := State(EMPTY, [], map[])

  datatype Action =
    | DoRegister(id: string)
    | DoDecide(id: string, allow: bool)
    | DoReceive(w: nat)
    | DoSenderLost(w: nat)
    | DoTimerFires(w: nat)
    | DoRemoveOwn(w: nat)
    | DoTryReceive(w: nat)
    | DoCancel(w: nat)
    | DoDrop(w: nat)

  predicate At(s: State, w: nat, phase: Phase) {
    w < |s.waiters| && s.waiters[w].phase == phase
  }

  /** The channel of `w` was closed by dropping the sender, without a value. */
  predicate SenderLost(s: State, w: nat)
    requires w < |s.waiters|
  {
    w !in s.queue.sent && forall id | id in s.queue.entries :: s.queue.entries[id].owner != w
  }

  predicate Enabled(s: State, a: Action) {
    match a
    case DoRegister(id) => id !in s.queue.entries
    case DoDecide(_, _) => true
    case DoReceive(w) => At(s, w, Waiting) && w in s.queue.sent
    case DoSenderLost(w) => At(s, w, Waiting) && SenderLost(s, w)
    case DoTimerFires(w) => At(s, w, Waiting)
    case DoRemoveOwn(w) => At(s, w, Expired)
    case DoTryReceive(w) => At(s, w, Missed)
    case DoCancel(w) => At(s, w, Waiting)
    case DoDrop(w) => w < |s.waiters| && s.waiters[w].phase.Leaving?
  }

  function Move(s: State, w: nat, phase: Phase): State
    requires w < |s.waiters|
  {
    s.(waiters := s.waiters[w := s.waiters[w].(phase := phase)])
  }

  function Received(allow: bool): Option<Answer> {
    Some(if allow then Approved else Denied)
  }

  function Do(s: State, a: Action): State
    requires Enabled(s, a)
  {
    match a
    case DoRegister(id) =>
      State(Register(s.queue, id), s.waiters + [Waiter(id, NextToken(s.queue), Waiting)], s.decided)
    case DoDecide(id, allow) =>
      var decided := if id in s.queue.entries then s.decided[s.queue.entries[id].owner := allow] else s.decided;
      State(Decide(s.queue, id, allow), s.waiters, decided)
    case DoReceive(w) => Move(s, w, Leaving(Received(s.queue.sent[w])))
    case DoSenderLost(w) => Move(s, w, Leaving(Some(Denied)))
    case DoTimerFires(w) => Move(s, w, Expired)
    case DoRemoveOwn(w) =>
      var waiter := s.waiters[w];
      var own := Owns(s.queue, waiter.id, waiter.token);
      Move(s, w, if own then Leaving(Some(TimedOut)) else Missed).(queue := RemoveOwn(s.queue, waiter.id, waiter.token))
    case DoTryReceive(w) =>
      Move(s, w, Leaving(if w in s.queue.sent then Received(s.queue.sent[w]) else Some(TimedOut)))
    case DoCancel(w) => Move(s, w, Leaving(None))
    case DoDrop(w) =>
      var waiter := s.waiters[w];
      Move(s, w, Gone(waiter.phase.answer)).(queue := RemoveOwn(s.queue, waiter.id, waiter.token))
  }

  predicate IsRun(states: seq<State>, actions: seq<Action>) {
    && |states| == |actions| + 1
    && states[0] == INITIAL
    && forall i :: 0 <= i < |actions| ==> Enabled(states[i], actions[i]) && states[i + 1] == Do(states[i], actions[i])
  }

  /** While a registration is still open: nobody has decided it and its waiter has not removed it. */
  predicate Open(s: State, w: nat)
    requires w < |s.waiters|
  {
    var phase := s.waiters[w].phase;
    w !in s.decided && (phase.Waiting? || phase.Expired? || phase == Leaving(None))
  }

  /** The answer a waiter must give once `decided` is as it is. */
  predicate Justified(s: State, w: nat)
    requires w < |s.waiters|
  {
    var phase := s.waiters[w].phase;
    && (phase.Missed? ==> w in s.decided)
    && ((phase.Leaving? || phase.Gone?) && phase.answer.Some? ==>
          phase.answer.value == if w !in s.decided then TimedOut else if s.decided[w] then Approved else Denied)
  }

  /** No other registration has drawn the same id and, a multiple of 2^64 away, the same token. */
  predicate Lone(s: State, w: nat)
    requires w < |s.waiters|
  {
    forall v :: 0 <= v < |s.waiters| && v != w && s.waiters[v].id == s.waiters[w].id ==>
      v % TOKEN_SPACE != w % TOKEN_SPACE
  }

  predicate EntryOk(s: State, id: string)
    requires id in s.queue.entries
  {
    var e := s.queue.entries[id];
    && e.owner < |s.waiters| && e.token == e.owner % TOKEN_SPACE
    && s.waiters[e.owner].id == id && Open(s, e.owner)
  }

  predicate LoneOk(s: State, w: nat)
    requires w < |s.waiters|
  {
    && Justified(s, w)
    && (Open(s, w) ==> s.waiters[w].id in s.queue.entries && s.queue.entries[s.waiters[w].id].owner == w)
  }

  predicate Inv(s: State) {
    && s.queue.registered == |s.waiters|
    && (forall w :: 0 <= w < |s.waiters| ==> s.waiters[w].token == w % TOKEN_SPACE)
    && (forall id | id in s.queue.entries :: EntryOk(s, id))
    && (forall w :: 0 <= w < |s.waiters| && Lone(s, w) ==> LoneOk(s, w))
    && s.queue.sent == s.decided
    && forall w | w in s.decided :: w < |s.waiters|
  }

  /** Who is alone among more registrations was alone among fewer. */
  lemma LoneBefore(s: State, s': State, w: nat)
    requires w < |s.waiters| <= |s'.waiters| && Lone(s', w)
    requires forall v :: 0 <= v < |s.waiters| ==> s'.waiters[v].id == s.waiters[v].id
    ensures Lone(s, w)
  {
  }

  lemma RegisterKeepsInv(s: State, id: string)
    requires Inv(s) && id !in s.queue.entries
    ensures Inv(Do(s, DoRegister(id)))
  {
    var s' := Do(s, DoRegister(id));
    forall i | i in s'.queue.entries ensures EntryOk(s', i) {
      assert i != id ==> EntryOk(s, i);
    }
    forall w | 0 <= w < |s'.waiters| && Lone(s', w) ensures LoneOk(s', w) {
      if w < |s.waiters| {
        LoneBefore(s, s', w);
        assert LoneOk(s, w);
      }
    }
  }

  lemma DecideKeepsInv(s: State, id: string, allow: bool)
    requires Inv(s)
    ensures Inv(Do(s, DoDecide(id, allow)))
  {
    var s' := Do(s, DoDecide(id, allow));
    assert id in s.queue.entries ==> EntryOk(s, id);
    forall i | i in s'.queue.entries ensures EntryOk(s', i) {
      assert EntryOk(s, i);
    }
    forall w | 0 <= w < |s'.waiters| && Lone(s', w) ensures LoneOk(s', w) {
      assert Lone(s, w) && LoneOk(s, w);
    }
  }

  /** A waiter that moves on without touching the queue. */
  lemma MoveKeepsInv(s: State, w: nat, phase: Phase)
    requires Inv(s) && w < |s.waiters|
    requires Lone(s, w) ==> Justified(Move(s, w, phase), w)
    requires Open(Move(s, w, phase), w) == Open(s, w)
    ensures Inv(Move(s, w, phase))
  {
    var s' := Move(s, w, phase);
    forall i | i in s'.queue.entries ensures EntryOk(s', i) {
      assert EntryOk(s, i);
    }
    forall v | 0 <= v < |s'.waiters| && Lone(s', v) ensures LoneOk(s', v) {
      LoneBefore(s, s', v);
      assert LoneOk(s, v);
    }
  }

  /** A waiter that removes the entry with its id and token: its own, or that of a waiter that is not alone either. */
  lemma RemoveKeepsInv(s: State, w: nat, phase: Phase)
    requires Inv(s) && w < |s.waiters|
    requires !Open(Move(s, w, phase), w) && (Lone(s, w) ==> Justified(Move(s, w, phase), w))
    ensures Inv(Move(s, w, phase).(queue := RemoveOwn(s.queue, s.waiters[w].id, s.waiters[w].token)))
  {
    var s' := Move(s, w, phase).(queue := RemoveOwn(s.queue, s.waiters[w].id, s.waiters[w].token));
    forall i | i in s'.queue.entries ensures EntryOk(s', i) {
      assert EntryOk(s, i);
    }
    forall v | 0 <= v < |s'.waiters| && Lone(s', v) ensures LoneOk(s', v) {
      LoneBefore(s, s', v);
      assert LoneOk(s, v);
      if v != w && Open(s, v) && Owns(s.queue, s.waiters[w].id, s.waiters[w].token) {
        assert EntryOk(s, s.waiters[w].id);
      }
    }
  }

  /** A waiter alone that finds no entry of its own after the timeout was decided. */
  lemma MissedMeansDecided(s: State, w: nat)
    requires Inv(s) && At(s, w, Expired) && Lone(s, w)
    ensures Owns(s.queue, s.waiters[w].id, s.waiters[w].token) <==> w !in s.decided
  {
    assert LoneOk(s, w);
    var id := s.waiters[w].id;
    assert id in s.queue.entries ==> EntryOk(s, id);
    assert Owns(s.queue, id, s.waiters[w].token) ==> s.queue.entries[id].owner == w;
  }

  lemma StepKeepsInv(s: State, a: Action)
    requires Inv(s) && Enabled(s, a)
    ensures Inv(Do(s, a))
  {
    match a
    case DoRegister(id) => RegisterKeepsInv(s, id);
    case DoDecide(id, allow) => DecideKeepsInv(s, id, allow);
    case DoReceive(w) =>
      assert w in s.decided;
      MoveKeepsInv(s, w, Leaving(Received(s.queue.sent[w])));
    case DoSenderLost(w) =>
      LostMeansNotLone(s, w);
      MoveKeepsInvAfterLoss(s, w);
    case DoTimerFires(w) => MoveKeepsInv(s, w, Expired);
    case DoRemoveOwn(w) =>
      var own := Owns(s.queue, s.waiters[w].id, s.waiters[w].token);
      if Lone(s, w) {
        MissedMeansDecided(s, w);
      }
      RemoveKeepsInv(s, w, if own then Leaving(Some(TimedOut)) else Missed);
    case DoTryReceive(w) =>
      assert Lone(s, w) ==> LoneOk(s, w);
      MoveKeepsInv(s, w, Leaving(if w in s.queue.sent then Received(s.queue.sent[w]) else Some(TimedOut)));
    case DoCancel(w) => MoveKeepsInv(s, w, Leaving(None));
    case DoDrop(w) =>
      assert Lone(s, w) ==> LoneOk(s, w);
      RemoveKeepsInv(s, w, Gone(s.waiters[w].phase.answer));
  }

  lemma LostMeansNotLone(s: State, w: nat)
    requires Inv(s) && At(s, w, Waiting) && SenderLost(s, w)
    ensures !Lone(s, w)
  {
    assert Lone(s, w) ==> LoneOk(s, w);
  }

  lemma MoveKeepsInvAfterLoss(s: State, w: nat)
    requires Inv(s) && w < |s.waiters| && !Lone(s, w) && SenderLost(s, w)
    ensures Inv(Move(s, w, Leaving(Some(Denied))))
  {
    var s' := Move(s, w, Leaving(Some(Denied)));
    forall i | i in s'.queue.entries ensures EntryOk(s', i) {
      assert EntryOk(s, i);
    }
    forall v | 0 <= v < |s'.waiters| && Lone(s', v) ensures LoneOk(s', v) {
      LoneBefore(s, s', v);
      assert LoneOk(s, v);
    }
  }

  lemma {:induction false} RunKeepsInv(states: seq<State>, actions: seq<Action>, i: nat)
    requires IsRun(states, actions) && i < |states|
    ensures Inv(states[i])
  {
    hide Do, Enabled;
    if i > 0 {
      hide Inv;
      RunKeepsInv(states, actions, i - 1);
      StepKeepsInv(states[i - 1], actions[i - 1]);
    }
  }

  /** Up to 2^64 registrations every waiter is alone. */
  lemma FewAreLone(s: State, w: nat)
    requires w < |s.waiters| <= TOKEN_SPACE
    ensures Lone(s, w)
  {
  }

  /** For a waiter that is alone, the arm for a sender lost without a decision is dead code. */
  lemma SenderNeverLost(states: seq<State>, actions: seq<Action>, n: nat, w: nat)
    requires IsRun(states, actions) && n < |states| && At(states[n], w, Waiting) && Lone(states[n], w)
    ensures !SenderLost(states[n], w)
  {
    RunKeepsInv(states, actions, n);
    assert LoneOk(states[n], w);
  }

  // What a run says about its waiters.

  /** Action `i` decided the very entry that registration `w` put into the queue. */
  predicate DecidesEntryOf(states: seq<State>, actions: seq<Action>, i: nat, w: nat, allow: bool)
    requires i < |states| && i < |actions|
  {
    match actions[i]
    case DoDecide(id, a) => a == allow && id in states[i].queue.entries && states[i].queue.entries[id].owner == w
    case _ => false
  }

  predicate Decided(states: seq<State>, actions: seq<Action>, n: nat, w: nat, allow: bool)
    requires IsRun(states, actions) && n < |states|
  {
    exists i :: 0 <= i < n && DecidesEntryOf(states, actions, i, w, allow)
  }

  lemma {:induction false} DecidedIsHistory(states: seq<State>, actions: seq<Action>, n: nat, w: nat, allow: bool)
    requires IsRun(states, actions) && n < |states|
    ensures Decided(states, actions, n, w, allow) <==> w in states[n].decided && states[n].decided[w] == allow
  {
    if n > 0 {
      var s, a := states[n - 1], actions[n - 1];
      RunKeepsInv(states, actions, n - 1);
      DecidedIsHistory(states, actions, n - 1, w, allow);
      assert Decided(states, actions, n, w, allow) <==>
        Decided(states, actions, n - 1, w, allow) || DecidesEntryOf(states, actions, n - 1, w, allow);
      hide IsRun, Decided;
      DecisionRecorded(s, a, w, allow);
    }
  }

  lemma DecisionRecorded(s: State, a: Action, w: nat, allow: bool)
    requires Inv(s) && Enabled(s, a)
    ensures
      var s' := Do(s, a);
      w in s'.decided && s'.decided[w] == allow <==>
        || (w in s.decided && s.decided[w] == allow)
        || (a.DoDecide? && a.allow == allow && a.id in s.queue.entries && s.queue.entries[a.id].owner == w)
  {
    if a.DoDecide? && a.id in s.queue.entries {
      assert EntryOk(s, a.id);
    }
  }

  /** `w` has returned from `wait` with an answer. */
  predicate Answered(s: State, w: nat, answer: Answer) {
    w < |s.waiters| && (s.waiters[w].phase == Leaving(Some(answer)) || s.waiters[w].phase == Gone(Some(answer)))
  }

  /**
   * Outcomes follow decisions exactly: a waiter that has answered said Approved iff a `decide(true)`
   * removed the entry it registered itself, Denied iff a `decide(false)` did, TimedOut iff none did; for
   * every waiter but one whose id was drawn again by a registration a multiple of 2^64 away.
   */
  lemma AnswersFollowDecisions(states: seq<State>, actions: seq<Action>, n: nat, w: nat, answer: Answer)
    requires IsRun(states, actions) && n < |states| && Answered(states[n], w, answer) && Lone(states[n], w)
    ensures answer == Approved <==> Decided(states, actions, n, w, true)
    ensures answer == Denied <==> Decided(states, actions, n, w, false)
    ensures answer == TimedOut <==> !Decided(states, actions, n, w, true) && !Decided(states, actions, n, w, false)
  {
    RunKeepsInv(states, actions, n);
    DecidedIsHistory(states, actions, n, w, true);
    DecidedIsHistory(states, actions, n, w, false);
    assert LoneOk(states[n], w);
  }

  /**
   * Finishing or dropping a waiter removes exactly the entries under its id whose registration is a
   * multiple of 2^64 away from its own: so its own, and never one that merely reuses the id.
   */
  lemma RemovesExactly(states: seq<State>, actions: seq<Action>, n: nat, id: string)
    requires IsRun(states, actions) && n < |actions| && (actions[n].DoRemoveOwn? || actions[n].DoDrop?)
    requires id in states[n].queue.entries
    ensures
      var s, s', w := states[n], states[n + 1], actions[n].w;
      && w < |s.waiters|
      && (id !in s'.queue.entries <==> id == s.waiters[w].id && (s.queue.entries[id].owner - w) % TOKEN_SPACE == 0)
      && (id in s'.queue.entries ==> s'.queue.entries[id] == s.queue.entries[id])
  {
    RunKeepsInv(states, actions, n);
    var s, w := states[n], actions[n].w;
    assert EntryOk(s, id);
    SameToken(s.queue.entries[id].owner, w);
  }

  lemma SameToken(v: nat, w: nat)
    ensures v % TOKEN_SPACE == w % TOKEN_SPACE <==> (v - w) % TOKEN_SPACE == 0
  {
  }

  /** Up to 2^64 registrations, no waiter removes an entry but its own. */
  lemma RemovalSparesOthers(states: seq<State>, actions: seq<Action>, n: nat, id: string)
    requires IsRun(states, actions) && n < |actions| && |states[n].waiters| <= TOKEN_SPACE
    requires actions[n].DoRemoveOwn? || actions[n].DoDrop?
    requires id in states[n].queue.entries && states[n].queue.entries[id].owner != actions[n].w
    ensures id in states[n + 1].queue.entries && states[n + 1].queue.entries[id] == states[n].queue.entries[id]
  {
    RemovesExactly(states, actions, n, id);
    RunKeepsInv(states, actions, n);
    assert EntryOk(states[n], id);
    SmallDistance(states[n].queue.entries[id].owner, actions[n].w);
  }

  lemma SmallDistance(v: nat, w: nat)
    requires v < TOKEN_SPACE && w < TOKEN_SPACE
    ensures (v - w) % TOKEN_SPACE == 0 <==> v == w
  {
  }

  /** Once a waiter is gone, its entry is gone. */
  lemma GoneLeavesNoEntry(states: seq<State>, actions: seq<Action>, n: nat, w: nat, id: string)
    requires IsRun(states, actions) && n < |states|
    requires w < |states[n].waiters| && states[n].waiters[w].phase.Gone?
    ensures !(id in states[n].queue.entries && states[n].queue.entries[id].owner == w)
  {
    RunKeepsInv(states, actions, n);
    assert id in states[n].queue.entries ==> EntryOk(states[n], id);
  }

  // What goes wrong for a waiter that is not alone.

  lemma RunSnoc(states: seq<State>, actions: seq<Action>, a: Action)
    requires IsRun(states, actions) && Enabled(states[|actions|], a)
    ensures IsRun(states + [Do(states[|actions|], a)], actions + [a])
  {
    hide Do, Enabled;
    var all, acts := states + [Do(states[|actions|], a)], actions + [a];
    forall i | 0 <= i < |acts| ensures Enabled(all[i], acts[i]) && all[i + 1] == Do(all[i], acts[i]) {
      assert i < |actions| ==> all[i] == states[i] && all[i + 1] == states[i + 1] && acts[i] == actions[i];
    }
  }

  /** An empty queue in which registration 0 has been approved while its waiter is in the timeout arm. */
  predicate Approved0(s: State, registrations: nat) {
    && s.queue.entries == map[] && s.queue.registered == |s.waiters| == registrations > 0
    && s.waiters[0] == Waiter("000000", 0, Expired) && 0 in s.decided && s.decided[0]
  }

  lemma ChurnOnce(s: State, registrations: nat)
    requires Approved0(s, registrations)
    ensures
      var once := DoRegister("000001");
      && Enabled(s, once) && Enabled(Do(s, once), DoDecide("000001", false))
      && Approved0(Do(Do(s, once), DoDecide("000001", false)), registrations + 1)
  {
    var once := Do(s, DoRegister("000001"));
    assert once.queue.entries - {"000001"} == map[];
  }

  /** Any number of further requests, each registered and denied. */
  lemma {:induction false} Churn(states: seq<State>, actions: seq<Action>, registrations: nat, more: nat)
    returns (states': seq<State>, actions': seq<Action>)
    requires IsRun(states, actions) && Approved0(states[|actions|], registrations)
    ensures IsRun(states', actions') && Approved0(states'[|actions'|], registrations + more)
    decreases more
  {
    if more == 0 {
      states', actions' := states, actions;
    } else {
      hide Do, Enabled, Approved0;
      var s := states[|actions|];
      ChurnOnce(s, registrations);
      var register, decide := DoRegister("000001"), DoDecide("000001", false);
      RunSnoc(states, actions, register);
      RunSnoc(states + [Do(s, register)], actions + [register], decide);
      var longer := states + [Do(s, register)] + [Do(Do(s, register), decide)];
      states', actions' := Churn(longer, actions + [register] + [decide], registrations + 1, more - 1);
    }
  }

  lemma FirstApproved() returns (states: seq<State>, actions: seq<Action>)
    ensures IsRun(states, actions) && Approved0(states[|actions|], 1)
  {
    var s1 := Do(INITIAL, DoRegister("000000"));
    var s2 := Do(s1, DoTimerFires(0));
    var s3 := Do(s2, DoDecide("000000", true));
    states, actions := [INITIAL, s1, s2, s3], [DoRegister("000000"), DoTimerFires(0), DoDecide("000000", true)];
    assert s3.queue.entries == map[];
  }

  lemma ReusedToken(s: State)
    requires Approved0(s, TOKEN_SPACE)
    ensures
      var again := DoRegister("000000");
      && Enabled(s, again) && Enabled(Do(s, again), DoRemoveOwn(0))
      && Answered(Do(Do(s, again), DoRemoveOwn(0)), 0, TimedOut)
      && Do(Do(s, again), DoRemoveOwn(0)).decided == s.decided
  {
    assert TOKEN_SPACE % TOKEN_SPACE == 0;
  }

  /**
   * Without the condition the outcome can belie the decision: after 2^64 further registrations, the last
   * under the same id, an approved waiter takes the new entry for its own and answers that it timed out.
   */
  lemma TokenReuseLosesDecision() returns (states: seq<State>, actions: seq<Action>)
    ensures IsRun(states, actions) && Answered(states[|actions|], 0, TimedOut)
    ensures Decided(states, actions, |actions|, 0, true)
  {
    hide Do, Enabled, Approved0, Answered, Decided;
    states, actions := FirstApproved();
    states, actions := Churn(states, actions, 1, TOKEN_SPACE - 1);
    var s := states[|actions|];
    ReusedToken(s);
    var again, remove := DoRegister("000000"), DoRemoveOwn(0);
    RunSnoc(states, actions, again);
    RunSnoc(states + [Do(s, again)], actions + [again], remove);
    assert 0 in s.decided && s.decided[0] by { DecidedFirst(s, TOKEN_SPACE); }
    states, actions := states + [Do(s, again)] + [Do(Do(s, again), remove)], actions + [again] + [remove];
    DecidedIsHistory(states, actions, |actions|, 0, true);
  }

  lemma DecidedFirst(s: State, registrations: nat)
    requires Approved0(s, registrations)
    ensures 0 in s.decided && s.decided[0]
  {
  }
}
