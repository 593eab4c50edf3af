/** Every interleaving of the steps and terminations of stepwise logins. */
module StepwiseLogin {
  import opened Options
  import opened SessionTables
  import opened Ledger

  /** The mutex around the executor connection of one login, and what is inside. */
  datatype Slot = Slot(content: Option<nat>, holder: Option<nat>)

  /** The executor's answer to a step. */
  datatype Reply = Pending | Done | Aborted | SelectorNotFound | OtherFailure

  datatype Next = Continue | HandOff | End

  function NextAfter(reply: Reply): Next {
    match reply
    case Pending => Continue
    case SelectorNotFound => Continue
    case Done => HandOff
    case Aborted => End
    case OtherFailure => End
  }

  /** Where an admitted step stands between two critical sections. */
  datatype Pc =
    | Waiting(abort: bool)               // waiting for the slot
    | Locked(abort: bool)                // has the slot, about to ask whether the login is current
    | Aborting                           // has the full slot of a current login, about to empty it
    | Dropping(pending: Option<nat>)     // slot given back empty, about to leave the ledger
    | Working                            // has the full slot: resolving a code, then talking to the executor
    | Replied(next: Next)                // answer received, about to consult the ledger
    | Taking(next: Next)                 // removed from the ledger, about to empty the slot
    | HandingOff(pending: Option<nat>)   // `hand_off_step`
    | Ending(pending: Option<nat>)       // `finish`
    | Leaving                            // done with the ledger, about to give the slot back
  {
    predicate HoldsSlot() {
      Locked? || Aborting? || Working? || Replied? || Taking? || Leaving?
    }

    /** Those that hold the slot and rely on the executor in it. */
    predicate NeedsExecutor() {
      Aborting? || Working? || Replied? || Taking?
    }

    /** Admitted, and neither answered nor out of the ledger. */
    predicate Unfinished() {
      Waiting? || Locked? || Aborting? || Dropping? || Working? || Replied?
    }

    function Carried(): Option<nat> {
      if Dropping? || HandingOff? || Ending? then pending else None
    }
  }

  datatype Step = Step(login: string, slot: nat, pc: Pc)

  /** `end_entry`: owes a take on the slot, then stops what was in it. */
  datatype Terminator = Owing(slot: nat) | Reclaimed(pending: Option<nat>)

  datatype Fate = HandedOff(executor: nat) | Stopped(executor: nat)

  /** `homes` remembers the slot each login was registered with; `launched`, every executor. */
  datatype State = State(
    book: Book, now: nat, slots: map<nat, Slot>, steps: map<nat, Step>, terminators: map<string, Terminator>,
    log: seq<Fate>, homes: map<string, nat>, launched: set<nat>)

  function Initial(idle: nat, max: nat): State {
    State(Book(map[], idle, max), 0, map[], map[], map[], [], map[], {})
  }

  datatype Action =
    | Tick(later: nat)
    | Register(login: string, slot: nat, executor: nat, entry: Entry)
    | Admit(task: nat, login: string, principal: string, abort: bool)
    | Lock(task: nat)
    | Check(task: nat)
    | TakeForAbort(task: nat)
    | RemoveAborted(task: nat)
    | CodeFailed(task: nat)
    | NoteCode(task: nat)
    | Receive(task: nat, reply: Reply)
    | Settle(task: nat)
    | TakeOut(task: nat)
    | FinishHandOff(task: nat, registered: bool)
    | FinishEnd(task: nat)
    | Leave(task: nat)
    | Sweep(which: Which)
    | SweepOwned(login: string, principal: string)
    | Reclaim(login: string)
    | FinishTerminator(login: string)

  predicate At(s: State, task: nat) {
    task in s.steps && s.steps[task].slot in s.slots
  }

  predicate Enabled(s: State, a: Action) {
    match a
    case Tick(later) => later >= s.now
    case Register(login, slot, executor, entry) =>
      && login !in s.homes && slot !in s.slots && executor !in s.launched && entry.startedAt <= s.now
      && entry == Entry(entry.key, entry.exclusive, entry.persistCookies, entry.startedAt, s.now, 0, 0, 0, slot)
    case Admit(task, _, _, _) => task !in s.steps
    case Lock(task) => At(s, task) && s.steps[task].pc.Waiting? && s.slots[s.steps[task].slot].holder.None?
    case Check(task) => At(s, task) && s.steps[task].pc.Locked?
    case TakeForAbort(task) => At(s, task) && s.steps[task].pc.Aborting?
    case RemoveAborted(task) => At(s, task) && s.steps[task].pc.Dropping?
    case CodeFailed(task) => At(s, task) && s.steps[task].pc.Working?
    case NoteCode(task) => At(s, task) && s.steps[task].pc.Working?
    case Receive(task, _) => At(s, task) && s.steps[task].pc.Working?
    case Settle(task) => At(s, task) && s.steps[task].pc.Replied?
    case TakeOut(task) => At(s, task) && s.steps[task].pc.Taking?
    case FinishHandOff(task, _) => At(s, task) && s.steps[task].pc.HandingOff?
    case FinishEnd(task) => At(s, task) && s.steps[task].pc.Ending?
    case Leave(task) => At(s, task) && s.steps[task].pc.Leaving?
    case Sweep(which) => which.PastDeadline? ==> which.now == s.now
    case SweepOwned(_, _) => true
    case Reclaim(login) =>
      && login in s.terminators && s.terminators[login].Owing? && s.terminators[login].slot in s.slots
      && s.slots[s.terminators[login].slot].holder.None?
    case FinishTerminator(login) => login in s.terminators && s.terminators[login].Reclaimed?
  }

  function Go(s: State, task: nat, pc: Pc): State
    requires task in s.steps
  {
    s.(steps := s.steps[task := s.steps[task].(pc := pc)])
  }

  function Quit(s: State, task: nat): State {
    s.(steps := s.steps - {task})
  }

  function SetSlot(s: State, slot: nat, content: Option<nat>, holder: Option<nat>): State {
    s.(slots := s.slots[slot := Slot(content, holder)])
  }

  function Logged(s: State, pending: Option<nat>, handedOff: bool): State {
    if pending.None? then s
    else s.(log := s.log + [if handedOff then HandedOff(pending.value) else Stopped(pending.value)])
  }

  /** The removed entries leave the ledger; each gets a terminator for its slot. */
  function Terminate(s: State, logins: set<string>): State
    requires logins <= s.book.entries.Keys
  {
    s.(book := Swept(s.book, logins),
       terminators := s.terminators + map login | login in logins :: Owing(s.book.entries[login].slot))
  }

  function Admitted(s: State, task: nat, login: string, principal: string, abort: bool): State {
    var claim := ClaimResult(s.book, login, principal, s.now);
    match claim
    case NotFound => s
    case Expired(_) => Terminate(s, {login})
    case Exhausted(_) => Terminate(s, {login})
    case Ready(ticket) =>
      s.(book := Claimed(s.book, login, principal, s.now),
          steps := s.steps[task := Step(login, ticket.slot, Waiting(abort))])
  }

  function Checked(s: State, task: nat): Pc
    requires At(s, task) && s.steps[task].pc.Locked?
  {
    var Step(login, slot, pc) := s.steps[task];
    if !IsCurrent(s.book, login, slot) || s.slots[slot].content.None? then Leaving
    else if pc.abort then Aborting else Working
  }

  function Settled(s: State, task: nat): State
    requires task in s.steps && s.steps[task].pc.Replied?
  {
    var Step(login, slot, pc) := s.steps[task];
    if !IsCurrent(s.book, login, slot) then Go(s, task, Leaving)
    else if pc.next.Continue? then Go(s.(book := Released(s.book, login, slot, s.now)), task, Leaving)
    else Go(s.(book := RemovedCurrent(s.book, login, slot)), task, Taking(pc.next))
  }

  function Do(s: State, a: Action): State
    requires Enabled(s, a)
  {
    match a
    case Tick(later) => s.(now := later)
    case Register(login, slot, executor, entry) =>
      SetSlot(s, slot, Some(executor), None)
        .(book := With(s.book, login, entry), homes := s.homes[login := slot], launched := s.launched + {executor})
    case Admit(task, login, principal, abort) => Admitted(s, task, login, principal, abort)
    case Lock(task) =>
      var Step(login, slot, pc) := s.steps[task];
      SetSlot(Go(s, task, Locked(pc.abort)), slot, s.slots[slot].content, Some(task))
    case Check(task) => Go(s, task, Checked(s, task))
    case TakeForAbort(task) =>
      var slot := s.steps[task].slot;
      SetSlot(Go(s, task, Dropping(s.slots[slot].content)), slot, None, None)
    case RemoveAborted(task) =>
      var Step(login, slot, pc) := s.steps[task];
      Go(s.(book := RemovedCurrent(s.book, login, slot)), task, Ending(pc.pending))
    case CodeFailed(task) =>
      var Step(login, slot, pc) := s.steps[task];
      Go(s.(book := Released(s.book, login, slot, s.now)), task, Leaving)
    case NoteCode(task) => s.(book := Noted(s.book, s.steps[task].login, s.steps[task].slot))
    case Receive(task, reply) => Go(s, task, Replied(NextAfter(reply)))
    case Settle(task) => Settled(s, task)
    case TakeOut(task) =>
      var Step(login, slot, pc) := s.steps[task];
      var content := s.slots[slot].content;
      SetSlot(Go(s, task, if pc.next.HandOff? then HandingOff(content) else Ending(content)), slot, None, None)
    case FinishHandOff(task, registered) => Logged(Quit(s, task), s.steps[task].pc.pending, registered)
    case FinishEnd(task) => Logged(Quit(s, task), s.steps[task].pc.pending, false)
    case Leave(task) =>
      var slot := s.steps[task].slot;
      SetSlot(Quit(s, task), slot, s.slots[slot].content, None)
    case Sweep(which) => Terminate(s, Selected(s.book, which))
    case SweepOwned(login, principal) =>
      if login in s.book.entries && s.book.entries[login].key.principal == principal then Terminate(s, {login}) else s
    case Reclaim(login) =>
      var slot := s.terminators[login].slot;
      SetSlot(s, slot, None, None).(terminators := s.terminators[login := Reclaimed(s.slots[slot].content)])
    case FinishTerminator(login) =>
      Logged(s.(terminators := s.terminators - {login}), s.terminators[login].pending, false)
  }

  predicate Steps(states: seq<State>, actions: seq<Action>) {
    && |states| == |actions| + 1
    && forall i :: 0 <= i < |actions| ==> Enabled(states[i], actions[i]) && states[i + 1] == Do(states[i], actions[i])
  }

  predicate IsRun(states: seq<State>, actions: seq<Action>) {
    Steps(states, actions) && states[0] == Initial(states[0].book.idle, states[0].book.max)
  }

  // What holds between any two critical sections.

  /** Every entry, terminator and step has the slot its login was registered with, and no other login has it. */
  predicate HomesOk(s: State) {
    && (forall l | l in s.homes :: s.homes[l] in s.slots)
    && (forall l, m | l in s.homes && m in s.homes && s.homes[l] == s.homes[m] :: l == m)
    && (forall l | l in s.book.entries :: l in s.homes && s.book.entries[l].slot == s.homes[l] && l !in s.terminators)
    && (forall l | l in s.terminators ::
          l in s.homes && (s.terminators[l].Owing? ==> s.terminators[l].slot == s.homes[l]))
    && (forall t | t in s.steps :: s.steps[t].login in s.homes && s.steps[t].slot == s.homes[s.steps[t].login])
  }

  predicate LocksOk(s: State) {
    && (forall t | t in s.steps && s.steps[t].pc.HoldsSlot() ::
          s.steps[t].slot in s.slots && s.slots[s.steps[t].slot].holder == Some(t))
    && (forall x | x in s.slots && s.slots[x].holder.Some? ::
          var t := s.slots[x].holder.value;
          t in s.steps && s.steps[t].pc.HoldsSlot() && s.steps[t].slot == x)
  }

  /** A step has taken the login out of the ledger and still has its slot. */
  predicate BeingTaken(s: State, slot: nat) {
    && slot in s.slots && s.slots[slot].holder.Some?
    && s.slots[slot].holder.value in s.steps && s.steps[s.slots[slot].holder.value].pc.Taking?
  }

  predicate OwedOrListed(s: State, login: string) {
    || login in s.book.entries
    || (login in s.terminators && s.terminators[login].Owing?)
    || (login in s.homes && BeingTaken(s, s.homes[login]))
  }

  /** What a step knows about the executor in its slot and the one it carries. */
  predicate StepOk(s: State, step: Step) {
    && step.slot in s.slots
    && (step.pc.NeedsExecutor() ==> s.slots[step.slot].content.Some?)
    && (step.pc.Dropping? ==> s.slots[step.slot].content.None?)
    && (step.pc.Dropping? || step.pc.HandingOff? || step.pc.Ending? ==> step.pc.pending.Some?)
  }

  predicate FullIsOwed(s: State, login: string) {
    login in s.homes && s.homes[login] in s.slots && s.slots[s.homes[login]].content.Some? ==> OwedOrListed(s, login)
  }

  predicate SlotsOk(s: State) {
    && (forall t | t in s.steps :: StepOk(s, s.steps[t]))
    && (forall l | l in s.homes :: FullIsOwed(s, l))
  }

  function Active(steps: map<nat, Step>, login: string): set<nat> {
    set t | t in steps && steps[t].login == login && steps[t].pc.Unfinished()
  }

  predicate CountOk(s: State, login: string)
    requires login in s.book.entries
  {
    var entry := s.book.entries[login];
    && |Active(s.steps, login)| <= entry.inFlight <= entry.steps <= MAX_STEPS
    && (entry.slot in s.slots && s.slots[entry.slot].content.Some? ==> entry.inFlight == |Active(s.steps, login)|)
  }

  predicate CountsOk(s: State) {
    forall l | l in s.book.entries :: CountOk(s, l)
  }

  /** Where an executor can be. */
  datatype Place = InSlot(slot: nat) | WithStep(task: nat) | WithTerminator(login: string) | InLog(index: nat)

  function ExecutorAt(s: State, p: Place): Option<nat> {
    match p
    case InSlot(slot) => if slot in s.slots then s.slots[slot].content else None
    case WithStep(task) => if task in s.steps then s.steps[task].pc.Carried() else None
    case WithTerminator(login) =>
      if login in s.terminators && s.terminators[login].Reclaimed? then s.terminators[login].pending else None
    case InLog(index) => if index < |s.log| then Some(s.log[index].executor) else None
  }

  ghost predicate PlacesOk(s: State) {
    && (forall p, q | ExecutorAt(s, p).Some? && ExecutorAt(s, p) == ExecutorAt(s, q) :: p == q)
    && (forall p | ExecutorAt(s, p).Some? :: ExecutorAt(s, p).value in s.launched)
    && (forall e | e in s.launched :: exists p :: ExecutorAt(s, p) == Some(e))
  }

  ghost predicate Inv(s: State) {
    HomesOk(s) && LocksOk(s) && SlotsOk(s) && CountsOk(s) && PlacesOk(s)
  }

  // An executor moves from one place to another, and no other executor with it.

  ghost predicate Moves(s: State, s': State, from: Place, to: Place) {
    && s'.launched == s.launched
    && ExecutorAt(s', to) == ExecutorAt(s, from)
    && (from != to ==> ExecutorAt(s, to).None? && ExecutorAt(s', from).None?)
    && (forall p | p != from && p != to :: ExecutorAt(s', p) == ExecutorAt(s, p))
  }

  lemma MovesKeepsPlaces(s: State, s': State, from: Place, to: Place)
    requires PlacesOk(s) && Moves(s, s', from, to)
    ensures PlacesOk(s')
  {
    hide ExecutorAt;
    forall e | e in s'.launched ensures exists p :: ExecutorAt(s', p) == Some(e) {
      var p :| ExecutorAt(s, p) == Some(e);
      var p' := if p == from then to else p;
      assert ExecutorAt(s', p') == Some(e);
    }
    forall p, q | ExecutorAt(s', p).Some? && ExecutorAt(s', p) == ExecutorAt(s', q) ensures p == q {
      var p0, q0 := if p == to then from else p, if q == to then from else q;
      assert ExecutorAt(s, p0) == ExecutorAt(s', p) && ExecutorAt(s, q0) == ExecutorAt(s', q);
    }
  }

  // A step that goes on, and what it does to the ledger on the way.

  /** A step changes its place and at most the entry of its own login, and leaves the slot as it is. */
  predicate Rewrites(s: State, task: nat, b: Book, pc: Pc) {
    && task in s.steps && s.steps[task].slot in s.slots
    && var Step(login, slot, was) := s.steps[task];
       var full := s.slots[slot].content.Some?;
       && pc.HoldsSlot() == was.HoldsSlot() && pc.Carried() == was.Carried() && !was.Taking?
       && (pc.NeedsExecutor() ==> full) && (pc.Dropping? ==> !full) &&
             (pc.Dropping? || pc.HandingOff? || pc.Ending? ==> pc.pending.Some?)
       && (forall l | l in b.entries :: l in s.book.entries && (l != login ==> b.entries[l] == s.book.entries[l]))
       && (forall l | l in s.book.entries && l != login :: l in b.entries)
       && (full && login in s.book.entries && login !in b.entries ==> pc.Taking?)
       && (login in b.entries ==>
             var entry, entry' := s.book.entries[login], b.entries[login];
             && entry'.slot == entry.slot && entry'.steps == entry.steps
             && (pc.Unfinished() == was.Unfinished() ==> entry'.inFlight == entry.inFlight)
             && (pc.Unfinished() != was.Unfinished() ==>
                   was.Unfinished() && (entry'.inFlight == entry.inFlight - 1 ||
                       (!full && entry'.inFlight == entry.inFlight))))
  }

  lemma ActiveStays(steps: map<nat, Step>, task: nat, pc: Pc, login: string)
    requires task in steps && (steps[task].login != login || pc.Unfinished() == steps[task].pc.Unfinished())
    ensures Active(steps[task := steps[task].(pc := pc)], login) == Active(steps, login)
  {
  }

  lemma ActiveLeaves(steps: map<nat, Step>, task: nat, pc: Pc)
    requires task in steps && steps[task].pc.Unfinished() && !pc.Unfinished()
    ensures
      var login := steps[task].login;
      && Active(steps[task := steps[task].(pc := pc)], login) == Active(steps, login) - {task}
      && |Active(steps, login) - {task}| == |Active(steps, login)| - 1
  {
    var login := steps[task].login;
    assert Active(steps[task := steps[task].(pc := pc)], login) == Active(steps, login) - {task};
    assert task in Active(steps, login);
  }

  function Rewritten(s: State, task: nat, b: Book, pc: Pc): State
    requires task in s.steps
  {
    Go(s.(book := b), task, pc)
  }

  lemma RewriteKeepsHomes(s: State, task: nat, b: Book, pc: Pc)
    requires HomesOk(s) && Rewrites(s, task, b, pc)
    ensures HomesOk(Rewritten(s, task, b, pc))
  {
  }

  lemma RewriteKeepsLocks(s: State, task: nat, b: Book, pc: Pc)
    requires LocksOk(s) && Rewrites(s, task, b, pc)
    ensures LocksOk(Rewritten(s, task, b, pc))
  {
  }

  lemma RewriteStillOwed(s: State, task: nat, b: Book, pc: Pc, login: string)
    requires HomesOk(s) && LocksOk(s) && Rewrites(s, task, b, pc) && FullIsOwed(s, login)
    ensures FullIsOwed(Rewritten(s, task, b, pc), login)
  {
  }

  lemma RewriteKeepsSlots(s: State, task: nat, b: Book, pc: Pc)
    requires HomesOk(s) && LocksOk(s) && SlotsOk(s) && Rewrites(s, task, b, pc)
    ensures SlotsOk(Rewritten(s, task, b, pc))
  {
    var s' := Rewritten(s, task, b, pc);
    forall t | t in s'.steps ensures StepOk(s', s'.steps[t]) {
      hide HomesOk, LocksOk, FullIsOwed;
      assert t != task ==> StepOk(s, s.steps[t]);
    }
    hide StepOk, HomesOk, LocksOk, FullIsOwed, Rewrites;
    forall l | l in s'.homes ensures FullIsOwed(s', l) {
      RewriteStillOwed(s, task, b, pc, l);
    }
  }

  lemma RewriteKeepsCounts(s: State, task: nat, b: Book, pc: Pc)
    requires HomesOk(s) && CountsOk(s) && Rewrites(s, task, b, pc)
    ensures CountsOk(Rewritten(s, task, b, pc))
  {
    var s' := Rewritten(s, task, b, pc);
    var login := s.steps[task].login;
    forall l | l in s'.book.entries ensures CountOk(s', l) {
      assert CountOk(s, l);
      if l == login && pc.Unfinished() != s.steps[task].pc.Unfinished() {
        ActiveLeaves(s.steps, task, pc);
      } else {
        ActiveStays(s.steps, task, pc, l);
      }
    }
  }

  lemma RewriteKeepsInv(s: State, task: nat, b: Book, pc: Pc)
    requires Inv(s) && Rewrites(s, task, b, pc)
    ensures Inv(Rewritten(s, task, b, pc))
  {
    var s' := Rewritten(s, task, b, pc);
    assert Moves(s, s', InLog(|s.log|), InLog(|s.log|));
    hide HomesOk, LocksOk, SlotsOk, CountsOk, PlacesOk, Rewrites;
    MovesKeepsPlaces(s, s', InLog(|s.log|), InLog(|s.log|));
    RewriteKeepsHomes(s, task, b, pc);
    RewriteKeepsLocks(s, task, b, pc);
    RewriteKeepsSlots(s, task, b, pc);
    RewriteKeepsCounts(s, task, b, pc);
  }

  // A step that takes its slot, empties it or gives it back.

  /** `after` is where the step goes, `None` when it returns; `content` is what it leaves in the slot. */
  predicate Handles(s: State, task: nat, after: Option<Pc>, content: Option<nat>) {
    && task in s.steps && s.steps[task].slot in s.slots
    && var Step(login, slot, was) := s.steps[task];
       && (was.HoldsSlot() || s.slots[slot].holder.None?)
       && was.Unfinished() == (after.Some? && after.value.Unfinished())
       && was.Carried().None?
       && (if content == s.slots[slot].content then !was.Taking? && (after.Some? ==> after.value.Carried().None?)
           else content.None? && after.Some? && after.value.Carried() == s.slots[slot].content)
       && (after.Some? && after.value.NeedsExecutor() ==> content.Some?) &&
             (after.Some? && after.value.Dropping? ==> content.None?)
       && (after.Some? && (after.value.Dropping? || after.value.HandingOff? || after.value.Ending?) ==>
             after.value.pending.Some?)
  }

  function Handled(s: State, task: nat, after: Option<Pc>, content: Option<nat>): State
    requires task in s.steps
  {
    SetSlot(if after.None? then Quit(s, task) else Go(s, task, after.value), s.steps[task].slot, content,
            if after.Some? && after.value.HoldsSlot() then Some(task) else None)
  }

  lemma HandleKeepsHomes(s: State, task: nat, after: Option<Pc>, content: Option<nat>)
    requires HomesOk(s) && Handles(s, task, after, content)
    ensures HomesOk(Handled(s, task, after, content))
  {
  }

  lemma HandleKeepsLocks(s: State, task: nat, after: Option<Pc>, content: Option<nat>)
    requires LocksOk(s) && Handles(s, task, after, content)
    ensures LocksOk(Handled(s, task, after, content))
  {
    var s' := Handled(s, task, after, content);
    forall t | t in s'.steps && s'.steps[t].pc.HoldsSlot() ensures s'.slots[s'.steps[t].slot].holder == Some(t) {
      if t != task {
        assert s.slots[s.steps[t].slot].holder == Some(t);
      }
    }
  }

  lemma HandleStillOwed(s: State, task: nat, after: Option<Pc>, content: Option<nat>, login: string)
    requires HomesOk(s) && LocksOk(s) && Handles(s, task, after, content) && FullIsOwed(s, login)
    ensures FullIsOwed(Handled(s, task, after, content), login)
  {
  }

  /** Only the step that holds a slot takes the executor out of it. */
  lemma HandleKeepsStep(s: State, task: nat, after: Option<Pc>, content: Option<nat>, t: nat)
    requires LocksOk(s) && Handles(s, task, after, content) && t in s.steps && StepOk(s, s.steps[t])
    ensures
      var s' := Handled(s, task, after, content);
      t in s'.steps ==> StepOk(s', s'.steps[t])
  {
    if t != task && s.steps[t].pc.HoldsSlot() {
      assert s.slots[s.steps[t].slot].holder == Some(t);
    }
  }

  lemma HandleKeepsSlots(s: State, task: nat, after: Option<Pc>, content: Option<nat>)
    requires HomesOk(s) && LocksOk(s) && SlotsOk(s) && Handles(s, task, after, content)
    ensures SlotsOk(Handled(s, task, after, content))
  {
    hide StepOk, HomesOk, LocksOk, FullIsOwed;
    var s' := Handled(s, task, after, content);
    assert s'.steps.Keys <= s.steps.Keys;
    hide Handles;
    forall t | t in s'.steps ensures StepOk(s', s'.steps[t]) {
      HandleKeepsStep(s, task, after, content, t);
    }
    forall l | l in s'.homes ensures FullIsOwed(s', l) {
      HandleStillOwed(s, task, after, content, l);
    }
  }

  lemma HandleKeepsCounts(s: State, task: nat, after: Option<Pc>, content: Option<nat>)
    requires CountsOk(s) && Handles(s, task, after, content)
    ensures CountsOk(Handled(s, task, after, content))
  {
    var s' := Handled(s, task, after, content);
    forall l | l in s'.book.entries ensures CountOk(s', l) {
      assert CountOk(s, l);
      assert Active(s'.steps, l) == Active(s.steps, l);
    }
  }

  lemma HandleMoves(s: State, task: nat, after: Option<Pc>, content: Option<nat>)
    requires Handles(s, task, after, content)
    ensures Moves(s, Handled(s, task, after, content), InSlot(s.steps[task].slot),
                  if content == s.slots[s.steps[task].slot].content then InSlot(s.steps[task].slot) else WithStep(task))
  {
  }

  lemma HandleKeepsInv(s: State, task: nat, after: Option<Pc>, content: Option<nat>)
    requires Inv(s) && Handles(s, task, after, content)
    ensures Inv(Handled(s, task, after, content))
  {
    HandleMoves(s, task, after, content);
    HandleKeepsHomes(s, task, after, content);
    HandleKeepsLocks(s, task, after, content);
    HandleKeepsSlots(s, task, after, content);
    HandleKeepsCounts(s, task, after, content);
    hide HomesOk, LocksOk, SlotsOk, CountsOk, PlacesOk, Moves, Handled;
    MovesKeepsPlaces(s, Handled(s, task, after, content), InSlot(s.steps[task].slot),
      if content == s.slots[s.steps[task].slot].content then InSlot(s.steps[task].slot) else WithStep(task));
  }

  // A step or a terminator that is done with its executor.

  /** Steps that hold nothing return; entries leave the ledger for a terminator; terminators that owe nothing end. */
  predicate Thins(s: State, s': State) {
    && s'.slots == s.slots && s'.homes == s.homes
    && (forall t | t in s'.steps :: t in s.steps && s'.steps[t] == s.steps[t])
    && (forall t | t in s.steps && (s.steps[t].pc.HoldsSlot() || s.steps[t].pc.Unfinished()) :: t in s'.steps)
    && (forall l | l in s'.book.entries :: l in s.book.entries && s'.book.entries[l] == s.book.entries[l] &&
          l !in s'.terminators)
    && (forall l | l in s.book.entries && l !in s'.book.entries ::
          l in s'.terminators && s'.terminators[l] == Owing(s.book.entries[l].slot))
    && (forall l | l in s.terminators && s.terminators[l].Owing? ::
          l in s'.terminators && s'.terminators[l] == s.terminators[l])
    && (forall l | l in s'.terminators && l !in s.book.entries ::
          l in s.terminators && s'.terminators[l] == s.terminators[l])
  }

  lemma ThinKeepsHomes(s: State, s': State)
    requires HomesOk(s) && Thins(s, s')
    ensures HomesOk(s')
  {
  }

  lemma ThinKeepsLocks(s: State, s': State)
    requires LocksOk(s) && Thins(s, s')
    ensures LocksOk(s')
  {
  }

  lemma ThinStillOwed(s: State, s': State, login: string)
    requires Thins(s, s') && FullIsOwed(s, login)
    ensures FullIsOwed(s', login)
  {
  }

  lemma ThinKeepsSlots(s: State, s': State)
    requires SlotsOk(s) && Thins(s, s')
    ensures SlotsOk(s')
  {
    hide FullIsOwed;
    forall l | l in s'.homes ensures FullIsOwed(s', l) {
      ThinStillOwed(s, s', l);
    }
    forall t | t in s'.steps ensures StepOk(s', s'.steps[t]) {
      assert StepOk(s, s.steps[t]);
    }
  }

  lemma ThinKeepsCounts(s: State, s': State)
    requires CountsOk(s) && Thins(s, s')
    ensures CountsOk(s')
  {
    forall l | l in s'.book.entries ensures CountOk(s', l) {
      assert CountOk(s, l);
      assert Active(s'.steps, l) == Active(s.steps, l);
    }
  }

  lemma ThinKeepsInv(s: State, s': State, from: Place)
    requires Inv(s) && Thins(s, s') && Moves(s, s', from, InLog(|s.log|))
    ensures Inv(s')
  {
    hide HomesOk, LocksOk, SlotsOk, CountsOk, PlacesOk, Thins, Moves;
    MovesKeepsPlaces(s, s', from, InLog(|s.log|));
    ThinKeepsHomes(s, s');
    ThinKeepsLocks(s, s');
    ThinKeepsSlots(s, s');
    ThinKeepsCounts(s, s');
  }

  lemma StepEndMoves(s: State, task: nat, handedOff: bool)
    requires task in s.steps && (s.steps[task].pc.HandingOff? || s.steps[task].pc.Ending?)
    ensures Moves(s, Logged(Quit(s, task), s.steps[task].pc.pending, handedOff), WithStep(task), InLog(|s.log|))
  {
  }

  lemma TerminatorEndMoves(s: State, login: string)
    requires login in s.terminators && s.terminators[login].Reclaimed?
    ensures Moves(s, Logged(s.(terminators := s.terminators - {login}), s.terminators[login].pending, false),
        WithTerminator(login), InLog(|s.log|))
  {
  }

  /** Terminators start with nothing in hand. */
  lemma TerminateMoves(s: State, logins: set<string>)
    requires HomesOk(s) && logins <= s.book.entries.Keys
    ensures Moves(s, Terminate(s, logins), InLog(|s.log|), InLog(|s.log|))
  {
  }

  lemma StepEnds(s: State, task: nat, handedOff: bool)
    requires Inv(s) && task in s.steps && (s.steps[task].pc.HandingOff? || s.steps[task].pc.Ending?)
    ensures Inv(Logged(Quit(s, task), s.steps[task].pc.pending, handedOff))
  {
    hide LocksOk, SlotsOk, CountsOk, PlacesOk;
    var s' := Logged(Quit(s, task), s.steps[task].pc.pending, handedOff);
    StepEndMoves(s, task, handedOff);
    hide Moves, ExecutorAt;
    ThinKeepsInv(s, s', WithStep(task));
  }

  lemma TerminatorEnds(s: State, login: string)
    requires Inv(s) && login in s.terminators && s.terminators[login].Reclaimed?
    ensures Inv(Logged(s.(terminators := s.terminators - {login}), s.terminators[login].pending, false))
  {
    hide LocksOk, SlotsOk, CountsOk, PlacesOk;
    var s' := Logged(s.(terminators := s.terminators - {login}), s.terminators[login].pending, false);
    TerminatorEndMoves(s, login);
    hide Moves, ExecutorAt;
    ThinKeepsInv(s, s', WithTerminator(login));
  }

  lemma TerminateKeepsInv(s: State, logins: set<string>)
    requires Inv(s) && logins <= s.book.entries.Keys
    ensures Inv(Terminate(s, logins))
  {
    hide LocksOk, SlotsOk, CountsOk, PlacesOk;
    var s' := Terminate(s, logins);
    TerminateMoves(s, logins);
    hide Moves, ExecutorAt;
    ThinKeepsInv(s, s', InLog(|s.log|));
  }

  /** The slot of `login` is free, so nobody needs what its terminator takes out. */
  function ReclaimedState(s: State, login: string): State
    requires login in s.terminators && s.terminators[login].Owing? && s.terminators[login].slot in s.slots
  {
    var slot := s.terminators[login].slot;
    SetSlot(s, slot, None, None).(terminators := s.terminators[login := Reclaimed(s.slots[slot].content)])
  }

  predicate MayReclaim(s: State, login: string) {
    && login in s.terminators && s.terminators[login].Owing? && s.terminators[login].slot in s.slots
    && s.slots[s.terminators[login].slot].holder.None?
  }

  lemma ReclaimStillOwed(s: State, login: string, other: string)
    requires HomesOk(s) && MayReclaim(s, login) && FullIsOwed(s, other)
    ensures FullIsOwed(ReclaimedState(s, login), other)
  {
  }

  lemma ReclaimKeepsStep(s: State, login: string, t: nat)
    requires LocksOk(s) && MayReclaim(s, login) && t in s.steps && StepOk(s, s.steps[t])
    ensures StepOk(ReclaimedState(s, login), s.steps[t])
  {
    if s.steps[t].pc.HoldsSlot() {
      assert s.slots[s.steps[t].slot].holder == Some(t);
    }
  }

  lemma ReclaimKeepsSlots(s: State, login: string)
    requires HomesOk(s) && LocksOk(s) && SlotsOk(s) && MayReclaim(s, login)
    ensures SlotsOk(ReclaimedState(s, login))
  {
    hide StepOk, FullIsOwed, HomesOk, LocksOk;
    var s' := ReclaimedState(s, login);
    forall t | t in s'.steps ensures StepOk(s', s'.steps[t]) {
      ReclaimKeepsStep(s, login, t);
    }
    forall l | l in s'.homes ensures FullIsOwed(s', l) {
      ReclaimStillOwed(s, login, l);
    }
  }

  lemma ReclaimKeepsLocks(s: State, login: string)
    requires LocksOk(s) && MayReclaim(s, login)
    ensures LocksOk(ReclaimedState(s, login))
  {
  }

  lemma ReclaimKeepsRest(s: State, login: string)
    requires HomesOk(s) && CountsOk(s) && MayReclaim(s, login)
    ensures HomesOk(ReclaimedState(s, login)) && CountsOk(ReclaimedState(s, login))
  {
    var s' := ReclaimedState(s, login);
    forall l | l in s'.book.entries ensures CountOk(s', l) {
      assert CountOk(s, l);
    }
  }

  lemma ReclaimMoves(s: State, login: string)
    requires HomesOk(s) && MayReclaim(s, login)
    ensures Moves(s, ReclaimedState(s, login), InSlot(s.terminators[login].slot), WithTerminator(login))
  {
    hide HomesOk;
  }

  lemma ReclaimKeepsInv(s: State, login: string)
    requires Inv(s) && MayReclaim(s, login)
    ensures Inv(ReclaimedState(s, login))
  {
    hide HomesOk, LocksOk, SlotsOk, CountsOk, PlacesOk, Moves, ReclaimedState;
    ReclaimMoves(s, login);
    ReclaimKeepsRest(s, login);
    ReclaimKeepsSlots(s, login);
    ReclaimKeepsLocks(s, login);
    MovesKeepsPlaces(s, ReclaimedState(s, login), InSlot(s.terminators[login].slot), WithTerminator(login));
  }

  // A login registered, a step admitted.

  function RegisteredState(s: State, login: string, slot: nat, executor: nat, entry: Entry): State {
    SetSlot(s, slot, Some(executor), None)
      .(book := With(s.book, login, entry), homes := s.homes[login := slot], launched := s.launched + {executor})
  }

  predicate MayRegister(s: State, login: string, slot: nat, executor: nat, entry: Entry) {
    && login !in s.homes && slot !in s.slots && executor !in s.launched && entry.startedAt <= s.now
    && entry == Entry(entry.key, entry.exclusive, entry.persistCookies, entry.startedAt, s.now, 0, 0, 0, slot)
  }

  lemma RegisterKeepsHomes(s: State, login: string, slot: nat, executor: nat, entry: Entry)
    requires HomesOk(s) && MayRegister(s, login, slot, executor, entry)
    ensures HomesOk(RegisteredState(s, login, slot, executor, entry))
  {
  }

  lemma RegisterKeepsLocks(s: State, login: string, slot: nat, executor: nat, entry: Entry)
    requires LocksOk(s) && MayRegister(s, login, slot, executor, entry)
    ensures LocksOk(RegisteredState(s, login, slot, executor, entry))
  {
  }

  lemma RegisterStillOwed(s: State, login: string, slot: nat, executor: nat, entry: Entry, other: string)
    requires HomesOk(s) && MayRegister(s, login, slot, executor, entry) && FullIsOwed(s, other)
    ensures FullIsOwed(RegisteredState(s, login, slot, executor, entry), other)
  {
  }

  lemma RegisterKeepsSlots(s: State, login: string, slot: nat, executor: nat, entry: Entry)
    requires HomesOk(s) && SlotsOk(s) && MayRegister(s, login, slot, executor, entry)
    ensures SlotsOk(RegisteredState(s, login, slot, executor, entry))
  {
    hide FullIsOwed, HomesOk;
    var s' := RegisteredState(s, login, slot, executor, entry);
    forall t | t in s'.steps ensures StepOk(s', s'.steps[t]) {
      assert StepOk(s, s.steps[t]);
    }
    forall l | l in s'.homes ensures FullIsOwed(s', l) {
      assert l != login ==> FullIsOwed(s, l);
      assert FullIsOwed(s, login) by { assert login !in s.homes; FullIsOwedUnlessHome(s, login); }
      RegisterStillOwed(s, login, slot, executor, entry, l);
    }
  }

  lemma FullIsOwedUnlessHome(s: State, login: string)
    ensures login !in s.homes ==> FullIsOwed(s, login)
  {
  }

  lemma RegisterKeepsCounts(s: State, login: string, slot: nat, executor: nat, entry: Entry)
    requires HomesOk(s) && CountsOk(s) && MayRegister(s, login, slot, executor, entry)
    ensures CountsOk(RegisteredState(s, login, slot, executor, entry))
  {
    var s' := RegisteredState(s, login, slot, executor, entry);
    forall l | l in s'.book.entries ensures CountOk(s', l) {
      if l == login {
        assert Active(s'.steps, l) == {};
      } else {
        assert CountOk(s, l);
      }
    }
  }

  lemma RegisterKeepsPlaces(s: State, login: string, slot: nat, executor: nat, entry: Entry)
    requires PlacesOk(s) && MayRegister(s, login, slot, executor, entry)
    ensures PlacesOk(RegisteredState(s, login, slot, executor, entry))
  {
    var s' := RegisteredState(s, login, slot, executor, entry);
    assert ExecutorAt(s', InSlot(slot)) == Some(executor) && ExecutorAt(s, InSlot(slot)) == None;
    assert forall p | p != InSlot(slot) :: ExecutorAt(s', p) == ExecutorAt(s, p);
    hide ExecutorAt;
    forall e | e in s'.launched ensures exists p :: ExecutorAt(s', p) == Some(e) {
      if e != executor {
        var p :| ExecutorAt(s, p) == Some(e);
        assert ExecutorAt(s', p) == Some(e);
      }
    }
  }

  lemma RegisterKeepsInv(s: State, login: string, slot: nat, executor: nat, entry: Entry)
    requires Inv(s) && MayRegister(s, login, slot, executor, entry)
    ensures Inv(RegisteredState(s, login, slot, executor, entry))
  {
    hide HomesOk, LocksOk, SlotsOk, CountsOk, PlacesOk, RegisteredState, MayRegister;
    RegisterKeepsHomes(s, login, slot, executor, entry);
    RegisterKeepsLocks(s, login, slot, executor, entry);
    RegisterKeepsSlots(s, login, slot, executor, entry);
    RegisterKeepsCounts(s, login, slot, executor, entry);
    RegisterKeepsPlaces(s, login, slot, executor, entry);
  }

  function ReadyState(s: State, task: nat, login: string, abort: bool): State
    requires login in s.book.entries
  {
    var entry := s.book.entries[login];
    s.(book := With(s.book, login, entry.(steps := entry.steps + 1, inFlight := entry.inFlight + 1)),
       steps := s.steps[task := Step(login, entry.slot, Waiting(abort))])
  }

  predicate MayStart(s: State, task: nat, login: string) {
    task !in s.steps && login in s.book.entries && s.book.entries[login].steps < MAX_STEPS
  }

  lemma ReadyKeepsHomes(s: State, task: nat, login: string, abort: bool)
    requires HomesOk(s) && MayStart(s, task, login)
    ensures HomesOk(ReadyState(s, task, login, abort))
  {
  }

  lemma ReadyKeepsLocks(s: State, task: nat, login: string, abort: bool)
    requires LocksOk(s) && MayStart(s, task, login)
    ensures LocksOk(ReadyState(s, task, login, abort))
  {
  }

  lemma ReadyKeepsSlots(s: State, task: nat, login: string, abort: bool)
    requires HomesOk(s) && LocksOk(s) && SlotsOk(s) && MayStart(s, task, login)
    ensures SlotsOk(ReadyState(s, task, login, abort))
  {
    var s' := ReadyState(s, task, login, abort);
    forall t | t in s'.steps ensures StepOk(s', s'.steps[t]) {
      hide FullIsOwed, LocksOk;
      assert t != task ==> StepOk(s, s.steps[t]);
    }
    hide StepOk, HomesOk;
    forall l | l in s'.homes ensures FullIsOwed(s', l) {
      assert FullIsOwed(s, l);
    }
  }

  lemma ReadyMoves(s: State, task: nat, login: string, abort: bool)
    requires MayStart(s, task, login)
    ensures Moves(s, ReadyState(s, task, login, abort), InLog(|s.log|), InLog(|s.log|))
  {
  }

  lemma ActiveJoins(steps: map<nat, Step>, task: nat, step: Step, login: string)
    requires task !in steps && step.pc.Unfinished()
    ensures |Active(steps[task := step], login)| == |Active(steps, login)| + if step.login == login then 1 else 0
  {
    assert Active(steps[task := step], login) == if step.login == login then Active(steps, login) + {task}
        else Active(steps, login);
  }

  lemma ReadyKeepsCounts(s: State, task: nat, login: string, abort: bool)
    requires CountsOk(s) && MayStart(s, task, login)
    ensures CountsOk(ReadyState(s, task, login, abort))
  {
    var s' := ReadyState(s, task, login, abort);
    forall l | l in s'.book.entries ensures CountOk(s', l) {
      assert CountOk(s, l);
      ActiveJoins(s.steps, task, s'.steps[task], l);
    }
  }

  lemma ReadyKeepsInv(s: State, task: nat, login: string, abort: bool)
    requires Inv(s) && MayStart(s, task, login)
    ensures Inv(ReadyState(s, task, login, abort))
  {
    var s' := ReadyState(s, task, login, abort);
    ReadyMoves(s, task, login, abort);
    hide HomesOk, LocksOk, SlotsOk, CountsOk, PlacesOk, Moves, ReadyState;
    MovesKeepsPlaces(s, s', InLog(|s.log|), InLog(|s.log|));
    ReadyKeepsHomes(s, task, login, abort);
    ReadyKeepsLocks(s, task, login, abort);
    ReadyKeepsSlots(s, task, login, abort);
    ReadyKeepsCounts(s, task, login, abort);
  }

  lemma AdmitKeepsInv(s: State, task: nat, login: string, principal: string, abort: bool)
    requires Inv(s) && task !in s.steps
    ensures Inv(Admitted(s, task, login, principal, abort))
  {
    hide HomesOk, LocksOk, SlotsOk, CountsOk, PlacesOk;
    match ClaimResult(s.book, login, principal, s.now)
    case NotFound =>
    case Expired(_) => TerminateKeepsInv(s, {login});
    case Exhausted(_) => TerminateKeepsInv(s, {login});
    case Ready(_) =>
      ReadyKeepsInv(s, task, login, abort);
      assert Admitted(s, task, login, principal, abort) == ReadyState(s, task, login, abort);
  }

  lemma TickKeepsInv(s: State, later: nat)
    requires Inv(s)
    ensures Inv(s.(now := later))
  {
    var s' := s.(now := later);
    assert Moves(s, s', InLog(|s.log|), InLog(|s.log|));
    ThinKeepsInv(s, s', InLog(|s.log|));
  }

  // The actions of a step.

  /** Release never runs below zero: the step that releases is itself counted. */
  lemma NeverSaturates(s: State, task: nat)
    requires CountsOk(s) && task in s.steps && s.steps[task].pc.Unfinished() && s.steps[task].login in s.book.entries
    ensures s.book.entries[s.steps[task].login].inFlight > 0
  {
    assert CountOk(s, s.steps[task].login);
    assert task in Active(s.steps, s.steps[task].login);
  }

  lemma ReleaseRewrites(s: State, task: nat)
    requires Inv(s) && task in s.steps && (s.steps[task].pc.Working? || s.steps[task].pc.Replied?)
    ensures Rewrites(s, task, Released(s.book, s.steps[task].login, s.steps[task].slot, s.now), Leaving)
  {
    hide LocksOk, PlacesOk, CountsOk, SlotsOk;
    if s.steps[task].login in s.book.entries {
      NeverSaturates(s, task);
    }
  }

  lemma CheckRewrites(s: State, task: nat)
    requires Inv(s) && task in s.steps && s.steps[task].pc.Locked?
    ensures At(s, task) && Rewrites(s, task, s.book, Checked(s, task))
  {
    hide LocksOk, PlacesOk, CountsOk;
  }

  lemma SettleKeepsInv(s: State, task: nat)
    requires Inv(s) && task in s.steps && s.steps[task].pc.Replied?
    ensures Inv(Settled(s, task))
  {
    var Step(login, slot, pc) := s.steps[task];
    if !IsCurrent(s.book, login, slot) {
      assert Rewrites(s, task, s.book, Leaving) by { hide LocksOk, PlacesOk, CountsOk; }
      hide HomesOk, LocksOk, SlotsOk, CountsOk, PlacesOk, Rewrites;
      RewriteKeepsInv(s, task, s.book, Leaving);
    } else if pc.next.Continue? {
      hide HomesOk, LocksOk, SlotsOk, CountsOk, PlacesOk, Rewrites;
      ReleaseRewrites(s, task);
      RewriteKeepsInv(s, task, Released(s.book, login, slot, s.now), Leaving);
    } else {
      assert Rewrites(s, task, RemovedCurrent(s.book, login, slot), Taking(pc.next)) by {
        hide LocksOk, PlacesOk, CountsOk;
      }
      hide HomesOk, LocksOk, SlotsOk, CountsOk, PlacesOk, Rewrites;
      RewriteKeepsInv(s, task, RemovedCurrent(s.book, login, slot), Taking(pc.next));
    }
  }

  lemma CheckKeepsInv(s: State, task: nat)
    requires Inv(s) && At(s, task) && s.steps[task].pc.Locked?
    ensures Inv(Go(s, task, Checked(s, task)))
  {
    CheckRewrites(s, task);
    hide HomesOk, LocksOk, CountsOk, PlacesOk, SlotsOk, Rewrites, Checked;
    RewriteKeepsInv(s, task, s.book, Checked(s, task));
    assert s.(book := s.book) == s;
  }

  /** The slot is already empty, so leaving the ledger strands no executor. */
  lemma RemoveAbortedKeepsInv(s: State, task: nat)
    requires Inv(s) && At(s, task) && s.steps[task].pc.Dropping?
    ensures
      var Step(login, slot, pc) := s.steps[task];
      Inv(Go(s.(book := RemovedCurrent(s.book, login, slot)), task, Ending(pc.pending)))
  {
    var Step(login, slot, pc) := s.steps[task];
    assert StepOk(s, s.steps[task]);
    hide LocksOk, CountsOk, PlacesOk, SlotsOk;
    assert Rewrites(s, task, RemovedCurrent(s.book, login, slot), Ending(pc.pending));
    hide HomesOk, Rewrites;
    RewriteKeepsInv(s, task, RemovedCurrent(s.book, login, slot), Ending(pc.pending));
  }

  lemma CodeFailedKeepsInv(s: State, task: nat)
    requires Inv(s) && At(s, task) && s.steps[task].pc.Working?
    ensures
      var Step(login, slot, pc) := s.steps[task];
      Inv(Go(s.(book := Released(s.book, login, slot, s.now)), task, Leaving))
  {
    hide HomesOk, LocksOk, CountsOk, PlacesOk, SlotsOk, Rewrites;
    ReleaseRewrites(s, task);
    RewriteKeepsInv(s, task, Released(s.book, s.steps[task].login, s.steps[task].slot, s.now), Leaving);
  }

  lemma GoNowhere(s: State, task: nat)
    requires task in s.steps
    ensures Go(s, task, s.steps[task].pc) == s
  {
  }

  lemma NoteCodeKeepsInv(s: State, task: nat)
    requires Inv(s) && At(s, task) && s.steps[task].pc.Working?
    ensures Inv(s.(book := Noted(s.book, s.steps[task].login, s.steps[task].slot)))
  {
    var b := Noted(s.book, s.steps[task].login, s.steps[task].slot);
    assert StepOk(s, s.steps[task]);
    hide LocksOk, CountsOk, PlacesOk, SlotsOk;
    assert Rewrites(s, task, b, Working);
    hide HomesOk, Rewrites;
    RewriteKeepsInv(s, task, b, Working);
    GoNowhere(s.(book := b), task);
  }

  lemma ReceiveKeepsInv(s: State, task: nat, reply: Reply)
    requires Inv(s) && At(s, task) && s.steps[task].pc.Working?
    ensures Inv(Go(s, task, Replied(NextAfter(reply))))
  {
    assert StepOk(s, s.steps[task]);
    hide LocksOk, CountsOk, PlacesOk, SlotsOk;
    assert Rewrites(s, task, s.book, Replied(NextAfter(reply)));
    hide HomesOk, Rewrites;
    RewriteKeepsInv(s, task, s.book, Replied(NextAfter(reply)));
    assert s.(book := s.book) == s;
  }

  lemma LockKeepsInv(s: State, task: nat)
    requires Inv(s) && At(s, task) && s.steps[task].pc.Waiting? && s.slots[s.steps[task].slot].holder.None?
    ensures
      var Step(login, slot, pc) := s.steps[task];
      Inv(SetSlot(Go(s, task, Locked(pc.abort)), slot, s.slots[slot].content, Some(task)))
  {
    hide HomesOk, LocksOk, CountsOk, PlacesOk, SlotsOk;
    HandleKeepsInv(s, task, Some(Locked(s.steps[task].pc.abort)), s.slots[s.steps[task].slot].content);
  }

  predicate TakesTo(s: State, task: nat, after: Pc)
    requires At(s, task)
  {
    var was, content := s.steps[task].pc, s.slots[s.steps[task].slot].content;
    || (was.Aborting? && after == Dropping(content))
    || (was.Taking? && (after == HandingOff(content) || after == Ending(content)))
  }

  lemma TakeHandles(s: State, task: nat, after: Pc)
    requires At(s, task) && StepOk(s, s.steps[task]) && TakesTo(s, task, after)
    ensures Handles(s, task, Some(after), None)
  {
  }

  lemma TakeKeepsInv(s: State, task: nat, after: Pc)
    requires Inv(s) && At(s, task) && TakesTo(s, task, after)
    ensures Inv(SetSlot(Go(s, task, after), s.steps[task].slot, None, None))
  {
    assert StepOk(s, s.steps[task]);
    hide HomesOk, LocksOk, CountsOk, PlacesOk, SlotsOk, Handles;
    TakeHandles(s, task, after);
    HandleKeepsInv(s, task, Some(after), None);
  }

  lemma LeaveKeepsInv(s: State, task: nat)
    requires Inv(s) && At(s, task) && s.steps[task].pc.Leaving?
    ensures Inv(SetSlot(Quit(s, task), s.steps[task].slot, s.slots[s.steps[task].slot].content, None))
  {
    hide HomesOk, LocksOk, CountsOk, PlacesOk, SlotsOk;
    HandleKeepsInv(s, task, None, s.slots[s.steps[task].slot].content);
  }

  lemma ActionKeepsInv(s: State, a: Action)
    requires Inv(s) && Enabled(s, a)
    ensures Inv(Do(s, a))
  {
    hide HomesOk, LocksOk, CountsOk, PlacesOk, SlotsOk;
    match a
    case Tick(later) => TickKeepsInv(s, later);
    case Register(login, slot, executor, entry) => RegisterKeepsInv(s, login, slot, executor, entry);
    case Admit(task, login, principal, abort) => AdmitKeepsInv(s, task, login, principal, abort);
    case Settle(task) => SettleKeepsInv(s, task);
    case FinishHandOff(task, registered) => StepEnds(s, task, registered);
    case FinishEnd(task) => StepEnds(s, task, false);
    case Sweep(which) => TerminateKeepsInv(s, Selected(s.book, which));
    case SweepOwned(login, principal) =>
      if login in s.book.entries {
        TerminateKeepsInv(s, {login});
      }
    case Reclaim(login) => ReclaimKeepsInv(s, login);
    case FinishTerminator(login) => TerminatorEnds(s, login);
    case Check(task) => CheckKeepsInv(s, task);
    case RemoveAborted(task) => RemoveAbortedKeepsInv(s, task);
    case CodeFailed(task) => CodeFailedKeepsInv(s, task);
    case NoteCode(task) => NoteCodeKeepsInv(s, task);
    case Receive(task, reply) => ReceiveKeepsInv(s, task, reply);
    case Lock(task) => LockKeepsInv(s, task);
    case TakeForAbort(task) => TakeKeepsInv(s, task, Dropping(s.slots[s.steps[task].slot].content));
    case TakeOut(task) =>
      var content := s.slots[s.steps[task].slot].content;
      TakeKeepsInv(s, task, if s.steps[task].pc.next.HandOff? then HandingOff(content) else Ending(content));
    case Leave(task) => LeaveKeepsInv(s, task);
  }

  lemma {:induction false} RunKeepsInv(states: seq<State>, actions: seq<Action>, n: nat)
    requires IsRun(states, actions) && n < |states|
    ensures Inv(states[n])
  {
    hide Do, Enabled;
    if n > 0 {
      hide Inv;
      RunKeepsInv(states, actions, n - 1);
      ActionKeepsInv(states[n - 1], actions[n - 1]);
    }
  }

  // The theorems, over every run.

  /** Each executor that was ever launched is in exactly one place, so it has at most one fate. */
  lemma OneFateEach(states: seq<State>, actions: seq<Action>, n: nat)
    requires IsRun(states, actions) && n < |states|
    ensures forall i, j | 0 <= i < j < |states[n].log| :: states[n].log[i].executor != states[n].log[j].executor
    ensures forall e | e in states[n].launched :: exists p :: ExecutorAt(states[n], p) == Some(e)
    ensures forall p, q | ExecutorAt(states[n], p).Some? && ExecutorAt(states[n], p) == ExecutorAt(states[n], q) ::
        p == q
  {
    RunKeepsInv(states, actions, n);
    var s := states[n];
    hide HomesOk, LocksOk, CountsOk, SlotsOk, Steps;
    forall i, j | 0 <= i < j < |s.log| ensures s.log[i].executor != s.log[j].executor {
      assert ExecutorAt(s, InLog(i)) == Some(s.log[i].executor) && ExecutorAt(s, InLog(j)) == Some(s.log[j].executor);
      assert InLog(i) != InLog(j);
    }
  }

  /**
   * A full slot belongs to a login that is in the ledger, or whose terminator still owes a take, or
   * that a step has just removed while it holds the slot; and nobody hands off without an executor.
   */
  lemma NoExecutorStranded(states: seq<State>, actions: seq<Action>, n: nat)
    requires IsRun(states, actions) && n < |states|
    ensures
      var s := states[n];
      && (forall l | l in s.homes ::
            s.homes[l] in s.slots && (s.slots[s.homes[l]].content.Some? ==> OwedOrListed(s, l)))
      && (forall t | t in s.steps && s.steps[t].pc.HandingOff? :: s.steps[t].pc.pending.Some?)
  {
    RunKeepsInv(states, actions, n);
    var s := states[n];
    assert forall l | l in s.homes :: FullIsOwed(s, l);
    assert forall t | t in s.steps :: StepOk(s, s.steps[t]);
  }

  ghost predicate Housed(s: State) {
    forall x | x in s.slots :: exists l :: l in s.homes && s.homes[l] == x
  }

  /** The same slots, each with what it had or emptied. */
  predicate FillsNothing(slots: map<nat, Slot>, slots': map<nat, Slot>) {
    && (forall x | x in slots' :: x in slots)
    && (forall x | x in slots :: x in slots' && (slots'[x].content.None? || slots'[x].content == slots[x].content))
  }

  lemma SetsOwnSlot(s: State, a: Action)
    requires Enabled(s, a) && (a.Lock? || a.TakeForAbort? || a.TakeOut? || a.Leave? || a.Reclaim?)
    ensures Do(s, a).homes == s.homes && FillsNothing(s.slots, Do(s, a).slots)
  {
  }

  /** Only a registration makes a slot, and it fills no other. */
  lemma OnlyRegisterFills(s: State, a: Action)
    requires Enabled(s, a) && !a.Register?
    ensures Do(s, a).homes == s.homes && FillsNothing(s.slots, Do(s, a).slots)
  {
    hide ClaimResult, Checked, Claimed, Released, Noted, RemovedCurrent, Swept, Selected;
    if a.Lock? || a.TakeForAbort? || a.TakeOut? || a.Leave? || a.Reclaim? {
      SetsOwnSlot(s, a);
    }
  }

  lemma ActionKeepsHoused(s: State, a: Action)
    requires Housed(s) && Enabled(s, a)
    ensures Housed(Do(s, a))
  {
    var s' := Do(s, a);
    if a.Register? {
      forall x | x in s'.slots ensures exists l :: l in s'.homes && s'.homes[l] == x {
        if x == a.slot {
          assert s'.homes[a.login] == x;
        } else {
          var l :| l in s.homes && s.homes[l] == x;
          assert s'.homes[l] == x;
        }
      }
    } else {
      OnlyRegisterFills(s, a);
      hide Do, Enabled;
    }
  }

  lemma {:induction false} RunKeepsHoused(states: seq<State>, actions: seq<Action>, n: nat)
    requires IsRun(states, actions) && n < |states|
    ensures Housed(states[n])
  {
    hide Do, Enabled;
    if n > 0 {
      RunKeepsHoused(states, actions, n - 1);
      ActionKeepsHoused(states[n - 1], actions[n - 1]);
    }
  }

  /**
   * With no step and no terminator left, every executor was handed off or stopped, or waits in the
   * slot of a listed login.
   */
  lemma NothingLeaksAtRest(states: seq<State>, actions: seq<Action>, n: nat, executor: nat)
    requires IsRun(states, actions) && n < |states|
    requires states[n].steps == map[] && states[n].terminators == map[] && executor in states[n].launched
    ensures
      var s := states[n];
      || (exists i :: 0 <= i < |s.log| && s.log[i].executor == executor)
      || (exists l :: l in s.book.entries && s.book.entries[l].slot in s.slots &&
            s.slots[s.book.entries[l].slot].content == Some(executor))
  {
    var s := states[n];
    RunKeepsInv(states, actions, n);
    RunKeepsHoused(states, actions, n);
    hide LocksOk, CountsOk, Steps;
    var p :| ExecutorAt(s, p) == Some(executor);
    match p
    case InSlot(slot) =>
      var l :| l in s.homes && s.homes[l] == slot;
      assert FullIsOwed(s, l);
    case WithStep(_) =>
    case WithTerminator(_) =>
    case InLog(i) => assert s.log[i].executor == executor;
  }

  /** No slot is ever filled again. */
  lemma SlotFilledOnce(s: State, a: Action, slot: nat)
    requires Enabled(s, a) && slot in s.slots
    ensures slot in Do(s, a).slots
    ensures s.slots[slot].content.None? ==> Do(s, a).slots[slot].content.None?
    ensures Do(s, a).slots[slot].content.Some? ==> Do(s, a).slots[slot].content == s.slots[slot].content
  {
    if !a.Register? {
      OnlyRegisterFills(s, a);
      hide Do, Enabled;
    }
  }

  lemma {:induction false} SlotEmptiesOnce(states: seq<State>, actions: seq<Action>, i: nat, j: nat, slot: nat)
    requires IsRun(states, actions) && i <= j < |states|
    requires slot in states[i].slots && states[i].slots[slot].content.None?
    ensures slot in states[j].slots && states[j].slots[slot].content.None?
    decreases j
  {
    hide Do, Enabled;
    if i < j {
      SlotEmptiesOnce(states, actions, i, j - 1, slot);
      SlotFilledOnce(states[j - 1], actions[j - 1], slot);
    }
  }

  /** While the executor is in its slot, `in_flight` is exactly the number of admitted, unfinished steps. */
  lemma InFlightIsExact(states: seq<State>, actions: seq<Action>, n: nat, login: string)
    requires IsRun(states, actions) && n < |states| && login in states[n].book.entries
    ensures
      var s, entry := states[n], states[n].book.entries[login];
      && entry.slot in s.slots && |Active(s.steps, login)| <= entry.inFlight
      && (s.slots[entry.slot].content.Some? ==> entry.inFlight == |Active(s.steps, login)|)
  {
    RunKeepsInv(states, actions, n);
    assert CountOk(states[n], login);
  }

  /** While a step of a login is unfinished, that login expires if and only if its absolute limit has passed. */
  lemma IdleExpirySparesRunningSteps(states: seq<State>, actions: seq<Action>, n: nat, task: nat, now: nat)
    requires IsRun(states, actions) && n < |states|
    requires task in states[n].steps && states[n].steps[task].pc.Unfinished() &&
        states[n].steps[task].login in states[n].book.entries
    ensures
      var s := states[n];
      var entry := s.book.entries[s.steps[task].login];
      IsExpired(s.book, entry, now) <==> now >= entry.startedAt + s.book.max
  {
    RunKeepsInv(states, actions, n);
    NeverSaturates(states[n], task);
  }

  predicate Admits(s: State, a: Action, login: string) {
    a.Admit? && a.login == login && ClaimResult(s.book, login, a.principal, s.now).Ready?
  }

  /** How often `login` was admitted in the first `n` actions. */
  function Admissions(states: seq<State>, actions: seq<Action>, login: string, n: nat): nat
    requires Steps(states, actions) && n <= |actions|
  {
    if n == 0 then 0
    else Admissions(states, actions, login, n - 1) + if Admits(states[n - 1], actions[n - 1], login) then 1 else 0
  }

  predicate Tallied(s: State, login: string, admissions: nat) {
    && admissions <= MAX_STEPS && (login !in s.homes ==> admissions == 0)
    && (login in s.book.entries ==> admissions == s.book.entries[login].steps)
  }

  lemma AdmitTallies(s: State, a: Action, login: string, admissions: nat)
    requires HomesOk(s) && a.Admit? && Tallied(s, login, admissions)
    ensures Tallied(Admitted(s, a.task, a.login, a.principal, a.abort), login,
                    admissions + if Admits(s, a, login) then 1 else 0)
  {
  }

  predicate SameSteps(b: Book, b': Book) {
    forall l | l in b'.entries :: l in b.entries && b'.entries[l].steps == b.entries[l].steps
  }

  lemma LedgerKeepsSteps(b: Book, login: string, slot: nat, now: nat)
    ensures SameSteps(b, b) && SameSteps(b, Released(b, login, slot, now)) && SameSteps(b, Noted(b, login, slot))
    ensures SameSteps(b, RemovedCurrent(b, login, slot))
  {
  }

  lemma SweepKeepsSteps(b: Book, logins: set<string>)
    ensures SameSteps(b, Swept(b, logins))
  {
  }

  lemma OnlyAdmitCounts(s: State, a: Action)
    requires Enabled(s, a) && !a.Admit? && !a.Register?
    ensures Do(s, a).homes == s.homes && SameSteps(s.book, Do(s, a).book)
  {
    hide ClaimResult, Checked, Claimed, Released, Noted, RemovedCurrent, Swept, Selected, SameSteps;
    if a.Sweep? {
      SweepKeepsSteps(s.book, Selected(s.book, a.which));
    } else if a.SweepOwned? {
      SweepKeepsSteps(s.book, {a.login});
      LedgerKeepsSteps(s.book, a.login, 0, s.now);
    } else if a.Tick? || a.Reclaim? || a.FinishTerminator? {
      LedgerKeepsSteps(s.book, "", 0, s.now);
    } else {
      LedgerKeepsSteps(s.book, s.steps[a.task].login, s.steps[a.task].slot, s.now);
    }
  }

  lemma ActionTallies(s: State, a: Action, login: string, admissions: nat)
    requires HomesOk(s) && Enabled(s, a) && Tallied(s, login, admissions)
    ensures Tallied(Do(s, a), login, admissions + if Admits(s, a, login) then 1 else 0)
  {
    if a.Admit? {
      AdmitTallies(s, a, login, admissions);
    } else if !a.Register? {
      OnlyAdmitCounts(s, a);
      hide Do, Enabled;
    }
  }

  /** A stepwise login is admitted at most forty times, over any run. */
  lemma {:induction false} AtMostFortyAdmissions(states: seq<State>, actions: seq<Action>, login: string, n: nat)
    requires IsRun(states, actions) && n <= |actions|
    ensures Admissions(states, actions, login, n) <= MAX_STEPS
    ensures Tallied(states[n], login, Admissions(states, actions, login, n))
  {
    hide Do, Enabled, Admits;
    if n > 0 {
      AtMostFortyAdmissions(states, actions, login, n - 1);
      RunKeepsInv(states, actions, n - 1);
      hide LocksOk, SlotsOk, CountsOk, PlacesOk, HomesOk, Tallied;
      ActionTallies(states[n - 1], actions[n - 1], login, Admissions(states, actions, login, n - 1));
    }
  }
}
