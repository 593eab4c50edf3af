/** Where the steps, entries and fates of stepwise logins come from, over whole runs. */
module StepwiseHistory {
  import opened Options
  import opened SessionTables
  import opened Ledger
  import opened StepwiseLogin

  // Who may drive a login.

  /** An admission changes the ledger only for the login's own principal, and only that login's entry. */
  lemma OnlyOwnersClaim(s: State, task: nat, login: string, principal: string, abort: bool)
    requires task !in s.steps
    ensures
      var s', e := Do(s, Admit(task, login, principal, abort)), s.book.entries;
      && (s' != s ==> login in e && e[login].key.principal == principal)
      && (forall l | l != login :: l in s'.book.entries <==> l in e)
      && (forall l | l != login && l in e :: s'.book.entries[l] == e[l])
      && (task in s'.steps <==>
            && login in e && e[login].key.principal == principal && e[login].steps < 40
            && s.now < e[login].startedAt + s.book.max
            && (e[login].inFlight > 0 || s.now < e[login].lastActive + s.book.idle))
      && (task in s'.steps ==> s'.steps[task] == Step(login, e[login].slot, Waiting(abort)))
  {
  }

  /** A sweep ends exactly the logins it is for. */
  lemma SweepsEndTheirOwn(s: State, a: Action)
    requires Enabled(s, a) && (a.Sweep? || a.SweepOwned?)
    ensures forall l :: l in Do(s, a).book.entries <==>
      && l in s.book.entries
      && var e := s.book.entries[l];
         if a.SweepOwned? then l != a.login || e.key.principal != a.principal
         else
           match a.which
           case PastDeadline(_) =>
             s.now < e.startedAt + s.book.max && (e.inFlight > 0 || s.now < e.lastActive + s.book.idle)
           case OfPrincipal(principal) => e.key.principal != principal
           case InNamespace(ns) => ns.Some? && ns.value != e.key.ns
    ensures forall l | l in s.book.entries && l !in Do(s, a).book.entries ::
              l in Do(s, a).terminators && Do(s, a).terminators[l] == Owing(s.book.entries[l].slot)
  {
    if a.Sweep? {
      hide SetSlot, Settled, Admitted;
    } else {
      hide SetSlot, Settled, Admitted, Selected;
    }
  }

  /** What identifies a login never changes while it is in the ledger. */
  predicate SameLogin(e: Entry, e': Entry) {
    && e'.key == e.key && e'.exclusive == e.exclusive && e'.persistCookies == e.persistCookies
    && e'.startedAt == e.startedAt && e'.slot == e.slot
  }

  predicate LoginsKept(b: Book, b': Book) {
    forall l | l in b'.entries :: l in b.entries && SameLogin(b.entries[l], b'.entries[l])
  }

  lemma LedgerKeepsLogins(b: Book, login: string, slot: nat, principal: string, now: nat, logins: set<string>)
    ensures LoginsKept(b, b) && LoginsKept(b, Released(b, login, slot, now)) && LoginsKept(b, Noted(b, login, slot))
    ensures LoginsKept(b, RemovedCurrent(b, login, slot)) && LoginsKept(b, Claimed(b, login, principal, now))
    ensures LoginsKept(b, Swept(b, logins))
  {
  }

  lemma StepKeepsLogins(s: State, a: Action)
    requires Enabled(s, a) && !a.Register?
    ensures LoginsKept(s.book, Do(s, a).book)
  {
    hide LoginsKept, Released, Noted, RemovedCurrent, Claimed, Swept, Checked, Selected, ClaimResult;
    if a.Admit? {
      LedgerKeepsLogins(s.book, a.login, 0, a.principal, s.now, {a.login});
    } else if a.Sweep? {
      LedgerKeepsLogins(s.book, "", 0, "", 0, Selected(s.book, a.which));
    } else if a.SweepOwned? {
      LedgerKeepsLogins(s.book, "", 0, "", 0, {a.login});
    } else if a.Tick? || a.Reclaim? || a.FinishTerminator? {
      LedgerKeepsLogins(s.book, "", 0, "", 0, {});
    } else {
      LedgerKeepsLogins(s.book, s.steps[a.task].login, s.steps[a.task].slot, "", s.now, {});
    }
  }

  lemma RegisterEnters(s: State, a: Action, login: string)
    requires Enabled(s, a) && a.Register? && login in Do(s, a).book.entries
    ensures if login == a.login then Do(s, a).book.entries[login] == a.entry
            else login in s.book.entries && Do(s, a).book.entries[login] == s.book.entries[login]
  {
  }

  /** An entry of the ledger is the one that was registered, as far as its identity goes. */
  lemma {:induction false} EntryWasRegistered(states: seq<State>, actions: seq<Action>, n: nat, login: string)
    returns (k: nat)
    requires IsRun(states, actions) && n < |states| && login in states[n].book.entries
    ensures k < n && actions[k].Register? && actions[k].login == login
    ensures
      var e, e' := actions[k].entry, states[n].book.entries[login];
      && e'.key == e.key && e'.exclusive == e.exclusive && e'.persistCookies == e.persistCookies
      && e'.startedAt == e.startedAt && e'.slot == e.slot == actions[k].slot
  {
    hide Do, Enabled;
    var s, a := states[n - 1], actions[n - 1];
    if a.Register? {
      RegisterEnters(s, a, login);
      RegisterNames(s, a);
    } else {
      StepKeepsLogins(s, a);
    }
    if a.Register? && a.login == login {
      k := n - 1;
    } else {
      k := EntryWasRegistered(states, actions, n - 1, login);
    }
  }

  lemma RegisterNames(s: State, a: Action)
    requires Enabled(s, a) && a.Register?
    ensures a.entry.slot == a.slot
  {
  }

  // What a step has been through.

  /** Whether `next` is what the executor's answer calls for. */
  predicate Follows(next: Next, reply: Reply) {
    && (next.HandOff? <==> reply.Done?)
    && (next.Continue? <==> reply.Pending? || reply.SelectorNotFound?)
  }

  /** One action of a step, or of something else. */
  predicate Moved(s: State, a: Action, task: nat, was: Pc, pc: Pc) {
    || pc == was
    || (was.Waiting? && pc == Locked(was.abort))
    || (was.Locked? && (pc.Leaving? || pc == if was.abort then Aborting else Working))
    || (was.Aborting? && pc.Dropping?)
    || (was.Dropping? && pc.Ending?)
    || (was.Working? && (pc.Leaving? || (a.Receive? && a.task == task && pc.Replied? && Follows(pc.next, a.reply))))
    || (was.Replied? && (pc.Leaving? || (pc == Taking(was.next) && !was.next.Continue?)))
    || (was.Taking? && was.next.HandOff? && pc.HandingOff?)
    || (was.Taking? && was.next.End? && pc.Ending?)
  }

  predicate FromTaking(s: State) {
    forall t | t in s.steps && s.steps[t].pc.Taking? :: !s.steps[t].pc.next.Continue?
  }

  lemma StepMoved(s: State, a: Action, task: nat)
    requires Enabled(s, a) && task in Do(s, a).steps && FromTaking(s)
    ensures
      var step := Do(s, a).steps[task];
      if task !in s.steps then
        && a.Admit? && a.task == task && a.login == step.login && step.pc == Waiting(a.abort)
        && step.login in s.book.entries && s.book.entries[step.login].key.principal == a.principal
        && step.slot == s.book.entries[step.login].slot
      else
        && step.login == s.steps[task].login && step.slot == s.steps[task].slot
        && Moved(s, a, task, s.steps[task].pc, step.pc)
  {
    if a.Admit? {
      OnlyOwnersClaim(s, a.task, a.login, a.principal, a.abort);
      if task != a.task {
        AdmitLeavesOthers(s, a, task);
      }
      AdmitIsNew(s, a);
      hide Do, Enabled;
    } else if task !in s.steps || s.steps[task] == Do(s, a).steps[task] {
      StepsOnlyByAdmission(s, a, task);
      hide Do, Enabled;
    } else {
      StepsMoveThemselves(s, a, task);
      hide Released, Noted, RemovedCurrent, Swept, Selected, Claimed, ClaimResult;
    }
  }

  lemma AdmitIsNew(s: State, a: Action)
    requires Enabled(s, a) && a.Admit?
    ensures a.task !in s.steps
  {
  }

  lemma StepsOnlyByAdmission(s: State, a: Action, task: nat)
    requires Enabled(s, a) && !a.Admit? && task in Do(s, a).steps
    ensures task in s.steps
  {
    hide Released, Noted, RemovedCurrent, Swept, Selected, Claimed, ClaimResult, Checked;
  }

  predicate ByStep(a: Action) {
    || a.Lock? || a.Check? || a.TakeForAbort? || a.RemoveAborted? || a.CodeFailed?
    || a.Receive? || a.Settle? || a.TakeOut?
  }

  lemma StepsMoveThemselves(s: State, a: Action, task: nat)
    requires Enabled(s, a) && !a.Admit?
    requires task in s.steps && task in Do(s, a).steps && s.steps[task] != Do(s, a).steps[task]
    ensures ByStep(a) && a.task == task
  {
    hide Released, Noted, RemovedCurrent, Swept, Selected, Claimed, ClaimResult, Checked;
  }

  lemma AdmitLeavesOthers(s: State, a: Action, task: nat)
    requires Enabled(s, a) && a.Admit? && task in Do(s, a).steps && task != a.task
    ensures task in s.steps && Do(s, a).steps[task] == s.steps[task]
  {
    hide Claimed, ClaimResult, Swept;
  }

  lemma {:induction false} NeverTakesToContinue(states: seq<State>, actions: seq<Action>, n: nat)
    requires IsRun(states, actions) && n < |states|
    ensures FromTaking(states[n])
  {
    hide Do, Enabled;
    if n > 0 {
      NeverTakesToContinue(states, actions, n - 1);
      forall t | t in states[n].steps && states[n].steps[t].pc.Taking? ensures !states[n].steps[t].pc.next.Continue? {
        StepMoved(states[n - 1], actions[n - 1], t);
      }
    }
  }

  /** Whether a step that stands at `pc` has had the executor's answer. */
  predicate HasReply(pc: Pc, abort: bool) {
    pc.Replied? || pc.Taking? || pc.HandingOff? || (pc.Ending? && !abort)
  }

  /** What `pc` says about the answer. */
  predicate ReplyFits(pc: Pc, reply: Reply) {
    && (pc.Replied? || pc.Taking? ==> Follows(pc.next, reply))
    && (pc.HandingOff? ==> reply.Done?)
    && (pc.Ending? ==> reply.Aborted? || reply.OtherFailure?)
  }

  lemma MovedKeepsStory(s: State, a: Action, task: nat, was: Pc, pc: Pc, abort: bool)
    requires Moved(s, a, task, was, pc) && AbortFits(was, abort)
    ensures AbortFits(pc, abort)
    ensures HasReply(pc, abort) && !HasReply(was, abort) ==> a.Receive? && a.task == task && ReplyFits(pc, a.reply)
    ensures HasReply(pc, abort) && HasReply(was, abort) ==> forall reply | ReplyFits(was, reply) :: ReplyFits(pc, reply)
  {
  }

  /** An abort is never sent as a step, and a step never aborts. */
  predicate AbortFits(pc: Pc, abort: bool) {
    && (pc.Waiting? || pc.Locked? ==> pc.abort == abort)
    && (pc.Aborting? || pc.Dropping? ==> abort)
    && (pc.Working? || pc.Replied? || pc.Taking? || pc.HandingOff? ==> !abort)
  }

  /**
   * The story of a step, over any run: a principal asked for it while the login was in the ledger under
   * that very principal, and where it stands fits what was asked and what the executor answered. `k` is
   * its admission, `r` the answer if it has one.
   */
  lemma {:induction false} StepStory(states: seq<State>, actions: seq<Action>, n: nat, task: nat)
    returns (k: nat, r: nat)
    requires IsRun(states, actions) && n < |states| && task in states[n].steps
    ensures k < n && actions[k].Admit? && actions[k].task == task && actions[k].login == states[n].steps[task].login
    ensures
      var login := actions[k].login;
      && login in states[k].book.entries && states[k].book.entries[login].key.principal == actions[k].principal
      && states[k].book.entries[login].slot == states[n].steps[task].slot
    ensures AbortFits(states[n].steps[task].pc, actions[k].abort)
    ensures HasReply(states[n].steps[task].pc, actions[k].abort) ==>
              && k < r < n && actions[r].Receive? && actions[r].task == task
              && ReplyFits(states[n].steps[task].pc, actions[r].reply)
  {
    hide Do, Enabled;
    var s, a := states[n - 1], actions[n - 1];
    NeverTakesToContinue(states, actions, n - 1);
    StepMoved(s, a, task);
    if task !in s.steps {
      k, r := n - 1, 0;
    } else {
      k, r := StepStory(states, actions, n - 1, task);
      var was, pc := s.steps[task].pc, states[n].steps[task].pc;
      MovedKeepsStory(s, a, task, was, pc, actions[k].abort);
      if HasReply(pc, actions[k].abort) && !HasReply(was, actions[k].abort) {
        r := n - 1;
      }
    }
  }

  /** Steps belong to the principal that the login was registered for. */
  lemma StepsBelongToOwner(states: seq<State>, actions: seq<Action>, n: nat, task: nat) returns (k: nat, r: nat)
    requires IsRun(states, actions) && n < |states| && task in states[n].steps
    ensures r < k < n && actions[k].Admit? && actions[k].task == task && actions[r].Register?
    ensures actions[k].login == actions[r].login == states[n].steps[task].login
    ensures actions[k].principal == actions[r].entry.key.principal && states[n].steps[task].slot == actions[r].slot
  {
    hide Do, Enabled;
    var answer;
    k, answer := StepStory(states, actions, n, task);
    r := EntryWasRegistered(states, actions, k, actions[k].login);
  }

  // What an answer does to the login.

  lemma SettleMeans(s: State, task: nat, reply: Reply)
    requires task in s.steps && s.steps[task].pc.Replied? && Follows(s.steps[task].pc.next, reply)
    requires s.steps[task].login in s.book.entries ==> s.book.entries[s.steps[task].login].inFlight > 0
    ensures
      var s', Step(login, slot, _) := Settled(s, task), s.steps[task];
      if login !in s.book.entries || s.book.entries[login].slot != slot then
        s'.book == s.book && s'.steps[task].pc == Leaving
      else if reply.Pending? || reply.SelectorNotFound? then
        var e := s.book.entries[login];
        && s'.steps[task].pc == Leaving
        && s'.book.entries == s.book.entries[login := e.(inFlight := e.inFlight - 1, lastActive := s.now)]
      else
        && s'.book.entries == s.book.entries - {login}
        && s'.steps[task].pc == Taking(if reply.Done? then HandOff else End)
  {
  }

  /** A login goes on after an answer exactly when the answer lets it; otherwise it leaves the ledger. */
  lemma AnswerDecides(states: seq<State>, actions: seq<Action>, n: nat) returns (r: nat)
    requires IsRun(states, actions) && n < |actions| && actions[n].Settle?
    ensures r < n && actions[r].Receive? && actions[r].task == actions[n].task && actions[n].task in states[n].steps
    ensures
      var s, s', task, reply := states[n], states[n + 1], actions[n].task, actions[r].reply;
      var Step(login, slot, _) := s.steps[task];
      && task in s'.steps
      && if login !in s.book.entries || s.book.entries[login].slot != slot then
           s'.book == s.book && s'.steps[task].pc == Leaving
         else if reply.Pending? || reply.SelectorNotFound? then
           var e := s.book.entries[login];
           && s'.steps[task].pc == Leaving && e.inFlight > 0
           && s'.book.entries == s.book.entries[login := e.(inFlight := e.inFlight - 1, lastActive := s.now)]
         else
           && s'.book.entries == s.book.entries - {login}
           && s'.steps[task].pc == Taking(if reply.Done? then HandOff else End)
  {
    hide Do, Enabled, Settled, HomesOk, LocksOk, SlotsOk, CountsOk, PlacesOk;
    var s, task := states[n], actions[n].task;
    RunKeepsInv(states, actions, n);
    SettleEnabled(s, task, actions[n]);
    var k;
    k, r := StepStory(states, actions, n, task);
    if s.steps[task].login in s.book.entries {
      NeverSaturates(s, task);
    }
    SettleMeans(s, task, actions[r].reply);
  }

  lemma SettleEnabled(s: State, task: nat, a: Action)
    requires Enabled(s, a) && a == Settle(task)
    ensures task in s.steps && s.steps[task].pc.Replied? && Do(s, a) == Settled(s, task) && task in Do(s, a).steps
  {
  }

  // Fates.

  lemma LogGrows(s: State, a: Action)
    requires Enabled(s, a)
    ensures s.log <= Do(s, a).log && |Do(s, a).log| <= |s.log| + 1
    ensures |Do(s, a).log| > |s.log| ==>
      var fate := Do(s, a).log[|s.log|];
      && (fate.HandedOff? <==> a.FinishHandOff? && a.registered)
      && (a.FinishHandOff? || a.FinishEnd? || a.FinishTerminator?)
      && (a.FinishHandOff? ==> a.task in s.steps && s.steps[a.task].pc == StepwiseLogin.HandingOff(Some(fate.executor)))
  {
    hide Released, Noted, RemovedCurrent, Swept, Selected, Claimed, ClaimResult, Checked;
  }

  /**
   * An executor is handed off exactly by a registration that succeeded, and that came after the executor
   * itself answered that the login is done.
   */
  lemma {:induction false} HandOffsAreDone(states: seq<State>, actions: seq<Action>, n: nat, i: nat)
    returns (k: nat, r: nat)
    requires IsRun(states, actions) && n < |states| && i < |states[n].log|
    ensures k < n && |states[k].log| == i && |states[k + 1].log| == i + 1 && states[k + 1].log[i] == states[n].log[i]
    ensures states[n].log[i].HandedOff? <==> actions[k].FinishHandOff? && actions[k].registered
    ensures states[n].log[i].HandedOff? ==> r < k && actions[r] == Receive(actions[k].task, Done)
  {
    hide Do, Enabled;
    LogGrows(states[n - 1], actions[n - 1]);
    if i < |states[n - 1].log| {
      k, r := HandOffsAreDone(states, actions, n - 1, i);
    } else {
      k, r := n - 1, 0;
      if actions[k].FinishHandOff? {
        var admitted;
        admitted, r := StepStory(states, actions, k, actions[k].task);
      }
    }
  }
}
