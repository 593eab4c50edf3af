/** Which sessions and targets the proxy's tables hold, by the history alone. */
module CdpHistory {
  import opened Options
  import opened CdpProxy
  import opened CdpProtocol

  /** A browser response without an error to a request of the plugin that still waits. */
  predicate Succeeds(s: State, a: Action, command: Method) {
    && a.FromUpstream? && !s.shim.stopping && a.message.Response? && !a.message.failed
    && a.message.id in s.shim.pending && s.shim.pending[a.message.id].command == command
  }

  predicate Attaches(s: State, a: Action, session: string) {
    Succeeds(s, a, AttachToTarget) && a.message.sessionId == session && session != ""
  }

  /** The connection closes, the shim stops, or the browser reports the session gone. */
  predicate Detaches(s: State, a: Action, session: string) {
    || (a.Closed? && s.shim.plugin == Some(a.connection))
    || (a.Stop? && !s.shim.stopping)
    || (&& a.FromUpstream? && !s.shim.stopping && a.message.Event? && a.message.kind.Detached?
        && a.message.session == "" && a.message.sessionId == session && session != "")
  }

  predicate Creates(s: State, a: Action, target: string) {
    Succeeds(s, a, CreateTarget) && a.message.targetId == target && target != ""
  }

  predicate Destroys(s: State, a: Action, target: string) {
    && a.FromUpstream? && !s.shim.stopping && a.message.Event? && a.message.kind.Destroyed?
    && a.message.session == "" && a.message.targetId == target && target != ""
  }

  lemma StepAttaches(s: State, a: Action, session: string)
    ensures session in Do(s, a).shim.attached <==>
              Attaches(s, a, session) || (session in s.shim.attached && !Detaches(s, a, session))
  {
    hide IsAllowed;
  }

  lemma StepCreates(s: State, a: Action, target: string)
    ensures target in Do(s, a).shim.shimTargets <==>
              Creates(s, a, target) || (target in s.shim.shimTargets && !Destroys(s, a, target))
  {
  }

  /** A session is attached exactly when an attach request brought it and nothing since has ended it. */
  lemma {:induction false} AttachedExactly(states: seq<State>, actions: seq<Action>, n: nat, session: string)
    requires IsRun(states, actions) && n < |states|
    ensures session in states[n].shim.attached <==>
              exists k: nat :: k < n && Attaches(states[k], actions[k], session) &&
                forall j :: k < j < n ==> !Detaches(states[j], actions[j], session)
  {
    if n > 0 {
      AttachedExactly(states, actions, n - 1, session);
      StepAttaches(states[n - 1], actions[n - 1], session);
      hide Do, Attaches, Detaches;
    }
  }

  /** A target is the shim's own exactly when one of its requests created it and it was not destroyed since. */
  lemma {:induction false} OwnTargetsExactly(states: seq<State>, actions: seq<Action>, n: nat, target: string)
    requires IsRun(states, actions) && n < |states|
    ensures target in states[n].shim.shimTargets <==>
              exists k: nat :: k < n && Creates(states[k], actions[k], target) &&
                forall j :: k < j < n ==> !Destroys(states[j], actions[j], target)
  {
    if n > 0 {
      OwnTargetsExactly(states, actions, n - 1, target);
      StepCreates(states[n - 1], actions[n - 1], target);
      hide Do, Creates, Destroys;
    }
  }
}
