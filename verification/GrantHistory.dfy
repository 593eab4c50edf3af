/** What revocations and requests come to over whole runs of the grants. */
module GrantHistory {
  import opened Options
  import opened Grants
  import opened GrantProtocol

  /** Which grants a revocation covers: all for none given, otherwise those whose id starts with the namespace. */
  lemma CoversExactly(credId: string, ns: string)
    ensures Covers(None, credId)
    ensures Covers(Some(ns), credId) <==> |credId| > |ns| && credId[..|ns|] == ns && credId[|ns|] == ':'
  {
    if |credId| > |ns| && credId[..|ns|] == ns && credId[|ns|] == ':' {
      assert ns + ":" == credId[..|ns| + 1];
    }
    if ns + ":" <= credId {
      assert (ns + ":")[|ns|] == ':' && credId[..|ns|] == (ns + ":")[..|ns|];
    }
  }

  /** A lock of everything ends every grant: after it, reuse says yes for a pair only if a grant was recorded since. */
  lemma LockOfAllEndsGrants(states: seq<State>, actions: seq<Action>, ttl: nat, m: nat, n: nat, pair: Pair)
    requires IsRun(states, actions, ttl) && ttl > 0 && m < n < |states| && actions[m] == Lock(None)
    requires forall k :: |states[m + 1].log| <= k < |states[n].log| ==>
               !(states[n].log[k].Issued? && states[n].log[k].pair == pair)
    ensures !Reuse(states[n].grants, pair, states[n].now).1
  {
    ReuseRefinesHistory(states, actions, ttl, n, pair);
    LogKept(states, actions, ttl, m + 1, n);
    var log := states[n].log;
    var j := |states[m].log|;
    assert states[m + 1] == Do(states[m], actions[m]);
    assert states[m + 1].log[j] == Revoked(None);
    assert log[j] == Revoked(None);
    forall k: nat ensures !Standing(log, k, pair) {
      CoversExactly(pair.1, "");
      assert k > j ==> k >= |states[m + 1].log|;
    }
  }

  lemma {:induction false} LogKept(states: seq<State>, actions: seq<Action>, ttl: nat, i: nat, j: nat)
    requires IsRun(states, actions, ttl) && i <= j < |states|
    ensures states[i].log <= states[j].log
    decreases j
  {
    if i < j {
      LogKept(states, actions, ttl, i, j - 1);
      assert states[j] == Do(states[j - 1], actions[j - 1]);
    }
  }

  /** A request passes at once exactly when a grant can be reused, and waits for the operator otherwise. */
  lemma AskPassesExactly(states: seq<State>, actions: seq<Action>, ttl: nat, n: nat)
    requires IsRun(states, actions, ttl) && ttl > 0 && n < |actions| && actions[n].Ask?
    ensures Reusable(states[n], actions[n].pair) <==> actions[n].w !in states[n + 1].waiters
    ensures actions[n].w in states[n + 1].waiters ==>
      states[n + 1].waiters[actions[n].w] == Waiter(actions[n].pair, states[n].grants.generation, |states[n].log|)
  {
    ReuseRefinesHistory(states, actions, ttl, n, actions[n].pair);
    assert states[n + 1] == Do(states[n], actions[n]);
  }
}
