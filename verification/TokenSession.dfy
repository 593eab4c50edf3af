/** The life of the tokens behind one injection proxy: scheduled refreshes, and a close that revokes. */
module TokenSession {
  import opened Options

  const REFRESH_MARGIN_CAP := 60000.0

  /** The longest delay that Node's timers keep; a longer one becomes a single millisecond. */
  const MAX_TIMEOUT := 2147483647.0

  datatype TokenSet = TokenSet(accessToken: string, refreshToken: Option<string>, expiresIn: Option<real>)

  datatype Event = Refreshed | RefreshFailed | Revoked

  /** How far `close` has come. */
  datatype Phase = Open | Draining | Revoking | Closed

  /** How a refresh request ends: new tokens (and whether they fit the injected header), or an error. */
  datatype RefreshResult = NewTokens(tokens: TokenSet, headerFits: bool) | Error

  function Max(x: real, y: real): real {
    if x >= y then x else y
  }

  /** From issuance to refresh: what then remains is the smaller of a minute and half the lifetime. */
  function RefreshDelay(expiresIn: real): (delay: real)
    ensures expiresIn > 0.0 ==> expiresIn * 500.0 <= delay < expiresIn * 1000.0 <= delay + 60000.0
    ensures expiresIn > 0.0 ==> delay == expiresIn * 500.0 || delay == expiresIn * 1000.0 - 60000.0
    ensures expiresIn <= 0.0 ==> delay == 0.0
  {
    var lifetime := expiresIn * 1000.0;
    Max(0.0, lifetime - if REFRESH_MARGIN_CAP <= lifetime / 2.0 then REFRESH_MARGIN_CAP else lifetime / 2.0)
  }

  /** What `setTimeout` makes of a delay. */
  function NodeDelay(ms: real): real {
    if 1.0 <= ms <= MAX_TIMEOUT then ms else 1.0
  }

  datatype Timer = Timer(armedAt: real, due: real)

  /**
   * `issuedAt` is when the tokens held were issued; `running` counts refreshes in progress, and
   * `aborted` says that `close` interrupted them. `obtained` and `posted` remember every token set
   * received and every token sent to the revocation endpoint.
   */
  datatype Session = Session(
    hasEndpoint: bool, tokens: TokenSet, issuedAt: real, timer: Option<Timer>, running: nat, aborted: bool,
    phase: Phase, events: seq<Event>, available: bool, obtained: seq<TokenSet>, posted: seq<string>)

  datatype Action =
    | TimerFires(now: real)
    | RefreshEnds(result: RefreshResult, now: real)
    | Close
    | Drained
    | RevokeEnds(succeeded: bool)

  /** When the tokens held ought to be refreshed. */
  function RefreshTime(s: Session): real
    requires s.tokens.expiresIn.Some?
  {
    s.issuedAt + RefreshDelay(s.tokens.expiresIn.value)
  }

  function Armed(s: Session, now: real): Session {
    if s.tokens.expiresIn.None? || !s.phase.Open? then s
    else s.(timer := Some(Timer(now, now + NodeDelay(Max(0.0, RefreshTime(s) - now)))))
  }

  function Initial(hasEndpoint: bool, tokens: TokenSet, issuedAt: real, now: real): Session {
    Armed(Session(hasEndpoint, tokens, issuedAt, None, 0, false, Open, [], true, [tokens], []), now)
  }

  /** A response without a refresh token keeps the one that was used (section 6 of RFC 6749). */
  function Merged(current: TokenSet, issued: TokenSet): TokenSet {
    issued.(refreshToken := if issued.refreshToken.Some? then issued.refreshToken else current.refreshToken)
  }

  function Targets(tokens: TokenSet): seq<string> {
    [tokens.accessToken] + if tokens.refreshToken.Some? then [tokens.refreshToken.value] else []
  }

  predicate Enabled(s: Session, a: Action) {
    match a
    case TimerFires(now) => s.timer.Some? && now >= s.timer.value.due
    case RefreshEnds(result, _) => s.running > 0 && (result.NewTokens? ==> s.tokens.refreshToken.Some?)
    case Close => true
    case Drained => s.phase.Draining? && s.running == 0
    case RevokeEnds(succeeded) => s.phase.Revoking? && (succeeded ==> s.hasEndpoint)
  }

  function Failed(s: Session): Session {
    if s.aborted then s else s.(available := false, events := s.events + [RefreshFailed])
  }

  function Ended(s: Session, result: RefreshResult, now: real): Session
    requires s.running > 0
  {
    var done := s.(running := s.running - 1);
    if result.Error? then Failed(done)
    else
      var tokens := Merged(s.tokens, result.tokens);
      var held := done.(tokens := tokens, issuedAt := now, obtained := s.obtained + [tokens]);
      if result.headerFits then Armed(held.(events := s.events + [Refreshed]), now) else Failed(held)
  }

  function Do(s: Session, a: Action): Session
    requires Enabled(s, a)
  {
    match a
    case TimerFires(_) => s.(timer := None, running := s.running + 1)
    case RefreshEnds(result, now) => Ended(s, result, now)
    case Close => if s.phase.Open? then s.(timer := None, aborted := s.running > 0, phase := Draining) else s
    case Drained => s.(phase := Revoking, posted := if s.hasEndpoint then s.posted + Targets(s.tokens) else s.posted)
    case RevokeEnds(succeeded) => s.(phase := Closed, events := if succeeded then s.events + [Revoked] else s.events)
  }

  /** The session object. Each method is one stretch of code between two awaits. */
  class OAuthProxySession {
    const hasEndpoint: bool
    var tokens: TokenSet
    ghost var heldSince: real
    var timer: Option<Timer>
    var running: nat
    var aborted: bool
    var phase: Phase
    var events: seq<Event>
    var available: bool
    ghost var obtained: seq<TokenSet>
    ghost var posted: seq<string>

    ghost function View(): Session
      reads this
    {
      Session(hasEndpoint, tokens, heldSince, timer, running, aborted, phase, events, available, obtained, posted)
    }

    constructor (hasEndpoint: bool, tokens: TokenSet, issuedAt: real, now: real)
      ensures View() == Initial(hasEndpoint, tokens, issuedAt, now)
    {
      this.hasEndpoint := hasEndpoint;
      this.tokens := tokens;
      heldSince := issuedAt;
      timer, running, aborted, phase := None, 0, false, Open;
      events, available := [], true;
      obtained, posted := [tokens], [];
      new;
      Schedule(issuedAt, now);
    }

    method Schedule(issuedAt: real, now: real)
      modifies this`timer, this`heldSince
      ensures View() == Armed(old(View()).(issuedAt := issuedAt), now)
      ensures tokens.expiresIn.Some? && phase.Open? ==>
        var delay := issuedAt + RefreshDelay(tokens.expiresIn.value) - now;
        timer == Some(Timer(now, now + if 1.0 <= delay <= 2147483647.0 then delay else 1.0))
      ensures tokens.expiresIn.None? || !phase.Open? ==> timer == old(timer)
    {
      heldSince := issuedAt;
      if tokens.expiresIn.Some? && phase.Open? {
        var delay := Max(0.0, issuedAt + RefreshDelay(tokens.expiresIn.value) - now);
        timer := Some(Timer(now, now + NodeDelay(delay)));
      }
    }

    method StartRefresh(now: real)
      requires Enabled(View(), TimerFires(now))
      modifies this
      ensures View() == Do(old(View()), TimerFires(now))
      ensures timer == None && running == old(running) + 1 && tokens == old(tokens) && events == old(events)
    {
      timer := None;
      running := running + 1;
    }

    method MarkFailed()
      modifies this`available, this`events
      ensures View() == Failed(old(View()))
      ensures if aborted then available == old(available) && events == old(events)
              else !available && events == old(events) + [RefreshFailed]
    {
      if !aborted {
        available := false;
        events := events + [RefreshFailed];
      }
    }

    method FinishRefresh(result: RefreshResult, now: real)
      requires Enabled(View(), RefreshEnds(result, now))
      modifies this
      ensures View() == Do(old(View()), RefreshEnds(result, now))
      ensures running == old(running) - 1
      ensures result.Error? ==> tokens == old(tokens) && obtained == old(obtained) && timer == old(timer)
      ensures result.NewTokens? ==>
        && tokens.accessToken == result.tokens.accessToken && tokens.expiresIn == result.tokens.expiresIn
        && (result.tokens.refreshToken.Some? ==> tokens.refreshToken == result.tokens.refreshToken)
        && (result.tokens.refreshToken.None? ==> tokens.refreshToken == old(tokens).refreshToken)
        && obtained == old(obtained) + [tokens]
      ensures result.NewTokens? && result.headerFits ==>
                events == old(events) + [Refreshed] && available == old(available)
      ensures result.Error? || !result.headerFits ==>
        if aborted then events == old(events) && available == old(available)
        else events == old(events) + [RefreshFailed] && !available
    {
      running := running - 1;
      if result.Error? {
        MarkFailed();
        return;
      }
      var issued := result.tokens;
      var refreshToken := if issued.refreshToken.Some? then issued.refreshToken else tokens.refreshToken;
      tokens := TokenSet(issued.accessToken, refreshToken, issued.expiresIn);
      heldSince := now;
      obtained := obtained + [tokens];
      if !result.headerFits {
        MarkFailed();
        return;
      }
      events := events + [Refreshed];
      Schedule(now, now);
    }

    method BeginClose()
      modifies this
      ensures View() == Do(old(View()), Close)
      ensures old(phase).Open? ==> phase == Draining && timer == None && aborted == (running > 0)
      ensures !old(phase).Open? ==> phase == old(phase) && timer == old(timer) && aborted == old(aborted)
      ensures tokens == old(tokens) && running == old(running) && events == old(events)
    {
      if phase.Open? {
        timer := None;
        aborted := running > 0;
        phase := Draining;
      }
    }

    method StartRevoke() returns (targets: seq<string>)
      requires Enabled(View(), Drained)
      modifies this
      ensures View() == Do(old(View()), Drained)
      ensures hasEndpoint ==>
                tokens.accessToken in targets && (tokens.refreshToken.Some? ==> tokens.refreshToken.value in targets)
      ensures forall t | t in targets :: hasEndpoint && (t == tokens.accessToken || Some(t) == tokens.refreshToken)
      ensures |targets| == if !hasEndpoint then 0 else if tokens.refreshToken.Some? then 2 else 1
      ensures posted == old(posted) + targets && phase == Revoking && events == old(events) && tokens == old(tokens)
    {
      phase := Revoking;
      targets := [];
      if hasEndpoint {
        targets := [tokens.accessToken];
        if tokens.refreshToken.Some? {
          targets := targets + [tokens.refreshToken.value];
        }
        posted := posted + targets;
      }
    }

    method FinishClose(succeeded: bool)
      requires Enabled(View(), RevokeEnds(succeeded))
      modifies this
      ensures View() == Do(old(View()), RevokeEnds(succeeded))
      ensures phase == Closed && events == old(events) + if succeeded then [Revoked] else []
    {
      if succeeded {
        events := events + [Revoked];
      }
      phase := Closed;
    }
  }

  predicate IsRun(states: seq<Session>, actions: seq<Action>) {
    && |states| == |actions| + 1
    && forall i :: 0 <= i < |actions| ==> Enabled(states[i], actions[i]) && states[i + 1] == Do(states[i], actions[i])
  }

  ghost predicate Starts(states: seq<Session>) {
    states != [] && exists hasEndpoint, tokens, issuedAt, now ::
        states[0] == Initial(hasEndpoint, tokens, issuedAt, now)
  }

  function Newest(s: Session): TokenSet
    requires s.obtained != []
  {
    s.obtained[|s.obtained| - 1]
  }

  /** The timer keeps to the refresh time if and only if Node can wait that long, and is due after 1 ms otherwise. */
  predicate DueExactly(s: Session, t: Timer)
    requires s.tokens.expiresIn.Some?
  {
    && (t.due >= RefreshTime(s) <==> RefreshTime(s) - t.armedAt <= MAX_TIMEOUT)
    && (t.due < RefreshTime(s) ==> t.due == t.armedAt + 1.0)
  }

  lemma ArmedDueExactly(s: Session, now: real)
    requires s.tokens.expiresIn.Some? && s.phase.Open?
    ensures Armed(s, now).timer.Some? && DueExactly(s, Armed(s, now).timer.value)
  {
  }

  predicate Inv(s: Session) {
    && s.obtained != [] && s.tokens == Newest(s)
    && s.running <= 1
    && (s.timer.Some? ==> s.phase.Open? && s.running == 0 && RefreshFailed !in s.events)
    && (s.timer.Some? ==> s.tokens.expiresIn.Some? && DueExactly(s, s.timer.value))
    && (s.phase.Open? && s.running > 0 ==> RefreshFailed !in s.events)
    && (s.aborted ==> !s.phase.Open?) && (!s.phase.Open? && s.running > 0 ==> s.aborted)
    && (s.phase.Revoking? || s.phase.Closed? ==>
          s.running == 0 && s.posted == if s.hasEndpoint then Targets(Newest(s)) else [])
    && (s.phase.Open? || s.phase.Draining? ==> s.posted == [])
    && (Revoked in s.events ==> s.phase.Closed? && s.hasEndpoint)
    && (forall i :: 0 <= i < |s.events| - 1 ==> s.events[i] != Revoked)
  }

  lemma ArmedKeepsInv(s: Session, now: real)
    requires Inv(s) && s.running == 0 && (s.phase.Open? ==> RefreshFailed !in s.events)
    ensures Inv(Armed(s, now))
  {
    if s.tokens.expiresIn.Some? && s.phase.Open? {
      ArmedDueExactly(s, now);
      assert DueExactly(Armed(s, now), Armed(s, now).timer.value);
    }
    hide DueExactly, RefreshTime, NodeDelay, Max, Targets;
  }

  /** New tokens in hand, before the timer is armed again. */
  function Held(s: Session, tokens: TokenSet, now: real, events: seq<Event>): Session {
    s.(running := 0, tokens := tokens, issuedAt := now, obtained := s.obtained + [tokens], events := events)
  }

  lemma HeldKeepsInv(s: Session, tokens: TokenSet, now: real, events: seq<Event>)
    requires Inv(s) && s.running > 0 && (events == s.events || events == s.events + [Refreshed])
    ensures Inv(Held(s, tokens, now, events)) && (s.phase.Open? ==> RefreshFailed !in events)
  {
    hide DueExactly, Targets;
  }

  lemma FailedKeepsInv(s: Session)
    requires Inv(s) && s.running == 0 && s.timer.None? && !s.phase.Revoking? && !s.phase.Closed?
    ensures Inv(Failed(s))
  {
    hide DueExactly, Targets;
  }

  lemma EndedKeepsInv(s: Session, result: RefreshResult, now: real)
    requires Inv(s) && s.running > 0
    ensures Inv(Ended(s, result, now))
  {
    assert s.running == 1 && s.timer.None? && !s.phase.Revoking? && !s.phase.Closed?;
    if result.Error? {
      assert Inv(s.(running := 0)) by { hide DueExactly, Targets; }
      hide Inv;
      FailedKeepsInv(s.(running := 0));
    } else {
      var tokens := Merged(s.tokens, result.tokens);
      var events := if result.headerFits then s.events + [Refreshed] else s.events;
      HeldKeepsInv(s, tokens, now, events);
      hide Inv, Armed, Failed;
      var held := Held(s, tokens, now, events);
      if result.headerFits {
        ArmedKeepsInv(held, now);
      } else {
        FailedKeepsInv(held);
      }
    }
  }

  lemma ActionKeepsInv(s: Session, a: Action)
    requires Inv(s) && Enabled(s, a)
    ensures Inv(Do(s, a))
  {
    if a.RefreshEnds? {
      hide Inv, Ended;
      EndedKeepsInv(s, a.result, a.now);
    }
  }

  lemma {:induction false} RunKeepsInv(states: seq<Session>, actions: seq<Action>, n: nat)
    requires IsRun(states, actions) && Starts(states) && n < |states|
    ensures Inv(states[n])
  {
    if n > 0 {
      hide Do, Enabled, Inv;
      RunKeepsInv(states, actions, n - 1);
      ActionKeepsInv(states[n - 1], actions[n - 1]);
    }
  }

  /**
   * One refresh at a time; none starts once `close` has begun or a refresh has failed, nor before its
   * timer is due. The timer is due no earlier than the refresh time if and only if that was at most
   * 2147483647 ms away when it was armed.
   */
  lemma RefreshesAreOrderly(states: seq<Session>, actions: seq<Action>, n: nat)
    requires IsRun(states, actions) && Starts(states) && n < |states|
    ensures states[n].running <= 1
    ensures n < |actions| && actions[n].TimerFires? ==>
      var s := states[n];
      && s.running == 0 && s.phase.Open? && RefreshFailed !in s.events
      && s.timer.Some? && s.tokens.expiresIn.Some? && actions[n].now >= s.timer.value.due
      && (s.timer.value.due >= RefreshTime(s) <==> RefreshTime(s) - s.timer.value.armedAt <= MAX_TIMEOUT)
  {
    RunKeepsInv(states, actions, n);
  }

  /** Tokens armed as they are issued keep to their refresh time iff they live for at most 2147543647 ms (24.8 days). */
  lemma DelayFits(expiresIn: real)
    requires expiresIn > 0.0
    ensures RefreshDelay(expiresIn) <= MAX_TIMEOUT <==> expiresIn * 1000.0 <= MAX_TIMEOUT + REFRESH_MARGIN_CAP
  {
  }

  /** Longer-lived tokens are refreshed a millisecond after they are issued, long before the refresh time … */
  lemma LongLivedTokensRefreshAtOnce(hasEndpoint: bool, tokens: TokenSet, issuedAt: real)
    requires tokens.expiresIn.Some? && tokens.expiresIn.value * 1000.0 > MAX_TIMEOUT + REFRESH_MARGIN_CAP
    ensures
      var s := Initial(hasEndpoint, tokens, issuedAt, issuedAt);
      Enabled(s, TimerFires(issuedAt + 1.0)) && issuedAt + 1.0 < RefreshTime(s)
  {
    DelayFits(tokens.expiresIn.value);
  }

  /** … and again a millisecond after every such refresh. */
  lemma LongLivedTokensRefreshAgain(s: Session, issued: TokenSet, now: real)
    requires s.running > 0 && s.phase.Open?
    requires issued.expiresIn.Some? && issued.expiresIn.value * 1000.0 > MAX_TIMEOUT + REFRESH_MARGIN_CAP
    ensures
      var s' := Ended(s, NewTokens(issued, true), now);
      Enabled(s', TimerFires(now + 1.0)) && now + 1.0 < RefreshTime(s')
  {
    DelayFits(issued.expiresIn.value);
  }

  /** Tokens of thirty days, as an input. */
  lemma ThirtyDayTokens(hasEndpoint: bool, accessToken: string, refreshToken: Option<string>, issuedAt: real)
    ensures
      var s := Initial(hasEndpoint, TokenSet(accessToken, refreshToken, Some(2592000.0)), issuedAt, issuedAt);
      && RefreshTime(s) == issuedAt + 2591940000.0
      && Enabled(s, TimerFires(issuedAt + 1.0))
  {
    LongLivedTokensRefreshAtOnce(hasEndpoint, TokenSet(accessToken, refreshToken, Some(2592000.0)), issuedAt);
  }

  /** Nothing is forgotten: neither an event, nor that `close` began, nor that a refresh token is held. */
  predicate Follows(s: Session, s': Session) {
    && s.events <= s'.events && s.obtained <= s'.obtained
    && (!s.phase.Open? ==> !s'.phase.Open?)
    && (s.tokens.refreshToken.Some? ==> s'.tokens.refreshToken.Some?)
  }

  lemma ActionFollows(s: Session, a: Action)
    requires Enabled(s, a)
    ensures Follows(s, Do(s, a))
  {
    if a.RefreshEnds? {
      hide Ended, Follows;
      EndedFollows(s, a.result, a.now);
    }
    hide Targets, Ended;
  }

  lemma EndedFollows(s: Session, result: RefreshResult, now: real)
    requires s.running > 0
    ensures Follows(s, Ended(s, result, now))
  {
    hide RefreshTime, NodeDelay, Max;
  }

  lemma FollowsItself(s: Session)
    ensures Follows(s, s)
  {
  }

  lemma FollowsTransitive(r: Session, s: Session, t: Session)
    requires Follows(r, s) && Follows(s, t)
    ensures Follows(r, t)
  {
  }

  /** Once a refresh token is held, one is always held; and so for events and for `close`. */
  lemma {:induction false} RunFollows(states: seq<Session>, actions: seq<Action>, i: nat, j: nat)
    requires IsRun(states, actions) && i <= j < |states|
    ensures Follows(states[i], states[j])
    decreases j
  {
    hide Do, Enabled, Follows;
    if i < j {
      RunFollows(states, actions, i, j - 1);
      ActionFollows(states[j - 1], actions[j - 1]);
      FollowsTransitive(states[i], states[j - 1], states[j]);
    } else {
      FollowsItself(states[i]);
    }
  }

  /** No timer fires at or after a `close`, nor after a refresh that failed. */
  lemma NoRefreshAfterCloseOrFailure(states: seq<Session>, actions: seq<Action>, i: nat, j: nat)
    requires IsRun(states, actions) && Starts(states) && i < j < |actions|
    requires actions[i].Close? || RefreshFailed in states[i].events
    ensures !actions[j].TimerFires?
  {
    RefreshesAreOrderly(states, actions, j);
    RunFollows(states, actions, i + 1, j);
    RunFollows(states, actions, i, j);
  }

  /**
   * What `close` revokes is the newest token set the session ever obtained, even one that a refresh
   * brought while closing.
   */
  lemma CloseRevokesNewest(states: seq<Session>, actions: seq<Action>, i: nat, j: nat)
    requires IsRun(states, actions) && Starts(states) && i < |actions| && actions[i] == Drained && i < j < |states|
    ensures states[j].obtained == states[i].obtained && states[j].obtained != []
    ensures
      var newest, posted := states[j].obtained[|states[j].obtained| - 1], states[j].posted;
      if !states[j].hasEndpoint then posted == []
      else
        && newest.accessToken in posted && (newest.refreshToken.Some? ==> newest.refreshToken.value in posted)
        && (forall t | t in posted :: t == newest.accessToken || Some(t) == newest.refreshToken)
  {
    RunKeepsInv(states, actions, j);
    DrainedForGood(states, actions, i, j);
    TargetsExactly(Newest(states[j]));
  }

  /** What is sent for revocation: the access token, and the refresh token if there is one. */
  lemma TargetsExactly(tokens: TokenSet)
    ensures forall t :: t in Targets(tokens) <==> t == tokens.accessToken || Some(t) == tokens.refreshToken
  {
  }

  predicate PastRefreshing(s: Session) {
    (s.phase.Revoking? || s.phase.Closed?) && s.running == 0 && s.timer.None?
  }

  lemma ActionPastRefreshing(s: Session, a: Action)
    requires PastRefreshing(s) && Enabled(s, a)
    ensures PastRefreshing(Do(s, a)) && Do(s, a).obtained == s.obtained
  {
  }

  lemma {:induction false} DrainedForGood(states: seq<Session>, actions: seq<Action>, i: nat, j: nat)
    requires IsRun(states, actions) && Starts(states) && i < |actions| && actions[i] == Drained && i < j < |states|
    ensures PastRefreshing(states[j]) && states[j].obtained == states[i].obtained
    decreases j
  {
    if i + 1 < j {
      hide Do, Enabled, PastRefreshing;
      DrainedForGood(states, actions, i, j - 1);
      ActionPastRefreshing(states[j - 1], actions[j - 1]);
    } else {
      RunKeepsInv(states, actions, i);
    }
  }

  /**
   * `revoked` is the last event of the run, reported at most once, and only after every token held
   * was sent for revocation.
   */
  lemma RevokedIsLast(states: seq<Session>, actions: seq<Action>, i: nat, j: nat)
    requires IsRun(states, actions) && Starts(states) && i <= j < |states| && Revoked in states[i].events
    ensures states[i].obtained != []
    ensures states[j].events == states[i].events && states[i].events[|states[i].events| - 1] == Revoked
    ensures forall k :: 0 <= k < |states[i].events| - 1 ==> states[i].events[k] != Revoked
    ensures
      var newest, posted := states[i].obtained[|states[i].obtained| - 1], states[i].posted;
      && newest.accessToken in posted && (newest.refreshToken.Some? ==> newest.refreshToken.value in posted)
      && (forall t | t in posted :: t == newest.accessToken || Some(t) == newest.refreshToken)
  {
    hide Inv, Follows, Starts;
    RunKeepsInv(states, actions, i);
    RunKeepsInv(states, actions, j);
    RunFollows(states, actions, i, j);
    hide IsRun;
    NothingAfterRevoked(states[i], states[j]);
    TargetsExactly(states[i].tokens);
  }

  lemma NothingAfterRevoked(s: Session, s': Session)
    requires Inv(s) && Inv(s') && Follows(s, s') && Revoked in s.events
    ensures s'.events == s.events && s.events[|s.events| - 1] == Revoked
    ensures forall k :: 0 <= k < |s.events| - 1 ==> s.events[k] != Revoked
    ensures s.posted == Targets(s.tokens) && s.obtained != [] && s.tokens == s.obtained[|s.obtained| - 1]
  {
    hide Targets;
    var last := |s.events| - 1;
    assert s'.events[last] == s.events[last] == Revoked;
  }

  /** A refresh brings exactly what the provider issued, with the old refresh token where none was issued. */
  lemma RefreshBringsIssued(states: seq<Session>, actions: seq<Action>, n: nat)
    requires IsRun(states, actions) && Starts(states) && n < |actions| && actions[n].RefreshEnds?
    ensures
      var s, s', result := states[n], states[n + 1], actions[n].result;
      && (result.Error? ==> s'.obtained == s.obtained && s'.tokens == s.tokens)
      && (result.NewTokens? ==>
            && s'.tokens.accessToken == result.tokens.accessToken && s'.tokens.expiresIn == result.tokens.expiresIn
            && s'.tokens.refreshToken ==
                 (if result.tokens.refreshToken.None? then s.tokens.refreshToken else result.tokens.refreshToken)
            && s'.obtained == s.obtained + [s'.tokens])
      && (result.NewTokens? && result.headerFits ==> s'.events == s.events + [Refreshed])
      && (!(result.NewTokens? && result.headerFits) ==>
            s'.events == if s.phase.Open? then s.events + [RefreshFailed] else s.events)
  {
    RunKeepsInv(states, actions, n);
    hide DueExactly, Targets, NodeDelay, RefreshTime, Max;
  }
}
