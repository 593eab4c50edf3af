/** The proxy between one plugin connection at a time and the browser, with its request ids and target tables. */
module CdpProxy {
  import opened Options

  /** JavaScript numbers count exactly up to here; adding one changes nothing beyond. */
  const EXACT_LIMIT: nat := 9007199254740992

  datatype ClientId = Number(value: real) | Text(text: string)

  datatype Method =
    | CreateTarget | CloseTarget | AttachToTarget | GetTargetInfo | SetDiscoverTargets
    | InSession(name: string)
    | Unknown

  /** A message from the plugin. Fields that are missing or of the wrong type are `None`; a missing target is "". */
  datatype PluginMessage =
    | Malformed
    | Message(id: Option<ClientId>, command: Option<Method>, sessionId: Option<string>, targetId: string)

  datatype TargetInfo = TargetInfo(targetId: string, contextId: string)

  datatype EventMethod = Created | InfoChanged | Destroyed | Crashed | Attached | Detached | OtherEvent

  /** A message from the browser. Strings that are missing are "". */
  datatype UpstreamMessage =
    | Response(id: int, failed: bool, targetId: string, sessionId: string, info: Option<TargetInfo>)
    | ResponseWithoutNumber
    | Event(kind: EventMethod, session: string, targetId: string, sessionId: string, info: Option<TargetInfo>)

  datatype Pending = Pending(clientId: ClientId, command: Method)

  /** The runtime's tables; of a target's description only the browser context is kept. `open` is the socket's state. */
  datatype Shim = Shim(
    contextId: string, loginTarget: string, nextId: nat, pending: map<int, Pending>, infos: map<string, string>,
    shimTargets: set<string>, attached: set<string>, plugin: Option<nat>, open: bool, stopping: bool)

  function Fresh(contextId: string, loginTarget: string, nextId: nat): Shim {
    Shim(contextId, loginTarget, nextId, map[], map[loginTarget := contextId], {}, {}, None, false, false)
  }

  function NextNumber(n: nat): nat {
    if n < EXACT_LIMIT then n + 1 else n
  }

  predicate IsAllowed(s: Shim, targetId: string) {
    targetId == s.loginTarget || targetId in s.shimTargets || (targetId in s.infos && s.infos[targetId] == s.contextId)
  }

  /** Whether a plugin message passes every check and goes upstream. */
  predicate Passes(s: Shim, m: PluginMessage) {
    && m.Message? && m.command.Some? && m.id.Some? && !m.command.value.Unknown?
    && m.command.value.InSession? == m.sessionId.Some?
    && (m.sessionId.Some? ==> m.sessionId.value in s.attached)
    && (m.command.value.CloseTarget? ==> m.targetId != "" && m.targetId in s.shimTargets)
    && (m.command.value.AttachToTarget? || m.command.value.GetTargetInfo? ==>
          m.targetId != "" && IsAllowed(s, m.targetId))
  }

  function Forwarded(s: Shim, m: PluginMessage, sent: bool): Shim
    requires Passes(s, m)
  {
    s.(nextId := NextNumber(s.nextId),
       pending := if sent then s.pending[s.nextId := Pending(m.id.value, m.command.value)] else s.pending - {s.nextId})
  }

  function Accepted(s: Shim, connection: nat): Shim {
    if s.plugin.Some? then s else s.(plugin := Some(connection), open := true)
  }

  function PluginGone(s: Shim, connection: nat): Shim {
    if s.plugin == Some(connection) then s.(plugin := None, open := false, pending := map[], attached := {}) else s
  }

  function ShutDown(s: Shim): Shim {
    if s.stopping then s else s.(stopping := true, open := false, pending := map[], attached := {})
  }

  function Recorded(s: Shim, p: Pending, m: UpstreamMessage): Shim
    requires m.Response?
  {
    if m.failed then s
    else if p.command.CreateTarget? && m.targetId != "" then
      s.(shimTargets := s.shimTargets + {m.targetId}, infos := s.infos[m.targetId := s.contextId])
    else if p.command.AttachToTarget? && m.sessionId != "" then s.(attached := s.attached + {m.sessionId})
    else if p.command.GetTargetInfo? && m.info.Some? && m.info.value.targetId != "" &&
        m.info.value.contextId == s.contextId then
      s.(infos := s.infos[m.info.value.targetId := m.info.value.contextId])
    else s
  }

  /** The context an event speaks of: its own, or the one on record for its target. */
  function EventContext(s: Shim, info: TargetInfo): string {
    if info.contextId != "" then info.contextId
    else if info.targetId in s.infos then s.infos[info.targetId] else ""
  }

  predicate ForwardsTargetEvent(s: Shim, m: UpstreamMessage)
    requires m.Event?
  {
    match m.kind
    case OtherEvent => false
    case Crashed => m.targetId == s.loginTarget || (m.targetId != "" && m.targetId in s.shimTargets)
    case Attached => m.sessionId != "" && m.sessionId in s.attached
    case Detached => m.sessionId != "" && m.sessionId in s.attached
    case Destroyed => m.targetId != "" && IsAllowed(s, m.targetId)
    case _ => m.info.Some? && m.info.value.targetId != "" && EventContext(s, m.info.value) == s.contextId
  }

  function Noticed(s: Shim, m: UpstreamMessage): Shim
    requires m.Event?
  {
    match m.kind
    case Destroyed =>
      if m.targetId == "" then s
      else s.(infos := s.infos - {m.targetId}, shimTargets := s.shimTargets - {m.targetId})
    case Created => Described(s, m.info)
    case InfoChanged => Described(s, m.info)
    case Detached => if m.sessionId == "" then s else s.(attached := s.attached - {m.sessionId})
    case _ => s
  }

  function Described(s: Shim, info: Option<TargetInfo>): Shim {
    if info.None? || info.value.targetId == "" || EventContext(s, info.value) == "" then s
    else s.(infos := s.infos[info.value.targetId := EventContext(s, info.value)])
  }

  /** Which answer the plugin gets for an upstream message, if any: a reply with its own id, or the event. */
  datatype Delivery = Nothing | Reply(clientId: ClientId) | Notify

  predicate Answers(s: Shim, m: UpstreamMessage) {
    !s.stopping && m.Response? && m.id in s.pending
  }

  predicate Notifies(s: Shim, m: UpstreamMessage) {
    && !s.stopping && m.Event?
    && if m.session != "" then m.session in s.attached else ForwardsTargetEvent(s, m)
  }

  function Received(s: Shim, m: UpstreamMessage): Shim {
    if Answers(s, m) then Recorded(s.(pending := s.pending - {m.id}), s.pending[m.id], m)
    else if Notifies(s, m) && m.session == "" then Noticed(s, m)
    else s
  }

  function Delivered(s: Shim, m: UpstreamMessage): Delivery {
    if s.plugin.None? || !s.open then Nothing
    else if Answers(s, m) then Reply(s.pending[m.id].clientId)
    else if Notifies(s, m) then Notify
    else Nothing
  }

  /** What a message from the plugin leads to. */
  datatype Verdict = Ignored | Blocked | Sent(upstreamId: nat, contextId: Option<string>)

  class ShimRuntime {
    const contextId: string
    const loginTarget: string
    var nextId: nat
    var pending: map<int, Pending>
    var infos: map<string, string>
    var shimTargets: set<string>
    var attached: set<string>
    var plugin: Option<nat>
    var open: bool
    var stopping: bool

    function View(): Shim
      reads this
    {
      Shim(contextId, loginTarget, nextId, pending, infos, shimTargets, attached, plugin, open, stopping)
    }

    constructor (contextId: string, loginTarget: string, nextId: nat)
      ensures View() == Fresh(contextId, loginTarget, nextId)
    {
      this.contextId := contextId;
      this.loginTarget := loginTarget;
      this.nextId := nextId;
      pending, infos, shimTargets, attached := map[], map[loginTarget := contextId], {}, {};
      plugin, open, stopping := None, false, false;
    }

    method AllocateId() returns (id: nat)
      modifies this`nextId
      ensures id == old(nextId)
      ensures nextId == if id < 9_007_199_254_740_992 then id + 1 else id
    {
      id := nextId;
      if nextId < EXACT_LIMIT {
        nextId := nextId + 1;
      }
    }

    method AcceptPlugin(connection: nat) returns (refused: bool)
      modifies this`plugin, this`open
      ensures View() == Accepted(old(View()), connection)
      ensures refused == old(plugin).Some? && (refused ==> plugin == old(plugin) && open == old(open))
      ensures !refused ==> plugin == Some(connection) && open
    {
      if plugin.Some? {
        return true;
      }
      plugin, open, refused := Some(connection), true, false;
    }

    method PluginClosed(connection: nat)
      modifies this
      ensures View() == PluginGone(old(View()), connection)
      ensures old(plugin) == Some(connection) ==> plugin == None && !open && pending == map[] && attached == {}
      ensures old(plugin) != Some(connection) ==> unchanged(this)
    {
      if plugin == Some(connection) {
        plugin, open := None, false;
        pending := map[];
        attached := {};
      }
    }

    method Shutdown()
      modifies this
      ensures View() == ShutDown(old(View()))
      ensures stopping && (old(stopping) ==> unchanged(this))
      ensures !old(stopping) ==> !open && pending == map[] && attached == {}
    {
      if stopping {
        return;
      }
      stopping, open := true, false;
      pending := map[];
      attached := {};
    }

    /** `writable` says whether the upstream socket takes the message. */
    method HandlePluginMessage(connection: nat, m: PluginMessage, writable: bool) returns (verdict: Verdict)
      modifies this`nextId, this`pending
      ensures
        var s := old(View());
        if plugin != Some(connection) || stopping then verdict == Ignored && View() == s
        else if !Passes(s, m) then verdict == Blocked && View() == s
        else View() == Forwarded(s, m, writable) &&
             verdict ==
               if writable then Sent(s.nextId, if m.command.value.CreateTarget? then Some(contextId) else None)
               else Blocked
      ensures verdict.Ignored? <==> plugin != Some(connection) || stopping
      ensures verdict.Sent? <==>
        && plugin == Some(connection) && !stopping && writable
        && m.Message? && m.command.Some? && m.id.Some? && !m.command.value.Unknown?
        && (m.command.value.InSession? <==> m.sessionId.Some?)
        && (m.sessionId.Some? ==> m.sessionId.value in attached)
        && (m.command.value.CloseTarget? ==> m.targetId != "" && m.targetId in shimTargets)
        && (m.command.value.AttachToTarget? || m.command.value.GetTargetInfo? ==>
              && m.targetId != ""
              && (|| m.targetId == loginTarget || m.targetId in shimTargets
                  || (m.targetId in infos && infos[m.targetId] == contextId)))
      ensures verdict.Sent? ==>
        && verdict.upstreamId == old(nextId)
        && verdict.contextId == (if m.command.value.CreateTarget? then Some(contextId) else None)
        && pending == old(pending)[old(nextId) := Pending(m.id.value, m.command.value)]
      ensures !verdict.Sent? ==> pending == old(pending) || pending == old(pending) - {old(nextId)}
    {
      if plugin != Some(connection) || stopping {
        return Ignored;
      }
      if m.Malformed? || m.command.None? || m.id.None? {
        return Blocked;
      }
      var command := m.command.value;
      if m.sessionId.Some? != command.InSession? || command.Unknown? {
        return Blocked;
      }
      if m.sessionId.Some? && m.sessionId.value !in attached {
        return Blocked;
      }
      var context := None;
      if command.CreateTarget? {
        context := Some(contextId);
      } else if command.CloseTarget? {
        if m.targetId == "" || m.targetId !in shimTargets {
          return Blocked;
        }
      } else if command.AttachToTarget? || command.GetTargetInfo? {
        if m.targetId == "" || !IsAllowed(View(), m.targetId) {
          return Blocked;
        }
      }
      var upstreamId := AllocateId();
      pending := pending[upstreamId := Pending(m.id.value, command)];
      if !writable {
        pending := pending - {upstreamId};
        return Blocked;
      }
      verdict := Sent(upstreamId, context);
    }

    method RecordResponse(p: Pending, m: UpstreamMessage)
      requires m.Response?
      modifies this`shimTargets, this`infos, this`attached
      ensures View() == Recorded(old(View()), p, m)
      ensures attached ==
        old(attached) + if !m.failed && p.command.AttachToTarget? && m.sessionId != "" then {m.sessionId} else {}
      ensures shimTargets ==
        old(shimTargets) + if !m.failed && p.command.CreateTarget? && m.targetId != "" then {m.targetId} else {}
      ensures infos ==
        if !m.failed && p.command.CreateTarget? && m.targetId != "" then old(infos)[m.targetId := contextId]
        else if !m.failed && p.command.GetTargetInfo? && m.info.Some? && m.info.value.targetId != "" &&
                m.info.value.contextId == contextId then old(infos)[m.info.value.targetId := contextId]
        else old(infos)
    {
      if m.failed {
        return;
      }
      if p.command.CreateTarget? {
        if m.targetId != "" {
          shimTargets := shimTargets + {m.targetId};
          infos := infos[m.targetId := contextId];
        }
      } else if p.command.AttachToTarget? {
        if m.sessionId != "" {
          attached := attached + {m.sessionId};
        }
      } else if p.command.GetTargetInfo? {
        if m.info.Some? && m.info.value.targetId != "" && m.info.value.contextId == contextId {
          infos := infos[m.info.value.targetId := m.info.value.contextId];
        }
      }
    }

    method AllowTargetEvent(m: UpstreamMessage) returns (allowed: bool)
      requires m.Event?
      modifies this`shimTargets, this`infos, this`attached
      ensures allowed == ForwardsTargetEvent(old(View()), m)
      ensures View() == if allowed then Noticed(old(View()), m) else old(View())
      ensures m.kind.OtherEvent? ==> !allowed
      ensures m.kind.Crashed? ==>
        (allowed <==> m.targetId == loginTarget || (m.targetId != "" && m.targetId in shimTargets))
      ensures m.kind.Attached? || m.kind.Detached? ==>
        (allowed <==> m.sessionId != "" && m.sessionId in old(attached))
      ensures m.kind.Destroyed? ==>
        (allowed <==>
           && m.targetId != ""
           && (|| m.targetId == loginTarget || m.targetId in old(shimTargets)
               || (m.targetId in old(infos) && old(infos)[m.targetId] == contextId)))
      ensures m.kind.Created? || m.kind.InfoChanged? ==>
        (allowed <==>
           && m.info.Some? && m.info.value.targetId != ""
           && contextId ==
              if m.info.value.contextId != "" then m.info.value.contextId
              else if m.info.value.targetId in old(infos) then old(infos)[m.info.value.targetId]
              else "")
      ensures attached == old(attached) - if allowed && m.kind.Detached? then {m.sessionId} else {}
      ensures shimTargets == old(shimTargets) - if allowed && m.kind.Destroyed? then {m.targetId} else {}
      ensures infos ==
        if allowed && m.kind.Destroyed? then old(infos) - {m.targetId}
        else if allowed && (m.kind.Created? || m.kind.InfoChanged?) && contextId != "" then
          old(infos)[m.info.value.targetId := contextId]
        else old(infos)
    {
      ghost var s := View();
      if !ForwardsTargetEvent(View(), m) {
        return false;
      }
      allowed := true;
      if m.kind.Destroyed? {
        infos := infos - {m.targetId};
        shimTargets := shimTargets - {m.targetId};
      } else if m.kind.Created? || m.kind.InfoChanged? {
        var info := m.info.value;
        var context := info.contextId;
        if context == "" && info.targetId in infos {
          context := infos[info.targetId];
        }
        if context != "" {
          infos := infos[info.targetId := context];
        }
      } else if m.kind.Detached? {
        attached := attached - {m.sessionId};
      }
    }

    method HandleUpstreamMessage(m: UpstreamMessage) returns (delivery: Delivery)
      modifies this`pending, this`shimTargets, this`infos, this`attached
      ensures View() == Received(old(View()), m)
      ensures delivery == Delivered(old(View()), m)
      ensures pending == if !stopping && m.Response? then old(pending) - {m.id} else old(pending)
      ensures delivery.Reply? <==> !stopping && plugin.Some? && open && m.Response? && m.id in old(pending)
      ensures delivery.Reply? ==> delivery.clientId == old(pending)[m.id].clientId
      ensures m.Event? && m.session != "" ==>
        (delivery.Notify? <==> !stopping && plugin.Some? && open && m.session in old(attached))
    {
      delivery := Nothing;
      if stopping || m.ResponseWithoutNumber? {
        return;
      }
      if m.Response? {
        if m.id !in pending {
          return;
        }
        var p := pending[m.id];
        pending := pending - {m.id};
        RecordResponse(p, m);
        delivery := Reply(p.clientId);
      } else {
        if m.session != "" {
          if m.session !in attached {
            return;
          }
        } else {
          var allowed := AllowTargetEvent(m);
          if !allowed {
            return;
          }
        }
        delivery := Notify;
      }
      if plugin.None? || !open {
        delivery := Nothing;
      }
    }
  }
}

/** Whole runs of the proxy: which request a reply belongs to, and which connection it reaches. */
module CdpProtocol {
  import opened Options
  import opened CdpProxy

  /**
   * A plugin request that was given an upstream id, when `number` ids had been handed out before.
   * `contextId` is the browser context that the shim writes into the message.
   */
  datatype Request = Request(
    upstreamId: int, connection: nat, clientId: ClientId, number: nat, command: Method, contextId: Option<string>)

  /** An answer written to a plugin connection; `request` numbers the request it is for. */
  datatype Answer = Answer(request: nat, connection: nat, clientId: ClientId)

  /** `waiting` says which request each pending upstream id stands for; `handedOut` counts the ids handed out. */
  datatype State = State(
    shim: Shim, connections: nat, handedOut: nat, requests: seq<Request>, waiting: map<int, nat>, answers: seq<Answer>)

  datatype Action =
    | Accept                                                      // a new plugin connection arrives
    | PluginClosing                                               // the plugin's socket starts to close
    | Closed(connection: nat)                                     // a connection has closed
    | FromPlugin(connection: nat, request: PluginMessage, writable: bool)
    | FromUpstream(message: UpstreamMessage)
    | OwnRequest                                                  // the shim sends a request of its own upstream
    | Stop

  function Initial(contextId: string, loginTarget: string): State {
    State(Fresh(contextId, loginTarget, 1), 0, 0, [], map[], [])
  }

  function ForwardedRequest(s: State, connection: nat, m: PluginMessage): Request
    requires Passes(s.shim, m)
  {
    Request(s.shim.nextId, connection, m.id.value, s.handedOut, m.command.value,
            if m.command.value.CreateTarget? then Some(s.shim.contextId) else None)
  }

  function FromPluginState(s: State, connection: nat, m: PluginMessage, writable: bool): State {
    if s.shim.plugin != Some(connection) || s.shim.stopping || !Passes(s.shim, m) then s
    else
      var id, n := s.shim.nextId, |s.requests|;
      s.(shim := Forwarded(s.shim, m, writable), handedOut := s.handedOut + 1,
         requests := s.requests + [ForwardedRequest(s, connection, m)],
         waiting := if writable then s.waiting[id := n] else s.waiting - {id},
         answers := if writable then s.answers else s.answers + [Answer(n, connection, m.id.value)])
  }

  function FromUpstreamState(s: State, m: UpstreamMessage): State {
    var delivery := Delivered(s.shim, m);
    s.(shim := Received(s.shim, m),
       waiting := if Answers(s.shim, m) then s.waiting - {m.id} else s.waiting,
       answers :=
         if delivery.Reply? && m.id in s.waiting then
           s.answers + [Answer(s.waiting[m.id], s.shim.plugin.value, delivery.clientId)]
         else s.answers)
  }

  function Do(s: State, a: Action): State {
    match a
    case Accept => s.(shim := Accepted(s.shim, s.connections), connections := s.connections + 1)
    case PluginClosing => s.(shim := s.shim.(open := false))
    case Closed(connection) =>
      s.(shim := PluginGone(s.shim, connection),
         waiting := if s.shim.plugin == Some(connection) then map[] else s.waiting)
    case FromPlugin(connection, m, writable) => FromPluginState(s, connection, m, writable)
    case FromUpstream(m) => FromUpstreamState(s, m)
    case OwnRequest => s.(shim := s.shim.(nextId := NextNumber(s.shim.nextId)), handedOut := s.handedOut + 1)
    case Stop => s.(shim := ShutDown(s.shim), waiting := if s.shim.stopping then s.waiting else map[])
  }

  predicate IsRun(states: seq<State>, actions: seq<Action>) {
    && |states| == |actions| + 1
    && states[0] == Initial(states[0].shim.contextId, states[0].shim.loginTarget)
    && forall i :: 0 <= i < |actions| ==> states[i + 1] == Do(states[i], actions[i])
  }

  /** Every target on record is in the shim's browser context, and the shim's own targets are on record. */
  predicate TargetsOk(s: Shim) {
    (forall t | t in s.infos :: s.infos[t] == s.contextId) && s.shimTargets <= s.infos.Keys
  }

  /** The id that is handed out after `number` others. */
  function IdAfter(number: nat): nat {
    if number < EXACT_LIMIT then number + 1 else EXACT_LIMIT
  }

  predicate IdsOk(s: State) {
    && s.shim.nextId == IdAfter(s.handedOut)
    && (forall i :: 0 <= i < |s.requests| ==>
          s.requests[i].upstreamId == IdAfter(s.requests[i].number) && s.requests[i].number < s.handedOut)
    && (forall i, j :: 0 <= i < j < |s.requests| ==> s.requests[i].number < s.requests[j].number)
  }

  predicate WaitOk(s: State, id: int)
    requires id in s.waiting
  {
    && id in s.shim.pending && s.waiting[id] < |s.requests|
    && var r := s.requests[s.waiting[id]];
       r.upstreamId == id && Some(r.connection) == s.shim.plugin && r.clientId == s.shim.pending[id].clientId
  }

  predicate AnswerOk(s: State, a: Answer) {
    && a.request < |s.requests| && a.connection == s.requests[a.request].connection &&
        a.clientId == s.requests[a.request].clientId
    && (forall id | id in s.waiting :: s.waiting[id] != a.request)
  }

  predicate RoutesOk(s: State) {
    && s.waiting.Keys == s.shim.pending.Keys
    && (forall id | id in s.waiting :: WaitOk(s, id))
    && (forall i :: 0 <= i < |s.answers| ==> AnswerOk(s, s.answers[i]))
    && (forall i, j :: 0 <= i < j < |s.answers| ==> s.answers[i].request != s.answers[j].request)
  }

  predicate Inv(s: State) {
    TargetsOk(s.shim) && IdsOk(s) && RoutesOk(s)
  }

  lemma RecordedKeepsTargets(s: Shim, p: Pending, m: UpstreamMessage)
    requires TargetsOk(s) && m.Response?
    ensures TargetsOk(Recorded(s, p, m))
  {
  }

  /** Only an event that speaks of the shim's own context puts a target on record. */
  lemma NoticedKeepsTargets(s: Shim, m: UpstreamMessage)
    requires TargetsOk(s) && m.Event? && ForwardsTargetEvent(s, m)
    ensures TargetsOk(Noticed(s, m))
  {
  }

  lemma ActionKeepsTargets(s: State, a: Action)
    requires TargetsOk(s.shim)
    ensures TargetsOk(Do(s, a).shim)
  {
    if a.FromUpstream? {
      var m := a.message;
      if Answers(s.shim, m) {
        RecordedKeepsTargets(s.shim.(pending := s.shim.pending - {m.id}), s.shim.pending[m.id], m);
      } else if Notifies(s.shim, m) && m.session == "" {
        NoticedKeepsTargets(s.shim, m);
      }
      hide Recorded, Noticed;
    } else {
      hide Received, TargetsOk;
      TargetsFrame(s.shim, Do(s, a).shim);
    }
  }

  lemma TargetsFrame(s: Shim, s': Shim)
    requires s'.infos == s.infos && s'.shimTargets == s.shimTargets && s'.contextId == s.contextId
    ensures TargetsOk(s) ==> TargetsOk(s')
  {
  }

  lemma ReceivedFrame(s: Shim, m: UpstreamMessage)
    ensures
      var s' := Received(s, m);
      && s'.pending == (if Answers(s, m) then s.pending - {m.id} else s.pending)
      && s'.plugin == s.plugin && s'.nextId == s.nextId
  {
  }

  lemma ActionKeepsIds(s: State, a: Action)
    requires IdsOk(s)
    ensures IdsOk(Do(s, a))
  {
    if a.FromUpstream? {
      ReceivedFrame(s.shim, a.message);
    }
    hide Received;
  }

  lemma PluginKeepsRoutes(s: State, connection: nat, m: PluginMessage, writable: bool)
    requires RoutesOk(s)
    ensures RoutesOk(FromPluginState(s, connection, m, writable))
  {
    hide Passes;
    var s' := FromPluginState(s, connection, m, writable);
    forall i | 0 <= i < |s'.answers| ensures AnswerOk(s', s'.answers[i]) {
      if i < |s.answers| {
        assert AnswerOk(s, s.answers[i]);
      }
    }
    forall id | id in s'.waiting ensures WaitOk(s', id) {
      if id in s.waiting {
        assert WaitOk(s, id);
      }
    }
  }

  lemma UpstreamKeepsRoutes(s: State, m: UpstreamMessage)
    requires RoutesOk(s)
    ensures RoutesOk(FromUpstreamState(s, m))
  {
    ReceivedFrame(s.shim, m);
    hide Received, Notifies;
    var s' := FromUpstreamState(s, m);
    forall i | 0 <= i < |s'.answers| ensures AnswerOk(s', s'.answers[i]) {
      if i < |s.answers| {
        assert AnswerOk(s, s.answers[i]);
      } else {
        assert WaitOk(s, m.id);
        forall id | id in s'.waiting ensures s'.waiting[id] != s'.answers[i].request {
          assert WaitOk(s, id);
        }
      }
    }
    forall id | id in s'.waiting ensures WaitOk(s', id) {
      assert WaitOk(s, id);
    }
  }

  /** The pending requests are forgotten, or nothing they depend on changes. */
  lemma RoutesFrame(s: State, s': State)
    requires RoutesOk(s) && s'.requests == s.requests && s'.answers == s.answers
    requires
      || (s'.waiting == map[] && s'.shim.pending == map[])
      || (s'.waiting == s.waiting && s'.shim.pending == s.shim.pending &&
            (s.shim.plugin.Some? ==> s'.shim.plugin == s.shim.plugin))
    ensures RoutesOk(s')
  {
    forall i | 0 <= i < |s'.answers| ensures AnswerOk(s', s'.answers[i]) {
      assert AnswerOk(s, s.answers[i]);
    }
    forall id | id in s'.waiting ensures WaitOk(s', id) {
      assert WaitOk(s, id);
    }
  }

  lemma ActionKeepsRoutes(s: State, a: Action)
    requires RoutesOk(s)
    ensures RoutesOk(Do(s, a))
  {
    hide RoutesOk, FromPluginState, FromUpstreamState;
    match a
    case FromPlugin(connection, m, writable) => PluginKeepsRoutes(s, connection, m, writable);
    case FromUpstream(m) => UpstreamKeepsRoutes(s, m);
    case _ => RoutesFrame(s, Do(s, a));
  }

  lemma {:induction false} RunKeepsInv(states: seq<State>, actions: seq<Action>, n: nat)
    requires IsRun(states, actions) && n < |states|
    ensures Inv(states[n])
  {
    if n > 0 {
      hide Do, TargetsOk, IdsOk, RoutesOk;
      RunKeepsInv(states, actions, n - 1);
      ActionKeepsTargets(states[n - 1], actions[n - 1]);
      ActionKeepsIds(states[n - 1], actions[n - 1]);
      ActionKeepsRoutes(states[n - 1], actions[n - 1]);
    }
  }

  /** Two forwarded requests share an upstream id exactly when the first was sent after 2^53 - 1 ids or more. */
  lemma UpstreamIdsRepeatExactly(states: seq<State>, actions: seq<Action>, n: nat, i: nat, j: nat)
    requires IsRun(states, actions) && n < |states| && i < j < |states[n].requests|
    ensures
      var first, second := states[n].requests[i], states[n].requests[j];
      && first.number < second.number < states[n].handedOut
      && (first.upstreamId == second.upstreamId <==> first.number >= EXACT_LIMIT - 1)
  {
    RunKeepsInv(states, actions, n);
    hide TargetsOk, RoutesOk;
  }

  /** Upstream ids are never reused while the shim has handed out at most 2^53 of them. */
  lemma UpstreamIdsFresh(states: seq<State>, actions: seq<Action>, n: nat)
    requires IsRun(states, actions) && n < |states| && states[n].handedOut <= EXACT_LIMIT
    ensures forall i, j :: 0 <= i < j < |states[n].requests| ==>
              states[n].requests[i].upstreamId != states[n].requests[j].upstreamId
  {
    var requests := states[n].requests;
    forall i, j | 0 <= i < j < |requests| ensures requests[i].upstreamId != requests[j].upstreamId {
      UpstreamIdsRepeatExactly(states, actions, n, i, j);
    }
  }

  /** A request gets at most one answer, with its own id, on the very connection that sent it. */
  lemma AnswersGoHome(states: seq<State>, actions: seq<Action>, n: nat)
    requires IsRun(states, actions) && n < |states|
    ensures
      var s := states[n];
      && (forall i :: 0 <= i < |s.answers| ==>
            && s.answers[i].request < |s.requests|
            && s.answers[i].connection == s.requests[s.answers[i].request].connection
            && s.answers[i].clientId == s.requests[s.answers[i].request].clientId)
      && (forall i, j :: 0 <= i < j < |s.answers| ==> s.answers[i].request != s.answers[j].request)
  {
    RunKeepsInv(states, actions, n);
    hide TargetsOk, IdsOk;
    forall i | 0 <= i < |states[n].answers| ensures AnswerOk(states[n], states[n].answers[i]) {}
  }

  /**
   * A response is passed on, while its request still waits on an open connection, to the one request
   * that was sent with its id.
   */
  lemma ResponseAnswersItsRequest(states: seq<State>, actions: seq<Action>, n: nat, k: nat)
    requires IsRun(states, actions) && n < |actions| && states[n].handedOut <= EXACT_LIMIT
    requires k < |states[n].requests| && actions[n].FromUpstream? && actions[n].message.Response?
    requires states[n].requests[k].upstreamId == actions[n].message.id
    ensures
      var s, r := states[n], states[n].requests[k];
      states[n + 1].answers ==
        if !s.shim.stopping && s.shim.plugin.Some? && s.shim.open && r.upstreamId in s.waiting then
          s.answers + [Answer(k, r.connection, r.clientId)]
        else s.answers
  {
    RunKeepsInv(states, actions, n);
    var s, id := states[n], actions[n].message.id;
    hide TargetsOk, Received;
    if id in s.waiting {
      assert WaitOk(s, id);
      assert s.waiting[id] == k;
    }
  }

  /**
   * A target is let through exactly when it is the login target or on record, and every record has
   * the shim's context.
   */
  lemma TargetsStayInContext(states: seq<State>, actions: seq<Action>, n: nat)
    requires IsRun(states, actions) && n < |states|
    ensures
      var shim := states[n].shim;
      && (forall t | t in shim.infos :: shim.infos[t] == shim.contextId)
      && shim.shimTargets <= shim.infos.Keys
      && (forall t :: IsAllowed(shim, t) <==> t == shim.loginTarget || t in shim.infos)
  {
    RunKeepsInv(states, actions, n);
    hide RoutesOk, IdsOk;
  }

  /**
   * Whatever is forwarded comes from the current connection; it creates targets in the shim's context,
   * attaches to or looks at only the login target and targets of that context, closes only the shim's
   * own targets, and speaks only in attached sessions.
   */
  lemma ForwardedStaysInContext(states: seq<State>, actions: seq<Action>, n: nat)
    requires IsRun(states, actions) && n < |actions| && actions[n].FromPlugin?
    requires states[n + 1].requests != states[n].requests
    ensures
      var shim, m, sent := states[n].shim, actions[n].request, states[n + 1].requests;
      && m.Message? && m.command.Some? && shim.plugin == Some(actions[n].connection) && !shim.stopping
      && sent[..|sent| - 1] == states[n].requests && sent[|sent| - 1].command == m.command.value
      && sent[|sent| - 1].contextId == (if m.command.value.CreateTarget? then Some(shim.contextId) else None)
      && (m.command.value.AttachToTarget? || m.command.value.GetTargetInfo? ==>
            m.targetId == shim.loginTarget || (m.targetId in shim.infos && shim.infos[m.targetId] == shim.contextId))
      && (m.command.value.CloseTarget? ==>
            m.targetId in shim.shimTargets && m.targetId in shim.infos && shim.infos[m.targetId] == shim.contextId)
      && (m.command.value.InSession? ==> m.sessionId.Some? && m.sessionId.value in shim.attached)
      && (m.sessionId.Some? ==> m.command.value.InSession?)
  {
    RunKeepsInv(states, actions, n);
    hide RoutesOk, IdsOk;
  }
}
