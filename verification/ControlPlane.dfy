/** The control plane's shared state as the objects it is: two maps updated in place, queues
and result channels filled and drained. A ghost field holds the state of the transition
system the objects stand for, and every method performs exactly its steps there, so what is
proved of all runs holds of the objects. */
module ControlPlane {
  import opened Messages
  import opened Protocol
  import opened SessionInvariant
  import opened ProtocolInvariant
  import opened ProtocolTheorems

  /** A one-slot channel made by one call of `SendCommand`. */
  class ResultChannel {
    var slot: Option<CommandResult>

    constructor ()
      ensures slot == None
    {
      slot := None;
    }

    /** A send on a full channel would block, so it needs an empty one. */
    method Send(r: CommandResult)
      requires slot == None
      modifies this
      ensures slot == Some(r)
    {
      slot := Some(r);
    }
  }

  class ConnectedAgent {
    const serverId: ServerId
    var send: seq<Command>
    var lastMetrics: Option<string>

    constructor (serverId: ServerId)
      ensures this.serverId == serverId && send == [] && lastMetrics == None
    {
      this.serverId := serverId;
      send, lastMetrics := [], None;
    }
  }

  /** The server's two maps, the state of the transition system they belong to, and the objects
      of its sessions and calls. */
  datatype View = View(
    agents: map<ServerId, ConnectedAgent>,
    pending: map<CommandId, ResultChannel>,
    st: State,
    conns: map<nat, ConnectedAgent>,
    chans: map<nat, ResultChannel>)

  /** The two maps name the objects of the sessions and calls they stand for. */
  ghost predicate MapsMatch(v: View) {
    && v.agents.Keys == v.st.agents.Keys
    && (forall id :: id in v.agents ==> v.st.agents[id] in v.conns && v.agents[id] == v.conns[v.st.agents[id]])
    && v.pending.Keys == v.st.pending.Keys
    && (forall id :: id in v.pending ==> v.st.pending[id] in v.chans && v.pending[id] == v.chans[v.st.pending[id]])
  }

  /** One object for each registered session. */
  ghost predicate ConnsMatch(st: State, conns: map<nat, ConnectedAgent>) {
    && (forall i :: i in conns <==> 0 <= i < |st.sessions| && st.sessions[i].registered)
    && (forall i :: i in conns ==> conns[i].serverId == st.sessions[i].serverId)
    && (forall i, j :: i in conns && j in conns && i != j ==> conns[i] != conns[j])
  }

  /** One channel for each call that has drawn its identifier. */
  ghost predicate ChansMatch(st: State, chans: map<nat, ResultChannel>) {
    && (forall c :: c in chans <==> 0 <= c < |st.calls| && Numbered(st.calls[c]))
    && (forall c, d :: c in chans && d in chans && c != d ==> chans[c] != chans[d])
  }

  ghost predicate Linked(v: View) {
    Reachable(v.st) && MapsMatch(v) && ConnsMatch(v.st, v.conns) && ChansMatch(v.st, v.chans)
  }

  class Server {
    var agents: map<ServerId, ConnectedAgent>
    var pending: map<CommandId, ResultChannel>

    /** The maps together with the state and the objects they belong to. */
    ghost var v: View

    /** The queues hold what the sessions hold, the channels what the calls hold. */
    ghost predicate QueuesOk()
      reads this`v, v.conns.Values`send
    {
      forall i :: i in v.conns && i < |v.st.sessions| ==> v.conns[i].send == v.st.sessions[i].send
    }

    ghost predicate SlotsOk()
      reads this`v, v.chans.Values`slot
    {
      forall c :: c in v.chans && c < |v.st.calls| ==> v.chans[c].slot == v.st.calls[c].slot
    }

    ghost predicate Valid()
      reads this, v.conns.Values`send, v.chans.Values`slot
    {
      Linked(v) && v.agents == agents && v.pending == pending && QueuesOk() && SlotsOk()
    }

    constructor ()
      ensures Valid() && v.st == INIT
    {
      assert CanRun(INIT, []) && After(INIT, []) == INIT;
      agents, pending := map[], map[];
      v := View(map[], map[], INIT, map[], map[]);
    }

    /** The system moves on without touching a queue or a channel. */
    ghost method Move(next: View)
      requires Linked(v) && QueuesOk() && SlotsOk() && SameObjects(v.st, next.st)
      requires Linked(next) && next.conns == v.conns && next.chans == v.chans
      requires next.agents == agents && next.pending == pending
      modifies this`v
      ensures Valid() && v == next
    {
      v := next;
    }

    // -------------------------------------------------------------- sessions

    /** The registration of session `i` once its reply has been sent. */
    method RegisterAgent(agent: ConnectedAgent, ghost i: nat)
      requires Valid() && Enabled(v.st, Register(i))
      requires agent !in v.conns.Values && agent.serverId == v.st.sessions[i].serverId && agent.send == []
      modifies this`agents, this`v
      ensures Valid() && v.st == Apply(old(v.st), Register(i))
      ensures v.conns == old(v.conns)[i := agent] && v.chans == old(v.chans)
    {
      hide Apply, Enabled, Linked;
      RegisterShows(v, agent, i);
      agents := agents[agent.serverId := agent];
      v := v.(agents := agents, st := Apply(v.st, Register(i)), conns := v.conns[i := agent]);
    }

    /** The deferred unregister of session `i`. */
    method UnregisterAgent(serverId: ServerId, ghost i: nat)
      requires Valid() && Enabled(v.st, Unregister(i)) && serverId == v.st.sessions[i].serverId
      modifies this`agents, this`v
      ensures Valid() && Stepped(old(v), v, Unregister(i))
    {
      hide Apply, Enabled, Linked, SameObjects;
      UnregisterShows(v, i);
      agents := agents - {serverId};
      Move(v.(agents := agents, st := Apply(v.st, Unregister(i))));
    }

    /** The loop of session `i` takes the oldest command off its queue. */
    method NextOutbound(agent: ConnectedAgent, ghost i: nat) returns (cmd: Command)
      requires Valid() && Enabled(v.st, ByServer(i, TakeOutbound)) && i in v.conns && agent == v.conns[i]
      modifies this`v, agent`send
      ensures Valid() && Stepped(old(v), v, ByServer(i, TakeOutbound))
      ensures v.st.sessions[i].pc == Sending(cmd)
    {
      hide Apply, Linked;
      TakeShows(v, i);
      cmd := agent.send[0];
      agent.send := agent.send[1..];
      v := v.(st := Apply(v.st, ByServer(i, TakeOutbound)));
    }

    /** The mutex section of `handleAgentMessage`: the entry of the result, if there is one, is
        taken out together with its channel. */
    method ClaimPending(result: CommandResult, ghost i: nat) returns (ch: ResultChannel?)
      requires Valid() && Enabled(v.st, Claim(i)) && v.st.sessions[i].recv[0] == ResultMessage(result)
      modifies this`pending, this`v
      ensures Valid() && Stepped(old(v), v, Claim(i)) && pending == old(pending) - {result.id}
      ensures ch == null <==> result.id !in old(pending)
      ensures ch != null ==> ch == old(pending)[result.id] && Claimed(v, ch, result, i)
    {
      hide Apply, Enabled, Linked, SameObjects;
      ClaimShows(v, result, i);
      ch := if result.id in pending then pending[result.id] else null;
      pending := pending - {result.id};
      Move(v.(pending := pending, st := Apply(v.st, Claim(i))));
    }

    /** The send on the claimed channel, which never blocks. */
    method DeliverResult(ch: ResultChannel, result: CommandResult, ghost i: nat)
      requires Valid() && Claimed(v, ch, result, i)
      modifies this`v, ch
      ensures Enabled(old(v.st), Deliver(i))
      ensures Valid() && Stepped(old(v), v, Deliver(i)) && ch.slot == Some(result)
    {
      hide Apply, Enabled, Linked;
      DeliverShows(v, i);
      ch.Send(result);
      v := v.(st := Apply(v.st, Deliver(i)));
    }

    /** A result is claimed, and delivered if the claim found an entry. */
    method HandleResult(result: CommandResult, ghost i: nat)
      requires Valid() && Enabled(v.st, Claim(i)) && v.st.sessions[i].recv[0] == ResultMessage(result)
      modifies this`pending, this`v, if result.id in pending then {pending[result.id]} else {}
      ensures Valid() && Handled(old(v), v, result.id, i) && pending == old(pending) - {result.id}
      ensures result.id in old(pending) ==> old(pending)[result.id].slot == Some(result)
    {
      hide Apply, Enabled, Linked;
      var ch := ClaimPending(result, i);
      if ch != null {
        DeliverResult(ch, result, i);
      }
    }

    /** The metrics of a heartbeat are kept; no other message but a result changes anything. */
    method HandleOther(agent: ConnectedAgent, msg: AgentMessage, ghost i: nat)
      requires Valid() && Enabled(v.st, ByServer(i, TakeOther)) && msg == v.st.sessions[i].recv[0]
      modifies this`v, agent`lastMetrics
      ensures Valid() && Stepped(old(v), v, ByServer(i, TakeOther))
      ensures agent.lastMetrics == if msg.Heartbeat? then Some(msg.metrics) else old(agent.lastMetrics)
    {
      StepElsewhere(ByServer(i, TakeOther));
      if msg.Heartbeat? {
        agent.lastMetrics := Some(msg.metrics);
      }
    }

    /** What the loop of session `i` does with the message at the head of its `recv`: a result
        is claimed and delivered, the metrics of a heartbeat are kept, and nothing but a result
        changes a call. */
    method HandleAgentMessage(agent: ConnectedAgent, msg: AgentMessage, ghost i: nat)
      requires Valid() && i < |v.st.sessions| && v.st.sessions[i].pc == Selecting
      requires v.st.sessions[i].recv != [] && v.st.sessions[i].recv[0] == msg
      modifies this`pending, this`v, pending.Values, agent`lastMetrics
      ensures Valid()
      ensures msg.ResultMessage? ==>
                Handled(old(v), v, msg.result.id, i) && pending == old(pending) - {msg.result.id}
                && (msg.result.id in old(pending) ==> old(pending)[msg.result.id].slot == Some(msg.result))
      ensures !msg.ResultMessage? ==> Stepped(old(v), v, ByServer(i, TakeOther)) && pending == old(pending)
      ensures agent.lastMetrics == if msg.Heartbeat? then Some(msg.metrics) else old(agent.lastMetrics)
    {
      hide Apply, Linked, Handled;
      match msg
      case ResultMessage(result) => HandleResult(result, i);
      case _ => HandleOther(agent, msg, i);
    }

    // -------------------------------------------------------------- callers

    /** The registry section at the head of `SendCommand`. */
    method LookupAgent(serverId: ServerId, ghost payload: Payload) returns (agent: ConnectedAgent?)
      requires Valid()
      modifies this`v
      ensures Valid() && Stepped(old(v), v, Lookup(serverId, payload))
      ensures
        var k := v.st.calls[|old(v).st.calls|];
        if agent == null then k.pc == Returned(NotConnected)
        else k.pc == LookedUp && k.session in v.conns && agent == v.conns[k.session]
    {
      LookupShows(v, serverId, payload);
      agent := if serverId in agents then agents[serverId] else null;
      v := v.(st := Apply(v.st, Lookup(serverId, payload)));
    }

    /** The second section: call `c` files a new channel under a new identifier. */
    method InsertPending(id: CommandId, ghost c: nat) returns (ch: ResultChannel)
      requires Valid() && Enabled(v.st, Issue(c, id))
      modifies this`pending, this`v
      ensures Valid() && v.st == Apply(old(v.st), Issue(c, id)) && fresh(ch)
      ensures v.conns == old(v.conns) && v.chans == old(v.chans)[c := ch]
    {
      hide Apply, Enabled, Linked;
      ch := new ResultChannel();
      assert forall d :: d in v.chans ==> v.chans[d] != ch;
      IssueShows(v, ch, c, id);
      pending := pending[id := ch];
      v := v.(pending := pending, st := Apply(v.st, Issue(c, id)), chans := v.chans[c := ch]);
    }

    /** False stands for a send that blocks: the queue has 32 slots. */
    method TryEnqueue(agent: ConnectedAgent, cmd: Command, ghost c: nat) returns (ok: bool)
      requires Valid() && c < |v.st.calls| && v.st.calls[c].pc == Issued && cmd == CommandOf(v.st.calls[c])
      requires v.st.calls[c].session in v.conns && agent == v.conns[v.st.calls[c].session]
      modifies this`v, agent`send
      ensures Valid() && (ok <==> Enabled(old(v.st), Enqueue(c)))
      ensures if ok then Stepped(old(v), v, Enqueue(c)) else v == old(v)
    {
      hide Apply, Enabled, Linked;
      EnqueueShows(v, c);
      ok := |agent.send| < SEND_CAPACITY;
      if ok {
        agent.send := agent.send + [cmd];
        v := v.(st := Apply(v.st, Enqueue(c)));
      }
    }

    /** The result branch of the final `select`. */
    method ReceiveResult(ch: ResultChannel, ghost c: nat) returns (r: CommandResult)
      requires Valid() && Enabled(v.st, TakeResult(c)) && c in v.chans && ch == v.chans[c]
      modifies this`v, ch
      ensures Valid() && Stepped(old(v), v, TakeResult(c))
      ensures v.st.calls[c].pc == Returned(Answered(r))
    {
      hide Apply, Linked;
      ResultShows(v, c);
      r := ch.slot.value;
      ch.slot := None;
      v := v.(st := Apply(v.st, TakeResult(c)));
    }

    /** The last section of a call that timed out. */
    method AbandonPending(id: CommandId, ghost c: nat)
      requires Valid() && Enabled(v.st, Cleanup(c)) && id == v.st.calls[c].id
      modifies this`pending, this`v
      ensures Valid() && Stepped(old(v), v, Cleanup(c))
    {
      hide Apply, Enabled, Linked, SameObjects;
      CleanupShows(v, c);
      pending := pending - {id};
      Move(v.(pending := pending, st := Apply(v.st, Cleanup(c))));
    }

    // -------------------------------------------------------------- everything else

    /** Steps of agents, streams and clocks touch none of the objects. */
    ghost method StepElsewhere(l: Label)
      requires Valid() && Enabled(v.st, l) && Elsewhere(l)
      modifies this`v
      ensures Valid() && Stepped(old(v), v, l) && v.pending == old(v).pending
    {
      ElsewhereShows(v, l);
      Move(v.(st := Apply(v.st, l)));
    }
  }

  predicate Elsewhere(l: Label) {
    l.Open? || l.ByAgent? || l.Break? || l.Fire? || l.TakeTimeout? || (l.ByServer? && !l.b.TakeOutbound?)
  }

  /** Session `i` has claimed an entry with this result, and this is the entry's channel. */
  ghost predicate Claimed(v: View, ch: ResultChannel, r: CommandResult, i: nat) {
    && i < |v.st.sessions| && v.st.sessions[i].pc.Delivering? && v.st.sessions[i].pc.result == r
    && v.st.sessions[i].pc.call in v.chans && ch == v.chans[v.st.sessions[i].pc.call]
  }

  /** The system took this step, with the same objects before and after. */
  ghost predicate Stepped(v: View, v': View, l: Label) {
    Enabled(v.st, l) && v'.st == Apply(v.st, l) && v'.conns == v.conns && v'.chans == v.chans
  }

  /** Session `i` claimed the entry of this identifier and delivered the result, if there was
      one, and did no more than discard the result otherwise. */
  ghost predicate Handled(v: View, v': View, id: CommandId, i: nat) {
    if id in v.pending then Enabled(v.st, Claim(i)) && Stepped(v.(st := Apply(v.st, Claim(i))), v', Deliver(i))
    else Stepped(v, v', Claim(i))
  }

  // ---------------------------------------------------------------- facts of reachable states

  lemma StepReaches(st: State, l: Label)
    requires Reachable(st) && Enabled(st, l)
    ensures Reachable(Apply(st, l))
  {
    var ls :| CanRun(INIT, ls) && After(INIT, ls) == st;
    RunOfOne(st, l);
    RunsCompose(INIT, ls, [l]);
  }

  lemma SessionFacts(st: State, i: nat)
    requires Reachable(st) && i < |st.sessions|
    ensures var s := st.sessions[i];
      && |s.send| <= SEND_CAPACITY
      && (s.pc.Registering? ==> !s.registered)
      && (!s.registered ==> s.send == [])
      && (Listed(s) ==> s.registered)
      && Greeting(s)
  {
    ReachableInv(st);
    assert SessionOk(st.sessions[i]);
  }

  /** A result claims an entry exactly when its identifier is pending. */
  lemma ClaimSucceedsIff(st: State, i: nat)
    requires Reachable(st) && Enabled(st, Claim(i))
    ensures var r := st.sessions[i].recv[0].result;
      && (r.id in st.pending ==> st.pending[r.id] < |st.calls|)
      && (r.id in st.pending <==> Apply(st, Claim(i)).sessions[i].pc.Delivering?)
  {
    ReachableInv(st);
  }

  lemma FreshSlotIsEmpty(st: State, c: nat)
    requires Reachable(st) && c < |st.calls| && !Numbered(st.calls[c])
    ensures st.calls[c].slot == None
  {
    ReachableInv(st);
    assert CallOk(st, c);
  }

  // ---------------------------------------------------------------- what the objects show

  /** What the objects show of a session and of a call. */
  predicate SameSession(s: Session, s': Session) {
    s'.registered == s.registered && s'.send == s.send && (s.registered ==> s'.serverId == s.serverId)
  }

  predicate SameCall(k: Call, k': Call) { k'.slot == k.slot && Numbered(k') == Numbered(k) }

  /** Sessions may be added, but nothing the objects show changes. */
  ghost predicate SameObjects(st: State, st': State) {
    && |st'.calls| == |st.calls| && |st.sessions| <= |st'.sessions|
    && (forall c :: 0 <= c < |st.calls| ==> SameCall(st.calls[c], st'.calls[c]))
    && (forall i :: 0 <= i < |st.sessions| ==> SameSession(st.sessions[i], st'.sessions[i]))
    && (forall i :: |st.sessions| <= i < |st'.sessions| ==> !st'.sessions[i].registered)
  }

  /** Queues and channels hold the same. */
  ghost predicate SameSends(st: State, st': State) {
    |st'.sessions| == |st.sessions|
    && forall i :: 0 <= i < |st.sessions| ==> st'.sessions[i].send == st.sessions[i].send
  }

  ghost predicate SameSlots(st: State, st': State) {
    |st'.calls| == |st.calls| && forall c :: 0 <= c < |st.calls| ==> st'.calls[c].slot == st.calls[c].slot
  }

  /** One queue, or one channel, holds something else. */
  ghost predicate SendsBut(st: State, st': State, i: nat, send: seq<Command>) {
    |st'.sessions| == |st.sessions|
    && forall j :: 0 <= j < |st.sessions| ==> st'.sessions[j].send == if j == i then send else st.sessions[j].send
  }

  ghost predicate SlotsBut(st: State, st': State, c: nat, slot: Option<CommandResult>) {
    |st'.calls| == |st.calls|
    && forall d :: 0 <= d < |st.calls| ==> st'.calls[d].slot == if d == c then slot else st.calls[d].slot
  }

  lemma SameObjectsKeepMatches(
      st: State, st': State, conns: map<nat, ConnectedAgent>, chans: map<nat, ResultChannel>)
    requires SameObjects(st, st') && ConnsMatch(st, conns) && ChansMatch(st, chans)
    ensures ConnsMatch(st', conns) && ChansMatch(st', chans)
  {
  }

  /** No other session, or call, has this object. */
  ghost predicate ConnIsAlone(v: View, i: nat) {
    forall j :: i in v.conns && j in v.conns && j != i ==> v.conns[j] != v.conns[i]
  }

  ghost predicate ChanIsAlone(v: View, c: nat) {
    forall d :: c in v.chans && d in v.chans && d != c ==> v.chans[d] != v.chans[c]
  }

  // ---------------------------------------------------------------- the steps, one by one

  lemma RegisterKeepsMaps(v: View, agent: ConnectedAgent, i: nat)
    requires MapsMatch(v) && Enabled(v.st, Register(i)) && i !in v.conns
    ensures MapsMatch(v.(agents := v.agents[v.st.sessions[i].serverId := agent],
                         st := Apply(v.st, Register(i)), conns := v.conns[i := agent]))
  {
  }

  lemma RegisterKeepsConns(st: State, conns: map<nat, ConnectedAgent>, agent: ConnectedAgent, i: nat)
    requires ConnsMatch(st, conns) && Enabled(st, Register(i)) && i !in conns
    requires agent !in conns.Values && agent.serverId == st.sessions[i].serverId
    ensures ConnsMatch(Apply(st, Register(i)), conns[i := agent])
    ensures SameSends(st, Apply(st, Register(i))) && Apply(st, Register(i)).calls == st.calls
  {
    assert forall j :: j in conns ==> conns[j] != agent;
  }

  lemma RegisterShows(v: View, agent: ConnectedAgent, i: nat)
    requires Linked(v) && Enabled(v.st, Register(i))
    requires agent !in v.conns.Values && agent.serverId == v.st.sessions[i].serverId
    ensures
      var st' := Apply(v.st, Register(i));
      && i !in v.conns && v.st.sessions[i].send == [] && SameSends(v.st, st') && SameSlots(v.st, st')
      && Linked(v.(agents := v.agents[agent.serverId := agent], st := st', conns := v.conns[i := agent]))
  {
    SessionFacts(v.st, i);
    StepReaches(v.st, Register(i));
    RegisterKeepsMaps(v, agent, i);
    RegisterKeepsConns(v.st, v.conns, agent, i);
  }

  lemma UnregisterKeepsMaps(v: View, i: nat)
    requires MapsMatch(v) && Enabled(v.st, Unregister(i)) && v.st.sessions[i].registered
    ensures MapsMatch(v.(agents := v.agents - {v.st.sessions[i].serverId}, st := Apply(v.st, Unregister(i))))
    ensures SameObjects(v.st, Apply(v.st, Unregister(i)))
  {
  }

  lemma UnregisterShows(v: View, i: nat)
    requires Linked(v) && Enabled(v.st, Unregister(i))
    ensures
      var st' := Apply(v.st, Unregister(i));
      SameObjects(v.st, st') && Linked(v.(agents := v.agents - {v.st.sessions[i].serverId}, st := st'))
  {
    hide Apply, MapsMatch, ConnsMatch, ChansMatch, SameObjects;
    SessionFacts(v.st, i);
    StepReaches(v.st, Unregister(i));
    UnregisterKeepsMaps(v, i);
    SameObjectsKeepMatches(v.st, Apply(v.st, Unregister(i)), v.conns, v.chans);
  }

  lemma TakeKeepsMatches(v: View, i: nat)
    requires MapsMatch(v) && ConnsMatch(v.st, v.conns) && ChansMatch(v.st, v.chans)
    requires Enabled(v.st, ByServer(i, TakeOutbound))
    ensures var st' := Apply(v.st, ByServer(i, TakeOutbound));
      MapsMatch(v.(st := st')) && ConnsMatch(st', v.conns) && ChansMatch(st', v.chans)
  {
  }

  lemma TakeTakes(st: State, i: nat)
    requires Enabled(st, ByServer(i, TakeOutbound))
    ensures
      var st' := Apply(st, ByServer(i, TakeOutbound));
      && SendsBut(st, st', i, st.sessions[i].send[1..]) && SameSlots(st, st')
      && st'.sessions[i].pc == Sending(st.sessions[i].send[0])
  {
  }

  lemma TakeShows(v: View, i: nat)
    requires Linked(v) && Enabled(v.st, ByServer(i, TakeOutbound))
    ensures
      var st' := Apply(v.st, ByServer(i, TakeOutbound));
      && SendsBut(v.st, st', i, v.st.sessions[i].send[1..]) && SameSlots(v.st, st') && Linked(v.(st := st'))
      && st'.sessions[i].pc == Sending(v.st.sessions[i].send[0])
    ensures ConnIsAlone(v, i)
  {
    hide Apply, MapsMatch, ChansMatch;
    StepReaches(v.st, ByServer(i, TakeOutbound));
    TakeTakes(v.st, i);
    TakeKeepsMatches(v, i);
  }

  lemma ClaimKeepsObjects(st: State, i: nat)
    requires Enabled(st, Claim(i))
    ensures SameObjects(st, Apply(st, Claim(i)))
  {
  }

  lemma ClaimKeepsMaps(v: View, i: nat)
    requires MapsMatch(v) && Enabled(v.st, Claim(i))
    requires var id := v.st.sessions[i].recv[0].result.id; id in v.st.pending ==> v.st.pending[id] < |v.st.calls|
    ensures MapsMatch(v.(pending := v.pending - {v.st.sessions[i].recv[0].result.id}, st := Apply(v.st, Claim(i))))
  {
  }

  lemma ClaimShows(v: View, r: CommandResult, i: nat)
    requires Linked(v) && Enabled(v.st, Claim(i)) && v.st.sessions[i].recv[0] == ResultMessage(r)
    ensures SameObjects(v.st, Apply(v.st, Claim(i)))
    ensures Linked(v.(pending := v.pending - {r.id}, st := Apply(v.st, Claim(i))))
    ensures r.id in v.pending ==>
              Claimed(v.(pending := v.pending - {r.id}, st := Apply(v.st, Claim(i))), v.pending[r.id], r, i)
  {
    ClaimSucceedsIff(v.st, i);
    StepReaches(v.st, Claim(i));
    ClaimKeepsObjects(v.st, i);
    ClaimKeepsMaps(v, i);
    SameObjectsKeepMatches(v.st, Apply(v.st, Claim(i)), v.conns, v.chans);
  }

  lemma DeliverKeepsMatches(v: View, i: nat)
    requires MapsMatch(v) && ConnsMatch(v.st, v.conns) && ChansMatch(v.st, v.chans) && Enabled(v.st, Deliver(i))
    ensures var st' := Apply(v.st, Deliver(i));
      MapsMatch(v.(st := st')) && ConnsMatch(st', v.conns) && ChansMatch(st', v.chans)
  {
  }

  lemma DeliverShows(v: View, i: nat)
    requires Linked(v) && i < |v.st.sessions| && v.st.sessions[i].pc.Delivering?
    ensures Enabled(v.st, Deliver(i))
    ensures
      var st', pc := Apply(v.st, Deliver(i)), v.st.sessions[i].pc;
      && v.st.calls[pc.call].slot == None && SameSends(v.st, st')
      && SlotsBut(v.st, st', pc.call, Some(pc.result)) && Linked(v.(st := st'))
    ensures ChanIsAlone(v, v.st.sessions[i].pc.call)
  {
    DeliveryNeverBlocks(v.st, i);
    StepReaches(v.st, Deliver(i));
    DeliverKeepsMatches(v, i);
  }

  lemma IssueKeepsMaps(v: View, ch: ResultChannel, c: nat, id: CommandId)
    requires MapsMatch(v) && Enabled(v.st, Issue(c, id)) && c !in v.chans
    ensures MapsMatch(v.(pending := v.pending[id := ch], st := Apply(v.st, Issue(c, id)), chans := v.chans[c := ch]))
  {
  }

  lemma IssueKeepsChans(st: State, chans: map<nat, ResultChannel>, ch: ResultChannel, c: nat, id: CommandId)
    requires ChansMatch(st, chans) && Enabled(st, Issue(c, id)) && forall d :: d in chans ==> chans[d] != ch
    ensures c !in chans && ChansMatch(Apply(st, Issue(c, id)), chans[c := ch])
    ensures Apply(st, Issue(c, id)).sessions == st.sessions && SameSlots(st, Apply(st, Issue(c, id)))
  {
  }

  lemma IssueShows(v: View, ch: ResultChannel, c: nat, id: CommandId)
    requires Linked(v) && Enabled(v.st, Issue(c, id)) && forall d :: d in v.chans ==> v.chans[d] != ch
    ensures
      var st' := Apply(v.st, Issue(c, id));
      && c !in v.chans && v.st.calls[c].slot == None && SameSends(v.st, st') && SameSlots(v.st, st')
      && Linked(v.(pending := v.pending[id := ch], st := st', chans := v.chans[c := ch]))
  {
    FreshSlotIsEmpty(v.st, c);
    StepReaches(v.st, Issue(c, id));
    IssueKeepsChans(v.st, v.chans, ch, c, id);
    IssueKeepsMaps(v, ch, c, id);
  }

  lemma EnqueueKeepsMatches(v: View, c: nat)
    requires MapsMatch(v) && ConnsMatch(v.st, v.conns) && ChansMatch(v.st, v.chans) && Enabled(v.st, Enqueue(c))
    ensures var st' := Apply(v.st, Enqueue(c));
      MapsMatch(v.(st := st')) && ConnsMatch(st', v.conns) && ChansMatch(st', v.chans)
  {
  }

  lemma EnqueueAdds(st: State, c: nat)
    requires Enabled(st, Enqueue(c))
    ensures
      var st', i := Apply(st, Enqueue(c)), st.calls[c].session;
      SendsBut(st, st', i, st.sessions[i].send + [CommandOf(st.calls[c])]) && SameSlots(st, st')
  {
  }

  /** The queue has room exactly when the enqueue is enabled. */
  lemma EnqueueShows(v: View, c: nat)
    requires Linked(v) && c < |v.st.calls| && v.st.calls[c].pc == Issued && v.st.calls[c].session in v.conns
    ensures v.st.calls[c].session < |v.st.sessions| && ConnIsAlone(v, v.st.calls[c].session)
    ensures Enabled(v.st, Enqueue(c)) <==> |v.st.sessions[v.st.calls[c].session].send| < SEND_CAPACITY
    ensures Enabled(v.st, Enqueue(c)) ==>
              var st', i := Apply(v.st, Enqueue(c)), v.st.calls[c].session;
              && SendsBut(v.st, st', i, v.st.sessions[i].send + [CommandOf(v.st.calls[c])]) && SameSlots(v.st, st')
              && Linked(v.(st := st'))
  {
    hide Apply, MapsMatch, ChansMatch;
    if Enabled(v.st, Enqueue(c)) {
      StepReaches(v.st, Enqueue(c));
      EnqueueAdds(v.st, c);
      EnqueueKeepsMatches(v, c);
    }
  }

  lemma LookupShows(v: View, server: ServerId, payload: Payload)
    requires Linked(v)
    ensures
      var st' := Apply(v.st, Lookup(server, payload));
      && st'.sessions == v.st.sessions && v.st.calls <= st'.calls && |st'.calls| == |v.st.calls| + 1
      && !Numbered(st'.calls[|v.st.calls|]) && Linked(v.(st := st'))
  {
    StepReaches(v.st, Lookup(server, payload));
  }

  lemma ResultShows(v: View, c: nat)
    requires Linked(v) && Enabled(v.st, TakeResult(c))
    ensures
      var st' := Apply(v.st, TakeResult(c));
      && v.st.calls[c].slot.Some? && SlotsBut(v.st, st', c, None) && SameSends(v.st, st')
      && st'.calls[c].pc == Returned(Answered(v.st.calls[c].slot.value)) && Linked(v.(st := st'))
    ensures ChanIsAlone(v, c)
  {
    StepReaches(v.st, TakeResult(c));
  }

  lemma CleanupKeepsMaps(v: View, c: nat)
    requires MapsMatch(v) && Enabled(v.st, Cleanup(c))
    ensures MapsMatch(v.(pending := v.pending - {v.st.calls[c].id}, st := Apply(v.st, Cleanup(c))))
    ensures SameObjects(v.st, Apply(v.st, Cleanup(c)))
  {
  }

  lemma CleanupShows(v: View, c: nat)
    requires Linked(v) && Enabled(v.st, Cleanup(c))
    ensures
      var st' := Apply(v.st, Cleanup(c));
      SameObjects(v.st, st') && Linked(v.(pending := v.pending - {v.st.calls[c].id}, st := st'))
  {
    hide Apply, MapsMatch, ConnsMatch, ChansMatch, SameObjects;
    StepReaches(v.st, Cleanup(c));
    CleanupKeepsMaps(v, c);
    SameObjectsKeepMatches(v.st, Apply(v.st, Cleanup(c)), v.conns, v.chans);
  }

  // ---------------------------------------------------------------- steps elsewhere

  lemma AgentKeepsObjects(s: Session, a: AgentAct)
    requires AgentEnabled(s, a)
    ensures SameSession(s, AgentApply(s, a))
  {
  }

  lemma ServerKeepsObjects(s: Session, b: ServerAct)
    requires Greeting(s) && ServerEnabled(s, b) && !b.TakeOutbound?
    ensures SameSession(s, ServerApply(s, b))
  {
  }

  lemma SessionStepKeepsObjects(st: State, l: Label)
    requires Reachable(st) && Enabled(st, l)
    requires l.ByAgent? || l.Break? || (l.ByServer? && !l.b.TakeOutbound?)
    ensures Apply(st, l) == st.(sessions := Apply(st, l).sessions) && |Apply(st, l).sessions| == |st.sessions|
    ensures SameObjects(st, Apply(st, l))
  {
    SessionFacts(st, l.i);
    match l
    case ByAgent(i, a) => AgentKeepsObjects(st.sessions[i], a);
    case ByServer(i, b) => ServerKeepsObjects(st.sessions[i], b);
    case _ =>
  }

  lemma OtherStepKeepsObjects(st: State, l: Label)
    requires Enabled(st, l) && (l.Open? || l.Fire? || l.TakeTimeout?)
    ensures Apply(st, l) == st.(sessions := Apply(st, l).sessions, calls := Apply(st, l).calls)
    ensures SameObjects(st, Apply(st, l))
  {
  }

  lemma ElsewhereShows(v: View, l: Label)
    requires Linked(v) && Enabled(v.st, l) && Elsewhere(l)
    ensures SameObjects(v.st, Apply(v.st, l)) && Linked(v.(st := Apply(v.st, l)))
  {
    StepReaches(v.st, l);
    if l.Open? || l.Fire? || l.TakeTimeout? {
      OtherStepKeepsObjects(v.st, l);
    } else {
      SessionStepKeepsObjects(v.st, l);
    }
    SameObjectsKeepMatches(v.st, Apply(v.st, l), v.conns, v.chans);
  }
}
