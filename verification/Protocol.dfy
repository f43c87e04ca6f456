/** The command protocol between the control plane and its agents, as a labelled
transition system.

Every mutex section, channel operation and stream operation of the code is one step.
A label carries all the nondeterminism of its step, so `Apply` is a function and a run
is a list of labels. Fields under "history" are never read by `Enabled` and never
influence the other fields: they only record what has happened. */
module Protocol {
  import opened Messages
  import opened Dispatcher

  const SEND_CAPACITY := 32

  /** The eight slots of a `recv` channel, plus the message its reader goroutine holds
      while the channel is full. */
  const RECV_CAPACITY := 9

  // ---------------------------------------------------------------- callers

  datatype Answer = NotConnected | Answered(result: CommandResult) | TimedOut

  /** Where a call of `SendCommand` stands. */
  datatype CallPc =
    | LookedUp                  // holds the session it found in `agents`
    | Issued                    // pending entry inserted, blocked on or about to enqueue
    | Waiting(fired: bool)      // enqueued; `fired` once the deadline has passed
    | Expired                   // took the deadline branch, about to delete its entry
    | Returned(answer: Answer)

  datatype Call = Call(
    server: ServerId,
    payload: Payload,
    session: nat,
    id: CommandId,
    pc: CallPc,
    slot: Option<CommandResult>,  // the one-slot result channel
    // history
    claimed: bool,                // some session loop removed the pending entry
    sends: nat)                   // sends ever made on the result channel

  /** The call found a session. */
  predicate Bound(k: Call) { k.pc != Returned(NotConnected) }

  /** The call has been given its command identifier. */
  predicate Numbered(k: Call) { Bound(k) && !k.pc.LookedUp? }

  /** The command has been put on the session's queue. */
  predicate HasEnqueued(k: Call) { Numbered(k) && !k.pc.Issued? }

  function CommandOf(k: Call): Command { Command(k.id, k.payload) }

  // ---------------------------------------------------------------- sessions

  /** Where `Connect` stands on the server. */
  datatype ServerPc =
    | AwaitingRegister
    | Authenticating(token: string, hostname: string)
    | Accepting
    | Rejecting
    | Registering
    | Selecting
    | Sending(cmd: Command)                            // took a command off `send`
    | Delivering(call: nat, result: CommandResult)     // claimed a pending entry
    | Exiting                                          // loop left, unregister still to run
    | Closed

  /** Where one connection of the agent stands. `Misrouted` is the branch
      "expected RegisterResponse". */
  datatype AgentPc = Dialed | AwaitingReply | InSession | Misrouted | Ended

  datatype Execution = Execution(cmd: Command, outcome: Option<string>)

  datatype Session = Session(
    agent: nat,
    modules: Modules,
    serverId: ServerId,
    // server side
    pc: ServerPc,
    send: seq<Command>,
    recv: seq<AgentMessage>,
    // the stream
    up: seq<AgentMessage>,
    down: seq<ServerMessage>,
    broken: bool,
    // agent side
    conn: AgentPc,
    inbox: seq<ServerMessage>,
    running: seq<Command>,
    // history
    registered: bool,              // `registerAgent` has run
    enqueued: seq<Command>,        // everything ever put on `send`
    handed: seq<Command>,          // everything ever given to `handleCommand`
    dropped: seq<Command>,         // commands lost with the stream
    executed: seq<Execution>,      // handlers that have returned, in order
    settled: seq<AgentMessage>,    // messages to the server delivered, discarded or lost
    sent: seq<ServerMessage>,      // everything the server sent without an error
    received: seq<ServerMessage>)  // everything the agent took off the stream

  function NewSession(agent: nat, modules: Modules): Session {
    Session(agent, modules, "", AwaitingRegister, [], [], [], [], false, Dialed, [], [],
            false, [], [], [], [], [], [], [])
  }

  predicate InLoop(pc: ServerPc) { pc.Selecting? || pc.Sending? || pc.Delivering? }

  /** Registered, and the deferred unregister has not run. */
  predicate Listed(s: Session) { InLoop(s.pc) || s.pc.Exiting? }

  function Cmds(ms: seq<ServerMessage>): seq<Command> {
    if ms == [] then []
    else (if ms[0].CommandMessage? then [ms[0].cmd] else []) + Cmds(ms[1..])
  }

  /** How often an identifier occurs in a list of commands. */
  function Count(cs: seq<Command>, id: CommandId): nat {
    if cs == [] then 0 else (if cs[0].id == id then 1 else 0) + Count(cs[1..], id)
  }

  /** How often an identifier occurs among the results in a list of messages. */
  function Results(ms: seq<AgentMessage>, id: CommandId): nat {
    if ms == [] then 0
    else (if ms[0].ResultMessage? && ms[0].result.id == id then 1 else 0) + Results(ms[1..], id)
  }

  /** Steps of the agent's end of one session. */
  datatype AgentAct =
    | SendRegister(token: string, hostname: string)
    | RecvReply
    | AgentRead
    | Hand
    | Finish(k: nat, outcome: Option<string>)
    | SendHeartbeat(metrics: string)
    | AgentEnd
    | Forge(msg: AgentMessage)       // an agent that does not run this code

  predicate AgentEnabled(s: Session, a: AgentAct) {
    match a
    case SendRegister(_, _) => s.conn == Dialed
    case RecvReply => s.conn == AwaitingReply && s.down != []
    case AgentRead => s.conn == InSession && s.down != [] && |s.inbox| < RECV_CAPACITY
    case Hand => s.conn == InSession && s.inbox != []
    case Finish(k, _) => k < |s.running|
    case SendHeartbeat(_) => s.conn == InSession && !s.broken
    case AgentEnd => s.conn in {Dialed, AwaitingReply, InSession}
    case Forge(_) => !s.broken
  }

  function AgentApply(s: Session, a: AgentAct): Session
    requires AgentEnabled(s, a)
  {
    match a
    case SendRegister(t, h) =>
      if s.broken then s.(conn := Ended)
      else s.(conn := AwaitingReply, up := s.up + [RegisterRequest(t, h)])
    case RecvReply =>
      var s' := s.(down := s.down[1..], received := s.received + [s.down[0]]);
      (match s.down[0]
       case RegisterResponse(true, _) => s'.(conn := InSession)
       case RegisterResponse(false, _) => s'.(conn := Ended, broken := true)
       case CommandMessage(_) => s'.(conn := Misrouted, broken := true))
    case AgentRead =>
      s.(down := s.down[1..], received := s.received + [s.down[0]], inbox := s.inbox + [s.down[0]])
    case Hand =>
      var s' := s.(inbox := s.inbox[1..]);
      (match s.inbox[0]
       case CommandMessage(cmd) => s'.(handed := s.handed + [cmd], running := s.running + [cmd])
       case RegisterResponse(_, _) => s')
    case Finish(k, outcome) =>
      var cmd := s.running[k];
      var msg := ResultMessage(Dispatch(s.modules, cmd, outcome));
      var s' := s.(running := s.running[..k] + s.running[k + 1..],
                   executed := s.executed + [Execution(cmd, outcome)]);
      if s.broken then s'.(settled := s.settled + [msg]) else s'.(up := s.up + [msg])
    case SendHeartbeat(metrics) => s.(up := s.up + [Heartbeat(metrics)])
    case AgentEnd => s.(conn := Ended, broken := true)
    case Forge(msg) => s.(up := s.up + [msg])
  }

  /** Steps of the server's end of one session that touch nothing shared. */
  datatype ServerAct =
    | RecvFirst
    | FirstRecvFails
    | Authenticate(verdict: Option<ServerId>)
    | SendReject
    | SendAccept
    | ServerRead
    | TakeOutbound
    | SendOutbound
    | SendLost                       // a send that succeeds although the stream is gone
    | TakeOther
    | LoopExit

  predicate ServerEnabled(s: Session, a: ServerAct) {
    match a
    case RecvFirst => s.pc == AwaitingRegister && s.up != []
    case FirstRecvFails => s.pc == AwaitingRegister && s.broken && s.up == []
    case Authenticate(verdict) => s.pc.Authenticating? && (s.pc.token == "" ==> verdict == None)
    case SendReject => s.pc == Rejecting
    case SendAccept => s.pc == Accepting
    case ServerRead => InLoop(s.pc) && s.up != [] && |s.recv| < RECV_CAPACITY
    case TakeOutbound => s.pc == Selecting && s.send != []
    case SendOutbound => s.pc.Sending?
    case SendLost => s.broken && (s.pc == Accepting || s.pc.Sending?)
    case TakeOther => s.pc == Selecting && s.recv != [] && !s.recv[0].ResultMessage?
    case LoopExit => s.pc == Selecting && s.broken
  }

  function ServerApply(s: Session, a: ServerAct): Session
    requires ServerEnabled(s, a)
  {
    match a
    case RecvFirst =>
      var s' := s.(up := s.up[1..], settled := s.settled + [s.up[0]]);
      (match s.up[0]
       case RegisterRequest(t, h) => s'.(pc := Authenticating(t, h))
       case _ => s'.(pc := Closed))
    case FirstRecvFails => s.(pc := Closed)
    case Authenticate(None) => s.(pc := Rejecting)
    case Authenticate(Some(id)) => s.(pc := Accepting, serverId := id)
    case SendReject => Post(s, RegisterResponse(false, "")).(pc := Closed)
    case SendAccept =>
      if s.broken then s.(pc := Closed)
      else Post(s, RegisterResponse(true, s.serverId)).(pc := Registering)
    case ServerRead => s.(up := s.up[1..], recv := s.recv + [s.up[0]])
    case TakeOutbound => s.(pc := Sending(s.send[0]), send := s.send[1..])
    case SendOutbound =>
      if s.broken then s.(pc := Exiting, dropped := s.dropped + [s.pc.cmd])
      else Post(s, CommandMessage(s.pc.cmd)).(pc := Selecting)
    case SendLost =>
      if s.pc == Accepting then s.(sent := s.sent + [RegisterResponse(true, s.serverId)], pc := Registering)
      else s.(sent := s.sent + [CommandMessage(s.pc.cmd)], dropped := s.dropped + [s.pc.cmd], pc := Selecting)
    case TakeOther => s.(recv := s.recv[1..], settled := s.settled + [s.recv[0]])
    case LoopExit => s.(pc := Exiting)
  }

  /** `stream.Send` on the server: nothing reaches a broken stream. The send on one may
      report an error (here) or not yet (`SendLost`), as long as the loss goes unnoticed. */
  function Post(s: Session, msg: ServerMessage): Session {
    if s.broken then s else s.(down := s.down + [msg], sent := s.sent + [msg])
  }

  /** The transport fails: some suffix of each direction is lost. */
  function Cut(s: Session, keepUp: nat, keepDown: nat): Session
    requires keepUp <= |s.up| && keepDown <= |s.down|
  {
    s.(broken := true,
       up := s.up[..keepUp], settled := s.settled + s.up[keepUp..],
       down := s.down[..keepDown], dropped := Cmds(s.down[keepDown..]) + s.dropped)
  }

  // ---------------------------------------------------------------- the registry's mutex sections

  function RegisterSpec(agents: map<ServerId, nat>, id: ServerId, session: nat): map<ServerId, nat> {
    agents[id := session]
  }

  /** `unregisterAgent` deletes by server identifier, whichever session the entry names. */
  function UnregisterSpec(agents: map<ServerId, nat>, id: ServerId): map<ServerId, nat> {
    agents - {id}
  }

  function InsertSpec(pending: map<CommandId, nat>, id: CommandId, call: nat): map<CommandId, nat> {
    pending[id := call]
  }

  function DeleteSpec(pending: map<CommandId, nat>, id: CommandId): map<CommandId, nat> {
    pending - {id}
  }

  // ---------------------------------------------------------------- the whole system

  datatype State = State(
    calls: seq<Call>,
    sessions: seq<Session>,
    agents: map<ServerId, nat>,
    pending: map<CommandId, nat>,     // command -> the call owning the result channel
    // history
    issuedBy: map<CommandId, nat>)    // every identifier ever drawn, and the call that drew it

  const INIT := State([], [], map[], map[], map[])

  datatype Label =
    | Open(agent: nat, modules: Modules)
    | ByAgent(i: nat, a: AgentAct)
    | ByServer(i: nat, b: ServerAct)
    | Break(i: nat, keepUp: nat, keepDown: nat)
    | Register(i: nat)
    | Unregister(i: nat)
    | Claim(i: nat)
    | Deliver(i: nat)
    | Lookup(server: ServerId, payload: Payload)
    | Issue(c: nat, id: CommandId)
    | Enqueue(c: nat)
    | Fire(c: nat)
    | TakeResult(c: nat)
    | TakeTimeout(c: nat)
    | Cleanup(c: nat)

  predicate Honest(l: Label) { !(l.ByAgent? && l.a.Forge?) }

  predicate Enabled(st: State, l: Label) {
    match l
    case Open(agent, _) =>
      forall i | 0 <= i < |st.sessions| :: st.sessions[i].agent == agent ==> st.sessions[i].conn in {Ended, Misrouted}
    case ByAgent(i, a) => i < |st.sessions| && AgentEnabled(st.sessions[i], a)
    case ByServer(i, b) => i < |st.sessions| && ServerEnabled(st.sessions[i], b)
    case Break(i, keepUp, keepDown) =>
      i < |st.sessions| && keepUp <= |st.sessions[i].up| && keepDown <= |st.sessions[i].down|
    case Register(i) => i < |st.sessions| && st.sessions[i].pc == Registering
    case Unregister(i) => i < |st.sessions| && st.sessions[i].pc == Exiting
    case Claim(i) =>
      i < |st.sessions| && st.sessions[i].pc == Selecting
      && st.sessions[i].recv != [] && st.sessions[i].recv[0].ResultMessage?
    case Deliver(i) =>
      i < |st.sessions| && st.sessions[i].pc.Delivering?
      && st.sessions[i].pc.call < |st.calls| && st.calls[st.sessions[i].pc.call].slot == None
    case Lookup(_, _) => true
    case Issue(c, id) => c < |st.calls| && st.calls[c].pc == LookedUp && id !in st.issuedBy
    case Enqueue(c) =>
      c < |st.calls| && st.calls[c].pc == Issued
      && st.calls[c].session < |st.sessions| && |st.sessions[st.calls[c].session].send| < SEND_CAPACITY
    case Fire(c) => c < |st.calls| && st.calls[c].pc == Waiting(false)
    case TakeResult(c) => c < |st.calls| && st.calls[c].pc.Waiting? && st.calls[c].slot.Some?
    case TakeTimeout(c) => c < |st.calls| && st.calls[c].pc == Waiting(true)
    case Cleanup(c) => c < |st.calls| && st.calls[c].pc == Expired
  }

  function WithSession(st: State, i: nat, s: Session): State
    requires i < |st.sessions|
  {
    st.(sessions := st.sessions[i := s])
  }

  function WithCall(st: State, c: nat, k: Call): State
    requires c < |st.calls|
  {
    st.(calls := st.calls[c := k])
  }

  function Apply(st: State, l: Label): State
    requires Enabled(st, l)
  {
    match l
    case Open(agent, modules) => st.(sessions := st.sessions + [NewSession(agent, modules)])
    case ByAgent(i, a) => WithSession(st, i, AgentApply(st.sessions[i], a))
    case ByServer(i, b) => WithSession(st, i, ServerApply(st.sessions[i], b))
    case Break(i, keepUp, keepDown) => WithSession(st, i, Cut(st.sessions[i], keepUp, keepDown))
    case Register(i) =>
      var s := st.sessions[i];
      WithSession(st, i, s.(pc := Selecting, registered := true)).(agents := RegisterSpec(st.agents, s.serverId, i))
    case Unregister(i) =>
      var s := st.sessions[i];
      WithSession(st, i, s.(pc := Closed)).(agents := UnregisterSpec(st.agents, s.serverId))
    case Claim(i) =>
      // The bound on the entry makes the step total; it holds in every reachable state.
      var s := st.sessions[i];
      var r := s.recv[0].result;
      if r.id in st.pending && st.pending[r.id] < |st.calls| then
        var c := st.pending[r.id];
        WithCall(WithSession(st, i, s.(recv := s.recv[1..], pc := Delivering(c, r))), c, st.calls[c].(claimed := true))
        .(pending := DeleteSpec(st.pending, r.id))
      else
        WithSession(st, i, s.(recv := s.recv[1..], settled := s.settled + [s.recv[0]]))
    case Deliver(i) =>
      var s := st.sessions[i];
      var c := s.pc.call;
      WithCall(WithSession(st, i, s.(pc := Selecting, settled := s.settled + [ResultMessage(s.pc.result)])),
               c, st.calls[c].(slot := Some(s.pc.result), sends := st.calls[c].sends + 1))
    case Lookup(server, payload) =>
      var k := if server in st.agents then Call(server, payload, st.agents[server], 0, LookedUp, None, false, 0)
               else Call(server, payload, 0, 0, Returned(NotConnected), None, false, 0);
      st.(calls := st.calls + [k])
    case Issue(c, id) =>
      WithCall(st, c, st.calls[c].(id := id, pc := Issued))
      .(pending := InsertSpec(st.pending, id, c), issuedBy := st.issuedBy[id := c])
    case Enqueue(c) =>
      var k := st.calls[c];
      var s := st.sessions[k.session];
      WithCall(WithSession(st, k.session, s.(send := s.send + [CommandOf(k)], enqueued := s.enqueued + [CommandOf(k)])),
               c, k.(pc := Waiting(false)))
    case Fire(c) => WithCall(st, c, st.calls[c].(pc := Waiting(true)))
    case TakeResult(c) =>
      WithCall(st, c, st.calls[c].(pc := Returned(Answered(st.calls[c].slot.value)), slot := None))
    case TakeTimeout(c) => WithCall(st, c, st.calls[c].(pc := Expired))
    case Cleanup(c) =>
      WithCall(st, c, st.calls[c].(pc := Returned(TimedOut))).(pending := DeleteSpec(st.pending, st.calls[c].id))
  }

  // ---------------------------------------------------------------- runs

  predicate CanRun(st: State, ls: seq<Label>)
    decreases |ls|
  {
    ls == [] || (Enabled(st, ls[0]) && CanRun(Apply(st, ls[0]), ls[1..]))
  }

  function After(st: State, ls: seq<Label>): State
    requires CanRun(st, ls)
    decreases |ls|
  {
    if ls == [] then st else After(Apply(st, ls[0]), ls[1..])
  }

  predicate AllHonest(ls: seq<Label>) {
    forall n | 0 <= n < |ls| :: Honest(ls[n])
  }

  ghost predicate Reachable(st: State) {
    exists ls :: CanRun(INIT, ls) && After(INIT, ls) == st
  }

  /** Reached by steps of agents that run this repository's agent code. */
  ghost predicate HonestlyReaches(st: State, st': State) {
    exists ls :: AllHonest(ls) && CanRun(st, ls) && After(st, ls) == st'
  }

  ghost predicate HonestlyReachable(st: State) { HonestlyReaches(INIT, st) }

  lemma {:induction false} RunsCompose(st: State, a: seq<Label>, b: seq<Label>)
    requires CanRun(st, a) && CanRun(After(st, a), b)
    ensures CanRun(st, a + b) && After(st, a + b) == After(After(st, a), b)
    decreases |a|
  {
    if a == [] {
      assert a + b == b;
    } else {
      assert (a + b)[1..] == a[1..] + b;
      RunsCompose(Apply(st, a[0]), a[1..], b);
    }
  }

  lemma RunOfOne(st: State, l: Label)
    requires Enabled(st, l)
    ensures CanRun(st, [l]) && After(st, [l]) == Apply(st, l)
  {
    var ls := [l];
    var rest := ls[1..];
    assert rest == [];
    assert CanRun(Apply(st, l), rest) && After(Apply(st, l), rest) == Apply(st, l);
    assert ls[0] == l;
  }

  lemma RunsOfThree(st: State, k: Label, l: Label, m: Label)
    requires Enabled(st, k) && Enabled(Apply(st, k), l) && Enabled(Apply(Apply(st, k), l), m)
    ensures CanRun(st, [k, l, m]) && After(st, [k, l, m]) == Apply(Apply(Apply(st, k), l), m)
  {
    var a := Apply(st, k);
    RunOfOne(st, k);
    RunOfOne(a, l);
    RunOfOne(Apply(a, l), m);
    RunsCompose(a, [l], [m]);
    RunsCompose(st, [k], [l] + [m]);
    assert [k] + ([l] + [m]) == [k, l, m];
  }

  lemma HonestlyExtends(st: State, mid: State, ls: seq<Label>)
    requires HonestlyReaches(st, mid) && AllHonest(ls) && CanRun(mid, ls)
    ensures HonestlyReaches(st, After(mid, ls))
  {
    var a :| AllHonest(a) && CanRun(st, a) && After(st, a) == mid;
    RunsCompose(st, a, ls);
    assert AllHonest(a + ls);
  }

  lemma HonestlySteps(st: State, mid: State, l: Label)
    requires HonestlyReaches(st, mid) && Honest(l) && Enabled(mid, l)
    ensures HonestlyReaches(st, Apply(mid, l))
  {
    RunOfOne(mid, l);
    HonestlyExtends(st, mid, [l]);
  }

  lemma HonestlyStays(st: State)
    ensures HonestlyReaches(st, st)
  {
    assert AllHonest([]) && CanRun(st, []) && After(st, []) == st;
  }
}
