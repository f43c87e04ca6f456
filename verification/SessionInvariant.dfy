/** What one session keeps through each of its own steps, whatever the other sessions
and the callers do. The first two groups hold for any agent; the last one needs an
agent that runs this repository's code. */
module SessionInvariant {
  import opened Messages
  import opened Dispatcher
  import opened Protocol

  // ---------------------------------------------------------------- bags and filters

  lemma {:induction false} CmdsOfConcat(a: seq<ServerMessage>, b: seq<ServerMessage>)
    ensures Cmds(a + b) == Cmds(a) + Cmds(b)
  {
    if a == [] {
      assert a + b == b;
    } else {
      var head := if a[0].CommandMessage? then [a[0].cmd] else [];
      assert (a + b)[1..] == a[1..] + b;
      CmdsOfConcat(a[1..], b);
      assert head + (Cmds(a[1..]) + Cmds(b)) == (head + Cmds(a[1..])) + Cmds(b);
    }
  }

  lemma {:induction false} CmdsSplit(ms: seq<ServerMessage>, k: nat)
    requires k <= |ms|
    ensures Cmds(ms) == Cmds(ms[..k]) + Cmds(ms[k..])
  {
    assert ms == ms[..k] + ms[k..];
    CmdsOfConcat(ms[..k], ms[k..]);
  }

  lemma {:induction false} CountOfConcat(a: seq<Command>, b: seq<Command>, id: CommandId)
    ensures Count(a + b, id) == Count(a, id) + Count(b, id)
  {
    if a == [] {
      assert a + b == b;
    } else {
      assert (a + b)[1..] == a[1..] + b;
      CountOfConcat(a[1..], b, id);
    }
  }

  lemma {:induction false} ResultsOfConcat(a: seq<AgentMessage>, b: seq<AgentMessage>, id: CommandId)
    ensures Results(a + b, id) == Results(a, id) + Results(b, id)
  {
    if a == [] {
      assert a + b == b;
    } else {
      assert (a + b)[1..] == a[1..] + b;
      ResultsOfConcat(a[1..], b, id);
    }
  }

  /** Taking one command out of a list takes one occurrence of its identifier with it. */
  lemma CountOfRemoval(cs: seq<Command>, k: nat, id: CommandId)
    requires k < |cs|
    ensures Count(cs, id) == Count(cs[..k] + cs[k + 1..], id) + Count([cs[k]], id)
  {
    assert cs == cs[..k] + ([cs[k]] + cs[k + 1..]);
    CountOfConcat(cs[..k], [cs[k]] + cs[k + 1..], id);
    CountOfConcat([cs[k]], cs[k + 1..], id);
    CountOfConcat(cs[..k], cs[k + 1..], id);
  }

  /** How often a command was executed. */
  function Executed(es: seq<Execution>, id: CommandId): nat {
    if es == [] then 0 else (if es[0].cmd.id == id then 1 else 0) + Executed(es[1..], id)
  }

  lemma {:induction false} ExecutedOfConcat(a: seq<Execution>, b: seq<Execution>, id: CommandId)
    ensures Executed(a + b, id) == Executed(a, id) + Executed(b, id)
  {
    if a == [] {
      assert a + b == b;
    } else {
      assert (a + b)[1..] == a[1..] + b;
      ExecutedOfConcat(a[1..], b, id);
    }
  }

  // ---------------------------------------------------------------- handshake

  predicate Unregistered(pc: ServerPc) {
    pc.AwaitingRegister? || pc.Authenticating? || pc.Accepting? || pc.Rejecting? || pc.Registering?
  }

  /** What the server puts on a stream: one reply first, and after a refusal nothing. */
  ghost predicate Greeting(s: Session) {
    && (Unregistered(s.pc) ==> !s.registered)
    && (Unregistered(s.pc) && !s.pc.Registering? ==> s.sent == [])
    && (s.pc.Registering? || Listed(s) ==> s.sent != [] && s.sent[0] == RegisterResponse(true, s.serverId))
    && (Listed(s) ==> s.registered)
    && (s.sent != [] ==> s.sent[0].RegisterResponse?)
    && (forall n :: 0 < n < |s.sent| ==> s.sent[n].CommandMessage?)
    && (s.sent != [] && !s.sent[0].accepted ==> s.pc == Closed && |s.sent| == 1 && !s.registered)
    && (s.registered ==> s.sent != [] && s.sent[0] == RegisterResponse(true, s.serverId))
    && (!s.registered ==> |s.sent| <= 1)
  }

  /** What the agent has taken off the stream, and where that leaves its connection. */
  ghost predicate Receipt(s: Session) {
    && s.received + s.down <= s.sent
    && (!s.broken ==> s.received + s.down == s.sent)
    && (s.conn in {Dialed, AwaitingReply} ==> s.received == [])
    && (s.conn == InSession ==> s.received != [] && s.received[0].RegisterResponse? && s.received[0].accepted)
    && s.conn != Misrouted
  }

  /** Only the server's own steps move its end of the handshake. */
  lemma GreetingReads(s: Session, s': Session)
    requires Greeting(s)
    requires s'.pc == s.pc && s'.sent == s.sent && s'.serverId == s.serverId && s'.registered == s.registered
    ensures Greeting(s')
  {
  }

  lemma AgentKeepsReceipt(s: Session, a: AgentAct)
    requires Greeting(s) && Receipt(s) && AgentEnabled(s, a)
    ensures Receipt(AgentApply(s, a))
  {
    var s' := AgentApply(s, a);
    if a.RecvReply? || a.AgentRead? {
      assert s.down[0] == (s.received + s.down)[|s.received|];
      assert s'.received + s'.down == s.received + s.down;
    }
  }

  lemma ServerKeepsGreeting(s: Session, b: ServerAct)
    requires Greeting(s) && ServerEnabled(s, b)
    ensures Greeting(ServerApply(s, b))
  {
  }

  lemma ServerKeepsReceipt(s: Session, b: ServerAct)
    requires Receipt(s) && ServerEnabled(s, b)
    ensures Receipt(ServerApply(s, b))
  {
    var s' := ServerApply(s, b);
    if b.SendLost? {
      assert s.sent <= s'.sent;
    } else if s'.sent != s.sent {
      assert s'.received + s'.down == (s.received + s.down) + [s'.sent[|s.sent|]];
    }
  }

  lemma CutKeepsReceipt(s: Session, keepUp: nat, keepDown: nat)
    requires Receipt(s) && keepUp <= |s.up| && keepDown <= |s.down|
    ensures Receipt(Cut(s, keepUp, keepDown))
  {
    assert s.received + s.down[..keepDown] <= s.received + s.down;
  }

  // ---------------------------------------------------------------- commands on their way down

  function InHand(pc: ServerPc): seq<Command> {
    if pc.Sending? then [pc.cmd] else []
  }

  /** Everything ever enqueued, in order: what has been handed to a handler, then what is
      still on its way there, with at most one gap where the stream was cut. */
  ghost predicate InOrder(s: Session) {
    && s.handed + Cmds(s.inbox) + Cmds(s.down) + s.dropped + InHand(s.pc) + s.send == s.enqueued
    && (s.dropped != [] ==> s.broken)
    && |s.send| <= SEND_CAPACITY && |s.inbox| <= RECV_CAPACITY && |s.recv| <= RECV_CAPACITY
  }

  /** The fields `InOrder` reads, other than the capacities. */
  predicate SameOrder(s: Session, s': Session) {
    && s'.handed == s.handed && s'.inbox == s.inbox && s'.down == s.down && s'.dropped == s.dropped
    && InHand(s'.pc) == InHand(s.pc) && s'.send == s.send && s'.enqueued == s.enqueued
    && (s.broken ==> s'.broken) && |s'.recv| <= RECV_CAPACITY
  }

  lemma SameOrderKeeps(s: Session, s': Session)
    requires InOrder(s) && SameOrder(s, s')
    ensures InOrder(s')
  {
  }

  lemma ReadKeepsOrder(s: Session)
    requires InOrder(s) && AgentEnabled(s, AgentRead)
    ensures InOrder(AgentApply(s, AgentRead))
  {
    var m := s.down[0];
    CmdsOfConcat(s.inbox, [m]);
    assert Cmds(s.down) == Cmds([m]) + Cmds(s.down[1..]);
    assert s.handed + Cmds(s.inbox) + (Cmds([m]) + Cmds(s.down[1..]))
        == s.handed + (Cmds(s.inbox) + Cmds([m])) + Cmds(s.down[1..]);
  }

  lemma HandKeepsOrder(s: Session)
    requires InOrder(s) && AgentEnabled(s, Hand)
    ensures InOrder(AgentApply(s, Hand))
  {
    if s.inbox[0].CommandMessage? {
      var cmd := s.inbox[0].cmd;
      assert s.handed + ([cmd] + Cmds(s.inbox[1..])) == (s.handed + [cmd]) + Cmds(s.inbox[1..]);
    } else {
      assert Cmds(s.inbox) == Cmds(s.inbox[1..]);
    }
  }

  lemma ReplyKeepsOrder(s: Session)
    requires Greeting(s) && Receipt(s) && InOrder(s) && AgentEnabled(s, RecvReply)
    ensures InOrder(AgentApply(s, RecvReply))
  {
    assert s.down[0] == (s.received + s.down)[|s.received|];
    assert Cmds(s.down) == Cmds(s.down[1..]);
  }

  lemma AgentKeepsOrder(s: Session, a: AgentAct)
    requires Greeting(s) && Receipt(s) && InOrder(s) && AgentEnabled(s, a)
    ensures InOrder(AgentApply(s, a))
  {
    if a.AgentRead? {
      ReadKeepsOrder(s);
    } else if a.Hand? {
      HandKeepsOrder(s);
    } else if a.RecvReply? {
      ReplyKeepsOrder(s);
    } else {
      SameOrderKeeps(s, AgentApply(s, a));
    }
  }

  lemma PostKeepsOrder(s: Session, msg: ServerMessage, pc: ServerPc)
    requires InOrder(s) && !s.broken
    requires InHand(s.pc) == Cmds([msg]) && InHand(pc) == []
    ensures InOrder(Post(s, msg).(pc := pc))
  {
    CmdsOfConcat(s.down, [msg]);
    var before := s.handed + Cmds(s.inbox);
    assert before + Cmds(s.down) + [] + Cmds([msg]) == before + (Cmds(s.down) + Cmds([msg])) + [] + [];
  }

  lemma LoseKeepsOrder(s: Session)
    requires InOrder(s) && s.pc.Sending? && s.broken
    ensures InOrder(ServerApply(s, SendOutbound)) && InOrder(ServerApply(s, SendLost))
  {
    var before := s.handed + Cmds(s.inbox) + Cmds(s.down);
    assert before + s.dropped + [s.pc.cmd] + s.send == before + (s.dropped + [s.pc.cmd]) + [] + s.send;
  }

  lemma LostKeepsOrder(s: Session)
    requires InOrder(s) && ServerEnabled(s, SendLost)
    ensures InOrder(ServerApply(s, SendLost))
  {
    if s.pc.Sending? {
      LoseKeepsOrder(s);
    } else {
      SameOrderKeeps(s, ServerApply(s, SendLost));
    }
  }

  lemma TakeKeepsOrder(s: Session)
    requires InOrder(s) && ServerEnabled(s, TakeOutbound)
    ensures InOrder(ServerApply(s, TakeOutbound))
  {
    var before := s.handed + Cmds(s.inbox) + Cmds(s.down) + s.dropped;
    assert before + [] + s.send == before + [s.send[0]] + s.send[1..];
  }

  lemma OutboundKeepsOrder(s: Session)
    requires InOrder(s) && s.pc.Sending?
    ensures InOrder(ServerApply(s, SendOutbound))
  {
    if s.broken {
      LoseKeepsOrder(s);
    } else {
      PostKeepsOrder(s, CommandMessage(s.pc.cmd), Selecting);
    }
  }

  lemma ReplyPostedKeepsOrder(s: Session, b: ServerAct)
    requires InOrder(s) && ServerEnabled(s, b) && (b.SendReject? || b.SendAccept?)
    ensures InOrder(ServerApply(s, b))
  {
    var s' := ServerApply(s, b);
    if s.broken {
      SameOrderKeeps(s, s');
    } else {
      PostKeepsOrder(s, RegisterResponse(b.SendAccept?, if b.SendAccept? then s.serverId else ""), s'.pc);
    }
  }

  lemma ServerKeepsOrder(s: Session, b: ServerAct)
    requires InOrder(s) && ServerEnabled(s, b)
    ensures InOrder(ServerApply(s, b))
  {
    match b
    case TakeOutbound => TakeKeepsOrder(s);
    case SendOutbound => OutboundKeepsOrder(s);
    case SendLost => LostKeepsOrder(s);
    case SendReject => ReplyPostedKeepsOrder(s, b);
    case SendAccept => ReplyPostedKeepsOrder(s, b);
    case _ => SameOrderKeeps(s, ServerApply(s, b));
  }

  lemma CutKeepsOrder(s: Session, keepUp: nat, keepDown: nat)
    requires InOrder(s) && keepUp <= |s.up| && keepDown <= |s.down|
    ensures InOrder(Cut(s, keepUp, keepDown))
  {
    CmdsSplit(s.down, keepDown);
    var before, kept, lost := s.handed + Cmds(s.inbox), Cmds(s.down[..keepDown]), Cmds(s.down[keepDown..]);
    assert before + (kept + lost) + s.dropped == before + kept + (lost + s.dropped);
  }

  lemma EnqueueKeepsOrder(s: Session, cmd: Command)
    requires InOrder(s) && |s.send| < SEND_CAPACITY
    ensures InOrder(s.(send := s.send + [cmd], enqueued := s.enqueued + [cmd]))
  {
  }

  // ---------------------------------------------------------------- handlers

  /** A handed command is running or has been executed, and exactly one of the two. */
  ghost predicate Accounted(s: Session) {
    && (forall id :: Count(s.handed, id) == Count(s.running, id) + Executed(s.executed, id))
    && (forall cmd :: cmd in s.running ==> cmd in s.handed)
    && (forall e :: e in s.executed ==> e.cmd in s.handed)
  }

  lemma FinishKeepsAccounts(s: Session, k: nat, outcome: Option<string>)
    requires Accounted(s) && k < |s.running|
    ensures Accounted(AgentApply(s, Finish(k, outcome)))
  {
    var s' := AgentApply(s, Finish(k, outcome));
    forall id ensures Count(s'.handed, id) == Count(s'.running, id) + Executed(s'.executed, id) {
      CountOfRemoval(s.running, k, id);
      ExecutedOfConcat(s.executed, [Execution(s.running[k], outcome)], id);
    }
  }

  lemma HandKeepsAccounts(s: Session)
    requires Accounted(s) && AgentEnabled(s, Hand)
    ensures Accounted(AgentApply(s, Hand))
  {
    var s' := AgentApply(s, Hand);
    if s.inbox[0].CommandMessage? {
      forall id ensures Count(s'.handed, id) == Count(s'.running, id) + Executed(s'.executed, id) {
        CountOfConcat(s.handed, [s.inbox[0].cmd], id);
        CountOfConcat(s.running, [s.inbox[0].cmd], id);
      }
    }
  }

  lemma AgentKeepsAccounts(s: Session, a: AgentAct)
    requires Accounted(s) && AgentEnabled(s, a)
    ensures Accounted(AgentApply(s, a))
  {
    if a.Finish? {
      FinishKeepsAccounts(s, a.k, a.outcome);
    } else if a.Hand? {
      HandKeepsAccounts(s);
    }
  }

  // ---------------------------------------------------------------- results on their way up

  function InDelivery(pc: ServerPc, id: CommandId): nat {
    if pc.Delivering? && pc.result.id == id then 1 else 0
  }

  /** Each handed command is running, or its one result is somewhere on the way up, or is
      settled. */
  ghost predicate Balanced(s: Session, id: CommandId) {
    Count(s.handed, id) ==
    Count(s.running, id) + Results(s.up, id) + Results(s.recv, id) + InDelivery(s.pc, id) + Results(s.settled, id)
  }

  /** The result was computed by `Dispatch` on a command this session executed. */
  ghost predicate Genuine(s: Session, r: CommandResult) {
    exists e :: e in s.executed && r == Dispatch(s.modules, e.cmd, e.outcome)
  }

  ghost predicate AllGenuine(s: Session) {
    && (forall m :: m in s.up && m.ResultMessage? ==> Genuine(s, m.result))
    && (forall m :: m in s.recv && m.ResultMessage? ==> Genuine(s, m.result))
    && (s.pc.Delivering? ==> Genuine(s, s.pc.result))
  }

  lemma FinishKeepsBalance(s: Session, k: nat, outcome: Option<string>, id: CommandId)
    requires Balanced(s, id) && k < |s.running|
    ensures Balanced(AgentApply(s, Finish(k, outcome)), id)
  {
    var msg := ResultMessage(Dispatch(s.modules, s.running[k], outcome));
    CountOfRemoval(s.running, k, id);
    ResultsOfConcat(s.up, [msg], id);
    ResultsOfConcat(s.settled, [msg], id);
  }

  lemma HandKeepsBalance(s: Session, id: CommandId)
    requires Balanced(s, id) && AgentEnabled(s, Hand)
    ensures Balanced(AgentApply(s, Hand), id)
  {
    if s.inbox[0].CommandMessage? {
      CountOfConcat(s.handed, [s.inbox[0].cmd], id);
      CountOfConcat(s.running, [s.inbox[0].cmd], id);
    }
  }

  predicate SameBalance(s: Session, s': Session) {
    && s'.handed == s.handed && s'.running == s.running && s'.recv == s.recv && s'.settled == s.settled
    && s'.pc.Delivering? == s.pc.Delivering? && (s.pc.Delivering? ==> s'.pc == s.pc)
    && s'.up == s.up
  }

  lemma SameBalanceKeeps(s: Session, s': Session, id: CommandId)
    requires Balanced(s, id) && SameBalance(s, s')
    ensures Balanced(s', id)
  {
  }

  lemma RegisterKeepsBalance(s: Session, token: string, hostname: string, id: CommandId)
    requires Balanced(s, id) && AgentEnabled(s, SendRegister(token, hostname))
    ensures Balanced(AgentApply(s, SendRegister(token, hostname)), id)
  {
    ResultsOfConcat(s.up, [RegisterRequest(token, hostname)], id);
  }

  lemma HeartbeatKeepsBalance(s: Session, metrics: string, id: CommandId)
    requires Balanced(s, id) && AgentEnabled(s, SendHeartbeat(metrics))
    ensures Balanced(AgentApply(s, SendHeartbeat(metrics)), id)
  {
    ResultsOfConcat(s.up, [Heartbeat(metrics)], id);
  }

  lemma ReplyKeepsBalance(s: Session, id: CommandId)
    requires Balanced(s, id) && AgentEnabled(s, RecvReply)
    ensures Balanced(AgentApply(s, RecvReply), id)
  {
    match s.down[0]
    case RegisterResponse(true, _) =>
    case RegisterResponse(false, _) =>
    case CommandMessage(_) =>
  }

  lemma AgentKeepsBalance(s: Session, a: AgentAct, id: CommandId)
    requires Balanced(s, id) && AgentEnabled(s, a) && !a.Forge?
    ensures Balanced(AgentApply(s, a), id)
  {
    match a
    case Finish(k, outcome) => FinishKeepsBalance(s, k, outcome, id);
    case Hand => HandKeepsBalance(s, id);
    case SendRegister(token, hostname) => RegisterKeepsBalance(s, token, hostname, id);
    case SendHeartbeat(metrics) => HeartbeatKeepsBalance(s, metrics, id);
    case RecvReply => ReplyKeepsBalance(s, id);
    case AgentRead =>
    case AgentEnd =>
  }

  lemma RecvFirstKeepsBalance(s: Session, id: CommandId)
    requires Balanced(s, id) && ServerEnabled(s, RecvFirst)
    ensures Balanced(ServerApply(s, RecvFirst), id)
  {
    ResultsOfConcat(s.settled, [s.up[0]], id);
    assert Results([s.up[0]], id) + Results(s.up[1..], id) == Results(s.up, id);
  }

  lemma ReadKeepsBalance(s: Session, id: CommandId)
    requires Balanced(s, id) && ServerEnabled(s, ServerRead)
    ensures Balanced(ServerApply(s, ServerRead), id)
  {
    ResultsOfConcat(s.recv, [s.up[0]], id);
    assert Results([s.up[0]], id) + Results(s.up[1..], id) == Results(s.up, id);
  }

  lemma TakeOtherKeepsBalance(s: Session, id: CommandId)
    requires Balanced(s, id) && ServerEnabled(s, TakeOther)
    ensures Balanced(ServerApply(s, TakeOther), id)
  {
    ResultsOfConcat(s.settled, [s.recv[0]], id);
    assert Results([s.recv[0]], id) + Results(s.recv[1..], id) == Results(s.recv, id);
  }

  lemma ServerKeepsBalance(s: Session, b: ServerAct, id: CommandId)
    requires Balanced(s, id) && ServerEnabled(s, b)
    ensures Balanced(ServerApply(s, b), id)
  {
    match b
    case RecvFirst => RecvFirstKeepsBalance(s, id);
    case ServerRead => ReadKeepsBalance(s, id);
    case TakeOther => TakeOtherKeepsBalance(s, id);
    case _ => SameBalanceKeeps(s, ServerApply(s, b), id);
  }

  lemma CutKeepsBalance(s: Session, keepUp: nat, keepDown: nat, id: CommandId)
    requires Balanced(s, id) && keepUp <= |s.up| && keepDown <= |s.down|
    ensures Balanced(Cut(s, keepUp, keepDown), id)
  {
    assert s.up == s.up[..keepUp] + s.up[keepUp..];
    ResultsOfConcat(s.up[..keepUp], s.up[keepUp..], id);
    ResultsOfConcat(s.settled, s.up[keepUp..], id);
  }

  lemma GenuineStays(s: Session, s': Session, r: CommandResult)
    requires Genuine(s, r) && s'.modules == s.modules && s.executed <= s'.executed
    ensures Genuine(s', r)
  {
    var e :| e in s.executed && r == Dispatch(s.modules, e.cmd, e.outcome);
    assert e in s'.executed;
  }

  /** Nothing but a genuine result enters the path back. */
  lemma GenuineCarries(s: Session, s': Session)
    requires AllGenuine(s) && s'.modules == s.modules && s.executed <= s'.executed
    requires forall m :: m in s'.up && m.ResultMessage? ==> m in s.up || Genuine(s', m.result)
    requires forall m :: m in s'.recv && m.ResultMessage? ==> m in s.up || m in s.recv
    requires s'.pc.Delivering? ==> s'.pc == s.pc || ResultMessage(s'.pc.result) in s.recv
    ensures AllGenuine(s')
  {
    forall r | Genuine(s, r) ensures Genuine(s', r) {
      GenuineStays(s, s', r);
    }
  }

  lemma AgentKeepsGenuine(s: Session, a: AgentAct)
    requires AllGenuine(s) && AgentEnabled(s, a) && !a.Forge?
    ensures AllGenuine(AgentApply(s, a))
  {
    var s' := AgentApply(s, a);
    if a.Finish? {
      var e := Execution(s.running[a.k], a.outcome);
      assert s'.executed == s.executed + [e];
      assert Genuine(s', Dispatch(s.modules, e.cmd, e.outcome)) by {
        assert e in s'.executed;
      }
    }
    GenuineCarries(s, s');
  }

  lemma ServerKeepsGenuine(s: Session, b: ServerAct)
    requires AllGenuine(s) && ServerEnabled(s, b)
    ensures AllGenuine(ServerApply(s, b))
  {
    GenuineCarries(s, ServerApply(s, b));
  }
}
