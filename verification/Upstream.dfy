/** What an agent sends, told from its steps: it arrives whole and in order for as long as the
stream is whole, and an agent has one live connection at a time. */
module Upstream {
  import opened Messages
  import opened Dispatcher
  import opened Protocol
  import opened SessionInvariant
  import Handshake

  /** Everything that came up the stream or is still on its way, oldest first. */
  function Upward(s: Session): seq<AgentMessage> { InTurn(s.settled, Delivery(s.pc), s.recv, s.up) }

  function InTurn(settled: seq<AgentMessage>, hand: seq<AgentMessage>, recv: seq<AgentMessage>, up: seq<AgentMessage>)
    : seq<AgentMessage>
  {
    settled + (hand + (recv + up))
  }

  function Delivery(pc: ServerPc): seq<AgentMessage> {
    if pc.Delivering? then [ResultMessage(pc.result)] else []
  }

  /** What one step of the agent sends. */
  function Sends(s: Session, a: AgentAct): seq<AgentMessage>
    requires AgentEnabled(s, a)
  {
    match a
    case SendRegister(token, hostname) => [RegisterRequest(token, hostname)]
    case Finish(k, outcome) => [ResultMessage(Dispatch(s.modules, s.running[k], outcome))]
    case SendHeartbeat(metrics) => [Heartbeat(metrics)]
    case Forge(msg) => [msg]
    case _ => []
  }

  function SendsAt(st: State, l: Label, i: nat): seq<AgentMessage>
    requires Enabled(st, l)
  {
    if l.ByAgent? && l.i == i then Sends(st.sessions[i], l.a) else []
  }

  /** What the agent's steps in a run send on one session. */
  function Sent(st: State, ls: seq<Label>, i: nat): seq<AgentMessage>
    requires CanRun(st, ls)
    decreases |ls|
  {
    if ls == [] then [] else SendsAt(st, ls[0], i) + Sent(Apply(st, ls[0]), ls[1..], i)
  }

  function UpwardAt(st: State, i: nat): seq<AgentMessage> {
    if i < |st.sessions| then Upward(st.sessions[i]) else []
  }

  /** Nothing is read from the stream before the registration. */
  predicate Quiet(s: Session) { s.pc.AwaitingRegister? ==> s.recv == [] }

  /** One step of either end, or of the network, on a session. */
  ghost predicate Goes(s: Session, s': Session, sends: seq<AgentMessage>) {
    && (Quiet(s) ==> Quiet(s'))
    && (s.broken ==> s'.broken)
    && (Quiet(s) && !s'.broken ==> Upward(s') == Upward(s) + sends)
  }

  lemma AgentGoes(s: Session, a: AgentAct)
    requires AgentEnabled(s, a)
    ensures Goes(s, AgentApply(s, a), Sends(s, a))
  {
    hide InTurn, Dispatch;
    var s' := AgentApply(s, a);
    if s'.up != s.up {
      TailIsSent(s.settled, Delivery(s.pc), s.recv, s.up, s'.up[|s.up|]);
    }
  }

  lemma TailIsSent(
      settled: seq<AgentMessage>, hand: seq<AgentMessage>, recv: seq<AgentMessage>, up: seq<AgentMessage>,
      x: AgentMessage)
    ensures InTurn(settled, hand, recv, up + [x]) == InTurn(settled, hand, recv, up) + [x]
  {
    assert recv + (up + [x]) == (recv + up) + [x];
    assert hand + ((recv + up) + [x]) == (hand + (recv + up)) + [x];
  }

  lemma ServerGoes(s: Session, b: ServerAct)
    requires ServerEnabled(s, b)
    ensures Goes(s, ServerApply(s, b), [])
  {
    hide InTurn;
    if b.RecvFirst? && s.recv == [] {
      FirstIsTaken(s.settled, s.up);
    } else if b.ServerRead? {
      HeadIsRead(s.settled, Delivery(s.pc), s.recv, s.up);
    } else if b.TakeOther? {
      HeadIsSettled(s.settled, s.recv, s.up);
    }
  }

  lemma FirstIsTaken(settled: seq<AgentMessage>, up: seq<AgentMessage>)
    requires up != []
    ensures InTurn(settled + [up[0]], [], [], up[1..]) == InTurn(settled, [], [], up)
  {
  }

  lemma HeadIsRead(settled: seq<AgentMessage>, hand: seq<AgentMessage>, recv: seq<AgentMessage>, up: seq<AgentMessage>)
    requires up != []
    ensures InTurn(settled, hand, recv + [up[0]], up[1..]) == InTurn(settled, hand, recv, up)
  {
    assert (recv + [up[0]]) + up[1..] == recv + up;
  }

  lemma HeadIsSettled(settled: seq<AgentMessage>, recv: seq<AgentMessage>, up: seq<AgentMessage>)
    requires recv != []
    ensures InTurn(settled + [recv[0]], [], recv[1..], up) == InTurn(settled, [], recv, up)
    ensures InTurn(settled, [recv[0]], recv[1..], up) == InTurn(settled, [], recv, up)
  {
    assert [recv[0]] + (recv[1..] + up) == recv + up;
  }

  lemma HandIsSettled(settled: seq<AgentMessage>, x: AgentMessage, recv: seq<AgentMessage>, up: seq<AgentMessage>)
    ensures InTurn(settled + [x], [], recv, up) == InTurn(settled, [x], recv, up)
  {
  }

  lemma ResultGoes(st: State, l: Label, i: nat)
    requires Enabled(st, l) && (l.Claim? || l.Deliver?) && i < |st.sessions|
    ensures i < |Apply(st, l).sessions| && Goes(st.sessions[i], Apply(st, l).sessions[i], [])
  {
    hide AgentEnabled, AgentApply, ServerApply, ServerEnabled, InTurn;
    var s := st.sessions[l.i];
    if l.Claim? {
      HeadIsSettled(s.settled, s.recv, s.up);
    } else {
      HandIsSettled(s.settled, ResultMessage(s.pc.result), s.recv, s.up);
    }
  }

  lemma StepGoes(st: State, l: Label, i: nat)
    requires Enabled(st, l) && i < |st.sessions|
    ensures i < |Apply(st, l).sessions|
    ensures Goes(st.sessions[i], Apply(st, l).sessions[i], SendsAt(st, l, i))
  {
    hide AgentEnabled, AgentApply, ServerApply, ServerEnabled, Sends, InTurn;
    match l
    case ByAgent(j, a) =>
      AgentGoes(st.sessions[j], a);
    case ByServer(j, b) =>
      ServerGoes(st.sessions[j], b);
    case Claim(_) => ResultGoes(st, l, i);
    case Deliver(_) => ResultGoes(st, l, i);
    case _ =>
  }

  lemma OpensEmpty(st: State, l: Label)
    requires Enabled(st, l)
    ensures
      var n := |st.sessions|;
      |Apply(st, l).sessions| > n ==>
        |Apply(st, l).sessions| == n + 1 && Upward(Apply(st, l).sessions[n]) == [] && Quiet(Apply(st, l).sessions[n])
  {
    hide AgentEnabled, AgentApply, ServerApply, ServerEnabled;
  }

  /** The stream was whole all along. */
  ghost predicate Whole(st: State, i: nat) { i < |st.sessions| ==> !st.sessions[i].broken }

  ghost predicate QuietAt(st: State, i: nat) { i < |st.sessions| ==> Quiet(st.sessions[i]) }

  lemma StepSends(st: State, l: Label, i: nat)
    requires Enabled(st, l) && QuietAt(st, i)
    ensures QuietAt(Apply(st, l), i)
    ensures Whole(Apply(st, l), i) ==> Whole(st, i)
    ensures Whole(Apply(st, l), i) ==> UpwardAt(Apply(st, l), i) == UpwardAt(st, i) + SendsAt(st, l, i)
  {
    hide AgentEnabled, AgentApply, ServerApply, ServerEnabled, Sends, Upward;
    if i < |st.sessions| {
      StepGoes(st, l, i);
    } else {
      OpensEmpty(st, l);
    }
  }

  lemma {:induction false} RunSends(st: State, ls: seq<Label>, i: nat)
    requires CanRun(st, ls) && QuietAt(st, i)
    ensures Whole(After(st, ls), i) ==> Whole(st, i)
    ensures Whole(After(st, ls), i) ==> UpwardAt(After(st, ls), i) == UpwardAt(st, i) + Sent(st, ls, i)
    decreases |ls|
  {
    hide Apply, Enabled, SendsAt, UpwardAt, QuietAt, Whole;
    if ls != [] {
      StepSends(st, ls[0], i);
      RunSends(Apply(st, ls[0]), ls[1..], i);
    }
  }

  /** Over any run and for any agent: as long as a stream is whole, what the server has taken
      off it, the result in delivery, and what is still queued are together exactly what the
      agent's steps sent, in order. Nothing is lost, duplicated, reordered or made up. */
  lemma UpstreamInOrder(ls: seq<Label>, i: nat)
    requires CanRun(INIT, ls) && i < |After(INIT, ls).sessions| && !After(INIT, ls).sessions[i].broken
    ensures
      var s := After(INIT, ls).sessions[i];
      s.settled + ((if s.pc.Delivering? then [ResultMessage(s.pc.result)] else []) + (s.recv + s.up))
      == Sent(INIT, ls, i)
  {
    RunSends(INIT, ls, i);
  }

  // ---------------------------------------------------------------- a break

  /** A break leaves any beginning of each direction, and accounts for the rest. */
  lemma BreakLosesSuffixes(s: Session, keepUp: nat, keepDown: nat)
    requires keepUp <= |s.up| && keepDown <= |s.down|
    ensures
      var s' := Cut(s, keepUp, keepDown);
      && s'.broken
      && |s'.up| == keepUp && s'.up <= s.up && |s'.down| == keepDown && s'.down <= s.down
      && multiset(s'.up) + multiset(s'.settled) == multiset(s.up) + multiset(s.settled)
      && Cmds(s'.down) + s'.dropped == Cmds(s.down) + s.dropped
  {
    CmdsSplit(s.down, keepDown);
    assert s.up == s.up[..keepUp] + s.up[keepUp..];
  }

  // ---------------------------------------------------------------- connections

  /** An agent that has left has closed its stream, and of two connections of one agent the
      earlier has been left. */
  ghost predicate OneByOne(st: State) {
    && (forall i :: 0 <= i < |st.sessions| && st.sessions[i].conn == Ended ==> st.sessions[i].broken)
    && (forall i :: 0 <= i < |st.sessions| && st.sessions[i].conn == Misrouted ==> st.sessions[i].broken)
    && (forall i, j :: 0 <= i < j < |st.sessions| && st.sessions[i].agent == st.sessions[j].agent ==>
          st.sessions[i].conn in {Ended, Misrouted})
  }

  ghost predicate Stays(s: Session, s': Session) {
    && s'.agent == s.agent && (s.broken ==> s'.broken)
    && (s.conn in {Ended, Misrouted} ==> s'.conn == s.conn)
    && (s'.conn in {Ended, Misrouted} ==> s'.conn == s.conn || s'.broken)
  }

  lemma AgentStays(s: Session, a: AgentAct)
    requires AgentEnabled(s, a)
    ensures Stays(s, AgentApply(s, a))
  {
  }

  lemma ServerStays(s: Session, b: ServerAct)
    requires ServerEnabled(s, b)
    ensures Stays(s, ServerApply(s, b))
  {
  }

  lemma StepStays(st: State, l: Label, i: nat)
    requires Enabled(st, l) && i < |st.sessions|
    ensures i < |Apply(st, l).sessions| && Stays(st.sessions[i], Apply(st, l).sessions[i])
  {
    hide AgentEnabled, AgentApply, ServerApply, ServerEnabled;
    if l.ByAgent? && l.i == i {
      AgentStays(st.sessions[i], l.a);
    } else if l.ByServer? && l.i == i {
      ServerStays(st.sessions[i], l.b);
    } else {
      Handshake.OuterStep(st, l, i);
    }
  }

  lemma StepKeepsOneByOne(st: State, l: Label)
    requires OneByOne(st) && Enabled(st, l)
    ensures OneByOne(Apply(st, l))
  {
    hide AgentEnabled, AgentApply, ServerApply, ServerEnabled;
    forall i | 0 <= i < |st.sessions| {
      StepStays(st, l, i);
    }
    if l.Open? {
    } else {
      SessionsStay(st, l);
    }
  }

  lemma SessionsStay(st: State, l: Label)
    requires Enabled(st, l) && !l.Open?
    ensures |Apply(st, l).sessions| == |st.sessions|
  {
    hide AgentEnabled, AgentApply, ServerApply, ServerEnabled;
  }

  lemma {:induction false} RunKeepsOneByOne(st: State, ls: seq<Label>)
    requires OneByOne(st) && CanRun(st, ls)
    ensures OneByOne(After(st, ls))
    decreases |ls|
  {
    if ls != [] {
      StepKeepsOneByOne(st, ls[0]);
      RunKeepsOneByOne(Apply(st, ls[0]), ls[1..]);
    }
  }

  /** In every reachable state, of two connections of one agent the earlier has been left and
      its stream closed. */
  lemma OneLiveConnection(st: State, i: nat, j: nat)
    requires Reachable(st) && i < j < |st.sessions| && st.sessions[i].agent == st.sessions[j].agent
    ensures st.sessions[i].conn in {Ended, Misrouted} && st.sessions[i].broken
  {
    var ls :| CanRun(INIT, ls) && After(INIT, ls) == st;
    RunKeepsOneByOne(INIT, ls);
  }
}
