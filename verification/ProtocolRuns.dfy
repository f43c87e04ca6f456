/** The registry of sessions over whole runs, exactly when a session is lost from it, and runs
to look at: overlapping sessions of one server, and a call that is answered. */
module ProtocolRuns {
  import opened Messages
  import opened Dispatcher
  import opened Protocol
  import opened ProtocolInvariant

  // ---------------------------------------------------------------- the registry

  /** Every entry of `agents` is a session for that server whose deferred unregister has not
      run, in every reachable state. */
  lemma RegistryIsSound(st: State, id: ServerId)
    requires Reachable(st) && id in st.agents
    ensures st.agents[id] < |st.sessions| && Listed(st.sessions[st.agents[id]])
    ensures st.sessions[st.agents[id]].serverId == id
  {
    ReachableInv(st);
  }

  /** Every session between register and unregister is its server's entry. */
  ghost predicate Complete(st: State) {
    forall i :: 0 <= i < |st.sessions| && Listed(st.sessions[i]) ==>
      st.sessions[i].serverId in st.agents && st.agents[st.sessions[i].serverId] == i
  }

  /** No two sessions for one server are listed at the same time. */
  ghost predicate NoOverlap(st: State) {
    forall i, j :: 0 <= i < j < |st.sessions| && Listed(st.sessions[i]) && Listed(st.sessions[j]) ==>
      st.sessions[i].serverId != st.sessions[j].serverId
  }

  ghost predicate NeverOverlaps(st: State, ls: seq<Label>)
    requires CanRun(st, ls)
    decreases |ls|
  {
    NoOverlap(st) && (ls == [] || NeverOverlaps(Apply(st, ls[0]), ls[1..]))
  }

  lemma LocalKeepsComplete(st: State, l: Label)
    requires Inv(st) && Complete(st) && Enabled(st, l) && (l.ByAgent? || l.ByServer? || l.Break?)
    ensures Complete(Apply(st, l))
  {
    LocalIsQuiet(st, l);
    QuietKeepsComplete(st, Apply(st, l), l.i);
  }

  lemma QuietKeepsComplete(st: State, st': State, i: nat)
    requires SessionsOk(st) && Complete(st) && i < |st.sessions| == |st'.sessions| && st'.agents == st.agents
    requires Quiet(st.sessions[i], st'.sessions[i])
    requires forall j :: 0 <= j < |st.sessions| && j != i ==> st'.sessions[j] == st.sessions[j]
    ensures Complete(st')
  {
    assert SessionOk(st.sessions[i]);
  }

  lemma RegisterKeepsComplete(st: State, i: nat)
    requires Complete(st) && Enabled(st, Register(i)) && NoOverlap(Apply(st, Register(i)))
    ensures Complete(Apply(st, Register(i)))
  {
    var st' := Apply(st, Register(i));
    assert Listed(st'.sessions[i]);
    forall j | 0 <= j < |st'.sessions| && Listed(st'.sessions[j])
      ensures st'.sessions[j].serverId in st'.agents && st'.agents[st'.sessions[j].serverId] == j
    {
      assert j != i ==> st'.sessions[j] == st.sessions[j];
    }
  }

  lemma UnregisterKeepsComplete(st: State, i: nat)
    requires Complete(st) && Enabled(st, Unregister(i)) && NoOverlap(st)
    ensures Complete(Apply(st, Unregister(i)))
  {
    var st' := Apply(st, Unregister(i));
    assert Listed(st.sessions[i]);
    forall j | 0 <= j < |st'.sessions| && Listed(st'.sessions[j])
      ensures st'.sessions[j].serverId in st'.agents && st'.agents[st'.sessions[j].serverId] == j
    {
      assert st'.sessions[j] == st.sessions[j];
    }
  }

  lemma StepKeepsComplete(st: State, l: Label)
    requires Inv(st) && Complete(st) && Enabled(st, l)
    requires NoOverlap(st) && NoOverlap(Apply(st, l))
    ensures Complete(Apply(st, l))
  {
    if l.ByAgent? || l.ByServer? || l.Break? {
      LocalKeepsComplete(st, l);
    } else if l.Register? {
      RegisterKeepsComplete(st, l.i);
    } else if l.Unregister? {
      UnregisterKeepsComplete(st, l.i);
    } else if l.Claim? || l.Deliver? {
      ResultStepIsLoopStep(st, l);
      LoopStepKeepsComplete(st, Apply(st, l), l.i);
    } else {
      OtherKeepsComplete(st, l);
    }
  }

  lemma LoopStepKeepsComplete(st: State, st': State, i: nat)
    requires Complete(st) && LoopStep(st, st', i)
    ensures Complete(st')
  {
  }

  lemma OtherKeepsComplete(st: State, l: Label)
    requires Complete(st) && Enabled(st, l) && (l.Open? || l.Lookup? || l.Issue? || l.Enqueue? || Alone(l))
    ensures Complete(Apply(st, l))
  {
  }

  lemma {:induction false} SerialRunKeepsComplete(st: State, ls: seq<Label>)
    requires Inv(st) && Complete(st) && CanRun(st, ls) && NeverOverlaps(st, ls)
    ensures Complete(After(st, ls)) && Inv(After(st, ls))
    decreases |ls|
  {
    if ls != [] {
      StepKeepsInv(st, ls[0]);
      StepKeepsComplete(st, ls[0]);
      SerialRunKeepsComplete(Apply(st, ls[0]), ls[1..]);
    }
  }

  /** If sessions for one server never overlap, `agents` is exactly the listed sessions. */
  lemma RegistryIsExact(ls: seq<Label>, id: ServerId, i: nat)
    requires CanRun(INIT, ls) && NeverOverlaps(INIT, ls)
    ensures
      var st := After(INIT, ls);
      (id in st.agents && st.agents[id] == i) <==>
      (i < |st.sessions| && Listed(st.sessions[i]) && st.sessions[i].serverId == id)
  {
    SerialRunKeepsComplete(INIT, ls);
  }

  /** Every listed session's server can be found, if only through another session. */
  ghost predicate Covered(st: State) {
    forall i :: 0 <= i < |st.sessions| && Listed(st.sessions[i]) ==> st.sessions[i].serverId in st.agents
  }

  /** An unregister while another session for the same server is listed. */
  ghost predicate Hides(st: State, l: Label) {
    l.Unregister? && l.i < |st.sessions| &&
    exists j :: 0 <= j < |st.sessions| && j != l.i && Listed(st.sessions[j])
                && st.sessions[j].serverId == st.sessions[l.i].serverId
  }

  lemma UnregisterHidesIff(st: State, i: nat)
    requires Covered(st) && Enabled(st, Unregister(i))
    ensures Covered(Apply(st, Unregister(i))) <==> !Hides(st, Unregister(i))
  {
    var st' := Apply(st, Unregister(i));
    forall j | 0 <= j < |st.sessions| && j != i && Listed(st.sessions[j])
      ensures Covered(st') ==> st.sessions[j].serverId != st.sessions[i].serverId
    {
      assert st'.sessions[j] == st.sessions[j];
    }
  }

  lemma QuietKeepsCovered(st: State, st': State, i: nat)
    requires SessionsOk(st) && Covered(st) && i < |st.sessions| == |st'.sessions| && st'.agents == st.agents
    requires Quiet(st.sessions[i], st'.sessions[i])
    requires forall j :: 0 <= j < |st.sessions| && j != i ==> st'.sessions[j] == st.sessions[j]
    ensures Covered(st')
  {
    assert SessionOk(st.sessions[i]);
  }

  lemma OtherKeepsCovered(st: State, l: Label)
    requires Covered(st) && Enabled(st, l)
    requires l.Open? || l.Register? || l.Lookup? || l.Issue? || l.Enqueue? || Alone(l)
    ensures Covered(Apply(st, l))
  {
  }

  lemma LoopStepKeepsCovered(st: State, st': State, i: nat)
    requires Covered(st) && LoopStep(st, st', i)
    ensures Covered(st')
  {
  }

  /** Of all steps, exactly the unregister of an overlapped session hides a server. */
  lemma StepHidesIff(st: State, l: Label)
    requires Inv(st) && Covered(st) && Enabled(st, l)
    ensures Covered(Apply(st, l)) <==> !Hides(st, l)
  {
    if l.Unregister? {
      UnregisterHidesIff(st, l.i);
    } else if l.ByAgent? || l.ByServer? || l.Break? {
      LocalIsQuiet(st, l);
      QuietKeepsCovered(st, Apply(st, l), l.i);
    } else if l.Claim? || l.Deliver? {
      ResultStepIsLoopStep(st, l);
      LoopStepKeepsCovered(st, Apply(st, l), l.i);
    } else {
      OtherKeepsCovered(st, l);
    }
  }

  ghost predicate CoveredThroughout(st: State, ls: seq<Label>)
    requires CanRun(st, ls)
    decreases |ls|
  {
    Covered(st) && (ls == [] || CoveredThroughout(Apply(st, ls[0]), ls[1..]))
  }

  ghost predicate NeverHides(st: State, ls: seq<Label>)
    requires CanRun(st, ls)
    decreases |ls|
  {
    ls == [] || (!Hides(st, ls[0]) && NeverHides(Apply(st, ls[0]), ls[1..]))
  }

  lemma {:induction false} RunHidesIff(st: State, ls: seq<Label>)
    requires Inv(st) && Covered(st) && CanRun(st, ls)
    ensures CoveredThroughout(st, ls) <==> NeverHides(st, ls)
    decreases |ls|
  {
    if ls != [] {
      StepHidesIff(st, ls[0]);
      if !Hides(st, ls[0]) {
        StepKeepsInv(st, ls[0]);
        RunHidesIff(Apply(st, ls[0]), ls[1..]);
      }
    }
  }

  /** Over any run, every server with a listed session can be found at every point if and
      only if no session unregisters while another session for its server is listed. */
  lemma FoundThroughoutIff(ls: seq<Label>)
    requires CanRun(INIT, ls)
    ensures CoveredThroughout(INIT, ls) <==> NeverHides(INIT, ls)
  {
    RunHidesIff(INIT, ls);
  }

  // ---------------------------------------------------------------- building runs

  const NO_MODULES := Modules(false, false, false)
  const SOME_PAYLOAD := Payload(CreateVhost, "")

  /** No message anywhere but on the way down. */
  predicate Bare(s: Session) {
    s.modules == NO_MODULES && s.send == [] && s.up == [] && s.recv == [] && s.inbox == [] && s.running == []
  }

  /** A connection opens and its registration request is received. */
  lemma OpenAndAsk(st0: State, st: State, agent: nat) returns (st': State)
    requires HonestlyReaches(st0, st) && Enabled(st, Open(agent, NO_MODULES))
    ensures HonestlyReaches(st0, st')
    ensures st' == st.(sessions := st'.sessions) && |st'.sessions| == |st.sessions| + 1
    ensures forall j :: 0 <= j < |st.sessions| ==> st'.sessions[j] == st.sessions[j]
    ensures var s := st'.sessions[|st.sessions|];
      s.agent == agent && s.pc == Authenticating("t", "h") && !s.broken && s.conn == AwaitingReply
      && Bare(s) && s.down == []
  {
    var i := |st.sessions|;
    var a := Apply(st, Open(agent, NO_MODULES));
    HonestlySteps(st0, st, Open(agent, NO_MODULES));
    var b := Apply(a, ByAgent(i, SendRegister("t", "h")));
    HonestlySteps(st0, a, ByAgent(i, SendRegister("t", "h")));
    assert b.sessions[i].up == [RegisterRequest("t", "h")];
    st' := Apply(b, ByServer(i, RecvFirst));
    HonestlySteps(st0, b, ByServer(i, RecvFirst));
  }

  /** One more session connects and is registered. */
  lemma Connect(st0: State, st: State, agent: nat, id: ServerId) returns (st': State)
    requires HonestlyReaches(st0, st) && Enabled(st, Open(agent, NO_MODULES))
    ensures HonestlyReaches(st0, st')
    ensures st' == st.(sessions := st'.sessions, agents := st.agents[id := |st.sessions|])
    ensures |st'.sessions| == |st.sessions| + 1
    ensures forall j :: 0 <= j < |st.sessions| ==> st'.sessions[j] == st.sessions[j]
    ensures var s := st'.sessions[|st.sessions|];
      s.agent == agent && s.serverId == id && s.pc == Selecting && !s.broken && s.conn == AwaitingReply
      && Bare(s) && s.down == [RegisterResponse(true, id)]
  {
    var i := |st.sessions|;
    var c := OpenAndAsk(st0, st, agent);
    var d := Apply(c, ByServer(i, Authenticate(Some(id))));
    HonestlySteps(st0, c, ByServer(i, Authenticate(Some(id))));
    var e := Apply(d, ByServer(i, SendAccept));
    HonestlySteps(st0, d, ByServer(i, SendAccept));
    st' := Apply(e, Register(i));
    HonestlySteps(st0, e, Register(i));
  }

  // ---------------------------------------------------------------- overlapping sessions

  /** An agent reconnects before the server notices that its old stream is dead. */
  lemma Reconnect() returns (st: State)
    ensures HonestlyReachable(st) && |st.sessions| == 2 && st.agents == map["s" := 1]
    ensures st.sessions[0].pc == Selecting && st.sessions[0].broken && st.sessions[0].serverId == "s"
    ensures st.sessions[1].pc == Selecting && !st.sessions[1].broken && st.sessions[1].serverId == "s"
  {
    HonestlyStays(INIT);
    var a := Connect(INIT, INIT, 0, "s");
    var b := Apply(a, ByAgent(0, AgentEnd));
    HonestlySteps(INIT, a, ByAgent(0, AgentEnd));
    st := Connect(INIT, b, 0, "s");
  }

  /** The old session's loop ends; the registry still names the new one. */
  lemma OldSessionExits() returns (st: State)
    ensures HonestlyReachable(st) && |st.sessions| == 2 && st.agents == map["s" := 1]
    ensures st.sessions[0].pc == Exiting && st.sessions[0].serverId == "s"
    ensures st.sessions[1].pc == Selecting && !st.sessions[1].broken && st.sessions[1].serverId == "s"
  {
    var both := Reconnect();
    st := Apply(both, ByServer(0, LoopExit));
    HonestlySteps(INIT, both, ByServer(0, LoopExit));
  }

  /** With overlap the registry loses a live session: the old session's deferred unregister
      removes the new session's entry, and the next caller is told "not connected". */
  lemma OverlapLosesLiveSession() returns (st: State)
    ensures HonestlyReachable(st)
    ensures |st.sessions| == 2 && Listed(st.sessions[1]) && st.sessions[1].serverId == "s" && !st.sessions[1].broken
    ensures "s" !in st.agents
    ensures Apply(st, Lookup("s", SOME_PAYLOAD)).calls[|st.calls|].pc == Returned(NotConnected)
  {
    var left := OldSessionExits();
    st := Apply(left, Unregister(0));
    HonestlySteps(INIT, left, Unregister(0));
  }

  // ---------------------------------------------------------------- a call that is answered

  lemma CallArrives(st: State, n: nat) returns (st': State)
    requires HonestlyReachable(st) && |st.calls| == n && "s" in st.agents && n !in st.issuedBy
    ensures HonestlyReachable(st') && |st'.calls| == n + 1
    ensures st'.calls[n] == Call("s", SOME_PAYLOAD, st.agents["s"], n, Issued, None, false, 0)
    ensures st' == st.(calls := st'.calls, pending := st.pending[n := n], issuedBy := st.issuedBy[n := n])
  {
    var a := Apply(st, Lookup("s", SOME_PAYLOAD));
    HonestlySteps(INIT, st, Lookup("s", SOME_PAYLOAD));
    st' := Apply(a, Issue(n, n));
    HonestlySteps(INIT, a, Issue(n, n));
  }

  lemma Welcomed(st: State) returns (st': State)
    requires HonestlyReachable(st) && |st.sessions| == 1
    requires st.sessions[0].conn == AwaitingReply && st.sessions[0].down == [RegisterResponse(true, "s")]
    ensures HonestlyReachable(st') && st' == st.(sessions := st'.sessions) && |st'.sessions| == 1
    ensures var s, s' := st.sessions[0], st'.sessions[0];
      s' == s.(conn := InSession, down := [], received := s'.received)
  {
    st' := Apply(st, ByAgent(0, RecvReply));
    HonestlySteps(INIT, st, ByAgent(0, RecvReply));
  }

  /** A call has enqueued its command on a session whose agent has been accepted. */
  lemma CommandIsEnqueued() returns (st: State)
    ensures HonestlyReachable(st) && |st.calls| == 1 && |st.sessions| == 1 && st.pending == map[0 := 0]
    ensures st.calls[0] == Call("s", SOME_PAYLOAD, 0, 0, Waiting(false), None, false, 0)
    ensures var s := st.sessions[0];
      s.pc == Selecting && s.conn == InSession && !s.broken && Bare(s.(send := []))
      && s.send == [Command(0, SOME_PAYLOAD)] && s.down == []
  {
    HonestlyStays(INIT);
    var a := Connect(INIT, INIT, 0, "s");
    var b := Welcomed(a);
    var c := CallArrives(b, 0);
    st := Apply(c, Enqueue(0));
    HonestlySteps(INIT, c, Enqueue(0));
  }

  /** The session loop takes the command off the queue and sends it. */
  lemma CommandGoesDown() returns (st: State)
    ensures HonestlyReachable(st) && |st.calls| == 1 && |st.sessions| == 1 && st.pending == map[0 := 0]
    ensures st.calls[0] == Call("s", SOME_PAYLOAD, 0, 0, Waiting(false), None, false, 0)
    ensures var s := st.sessions[0];
      s.pc == Selecting && s.conn == InSession && !s.broken && Bare(s)
      && s.down == [CommandMessage(Command(0, SOME_PAYLOAD))]
  {
    var a := CommandIsEnqueued();
    var b := Apply(a, ByServer(0, TakeOutbound));
    HonestlySteps(INIT, a, ByServer(0, TakeOutbound));
    st := Apply(b, ByServer(0, SendOutbound));
    HonestlySteps(INIT, b, ByServer(0, SendOutbound));
  }

  /** The agent takes the command off the stream and starts its handler. */
  lemma HandlerStarts(st: State) returns (st': State)
    requires HonestlyReachable(st) && |st.sessions| == 1
    requires var s := st.sessions[0];
      s.pc == Selecting && s.conn == InSession && !s.broken && Bare(s)
      && s.down == [CommandMessage(Command(0, SOME_PAYLOAD))]
    ensures HonestlyReachable(st') && st' == st.(sessions := st'.sessions) && |st'.sessions| == 1
    ensures var s := st'.sessions[0];
      s.pc == Selecting && s.modules == NO_MODULES && !s.broken && s.running == [Command(0, SOME_PAYLOAD)]
      && s.up == [] && s.recv == []
  {
    var a := Apply(st, ByAgent(0, AgentRead));
    HonestlySteps(INIT, st, ByAgent(0, AgentRead));
    st' := Apply(a, ByAgent(0, Hand));
    HonestlySteps(INIT, a, ByAgent(0, Hand));
  }

  lemma HandlerReturns(st: State) returns (st': State)
    requires HonestlyReachable(st) && |st.sessions| == 1
    requires var s := st.sessions[0];
      s.pc == Selecting && s.modules == NO_MODULES && !s.broken && s.running == [Command(0, SOME_PAYLOAD)]
      && s.up == [] && s.recv == []
    ensures HonestlyReachable(st') && st' == st.(sessions := st'.sessions) && |st'.sessions| == 1
    ensures var s := st'.sessions[0];
      s.pc == Selecting && s.up == [ResultMessage(CommandResult(0, true, ""))] && s.recv == []
  {
    st' := Apply(st, ByAgent(0, Finish(0, None)));
    HonestlySteps(INIT, st, ByAgent(0, Finish(0, None)));
  }

  /** The handler returns and its result reaches the session loop. */
  lemma ResultComesUp(st: State) returns (st': State)
    requires HonestlyReachable(st) && |st.sessions| == 1
    requires var s := st.sessions[0];
      s.pc == Selecting && s.modules == NO_MODULES && !s.broken && s.running == [Command(0, SOME_PAYLOAD)]
      && s.up == [] && s.recv == []
    ensures HonestlyReachable(st') && st' == st.(sessions := st'.sessions) && |st'.sessions| == 1
    ensures st'.sessions[0].pc == Selecting
    ensures st'.sessions[0].recv == [ResultMessage(CommandResult(0, true, ""))]
  {
    var a := HandlerReturns(st);
    st' := Apply(a, ByServer(0, ServerRead));
    HonestlySteps(INIT, a, ByServer(0, ServerRead));
  }

  /** A whole round: connect, look up, register, enqueue, run, deliver, return success. */
  lemma AnsweredIsReachable() returns (st: State)
    ensures HonestlyReachable(st) && |st.calls| == 1
    ensures st.calls[0].server == "s" && st.calls[0].payload == SOME_PAYLOAD
    ensures st.calls[0].pc == Returned(Answered(CommandResult(0, true, "")))
    ensures st.pending == map[]
  {
    var down := CommandGoesDown();
    var started := HandlerStarts(down);
    var up := ResultComesUp(started);
    var a := Apply(up, Claim(0));
    HonestlySteps(INIT, up, Claim(0));
    var b := Apply(a, Deliver(0));
    HonestlySteps(INIT, a, Deliver(0));
    st := Apply(b, TakeResult(0));
    HonestlySteps(INIT, b, TakeResult(0));
  }
}
