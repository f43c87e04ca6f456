/** Where a caller can wait without bound: exactly when it can never leave the enqueue. */
module ProtocolBlocking {
  import opened Protocol
  import opened ProtocolInvariant
  import opened ProtocolTheorems
  import opened ProtocolRuns

  /** The call has its pending entry and has not enqueued its command yet. */
  predicate AtEnqueue(st: State, c: nat) { c < |st.calls| && st.calls[c].pc == Issued }

  /** No continuation of any kind gets the call past the enqueue. */
  ghost predicate StaysAtEnqueue(st: State, c: nat) {
    forall ls :: CanRun(st, ls) ==> AtEnqueue(After(st, ls), c)
  }

  /** The session loop has been left, so nothing takes commands off the queue any more. */
  predicate Over(s: Session) { s.pc.Exiting? || s.pc.Closed? }

  predicate FullAndOver(st: State, c: nat) {
    && AtEnqueue(st, c) && st.calls[c].session < |st.sessions|
    && |st.sessions[st.calls[c].session].send| == SEND_CAPACITY
    && Over(st.sessions[st.calls[c].session])
  }

  // ---------------------------------------------------------------- nothing frees it

  lemma ServerKeepsOver(s: Session, b: ServerAct)
    ensures Over(s) ==> !ServerEnabled(s, b)
  {
  }

  lemma AgentKeepsServerSide(s: Session, a: AgentAct)
    requires AgentEnabled(s, a)
    ensures AgentApply(s, a).pc == s.pc && AgentApply(s, a).send == s.send
  {
  }

  lemma StepKeepsFullAndOver(st: State, l: Label, c: nat)
    requires FullAndOver(st, c) && Enabled(st, l)
    ensures FullAndOver(Apply(st, l), c)
  {
    match l
    case ByServer(i, b) => ServerKeepsOver(st.sessions[i], b);
    case ByAgent(i, a) => AgentKeepsServerSide(st.sessions[i], a);
    case _ => OtherKeepsFullAndOver(st, l, c);
  }

  lemma OtherKeepsFullAndOver(st: State, l: Label, c: nat)
    requires FullAndOver(st, c) && Enabled(st, l) && !l.ByServer? && !l.ByAgent?
    ensures FullAndOver(Apply(st, l), c)
  {
  }

  lemma {:induction false} RunKeepsFullAndOver(st: State, ls: seq<Label>, c: nat)
    requires FullAndOver(st, c) && CanRun(st, ls)
    ensures FullAndOver(After(st, ls), c)
    decreases |ls|
  {
    if ls != [] {
      StepKeepsFullAndOver(st, ls[0], c);
      RunKeepsFullAndOver(Apply(st, ls[0]), ls[1..], c);
    }
  }

  // ---------------------------------------------------------------- what frees it

  /** How many steps away from room on its queue a session loop is. */
  function ToRoom(s: Session): nat {
    if |s.send| < SEND_CAPACITY then 0 else if s.pc == Selecting then 1 else 2
  }

  /** The next step of a session loop towards room on its queue. */
  function StepToRoom(s: Session, i: nat): Label {
    if s.pc.Delivering? then Deliver(i)
    else if s.pc.Sending? then ByServer(i, if s.broken then SendLost else SendOutbound)
    else ByServer(i, TakeOutbound)
  }

  lemma ServerToRoom(s: Session, b: ServerAct)
    requires |s.send| == SEND_CAPACITY && ServerEnabled(s, b)
    requires b == if s.pc.Sending? then if s.broken then SendLost else SendOutbound else TakeOutbound
    ensures ToRoom(ServerApply(s, b)) < ToRoom(s)
  {
  }

  lemma DeliverToRoom(st: State, c: nat)
    requires Inv(st) && AtEnqueue(st, c) && st.calls[c].session < |st.sessions|
    requires st.sessions[st.calls[c].session].pc.Delivering?
    requires |st.sessions[st.calls[c].session].send| == SEND_CAPACITY
    ensures
      var i := st.calls[c].session;
      Enabled(st, Deliver(i)) && AtEnqueue(Apply(st, Deliver(i)), c) && Apply(st, Deliver(i)).calls[c].session == i
      && i < |Apply(st, Deliver(i)).sessions| && ToRoom(Apply(st, Deliver(i)).sessions[i]) < ToRoom(st.sessions[i])
  {
    assert CallOk(st, st.sessions[st.calls[c].session].pc.call);
  }

  lemma NotOverIsInLoop(st: State, c: nat)
    requires Inv(st) && AtEnqueue(st, c)
    ensures st.calls[c].session < |st.sessions|
    ensures var s := st.sessions[st.calls[c].session]; |s.send| <= SEND_CAPACITY && (Over(s) || InLoop(s.pc))
  {
    assert CallOk(st, c);
    assert SessionOk(st.sessions[st.calls[c].session]);
  }

  lemma StepToRoomWorks(st: State, c: nat, i: nat)
    requires Inv(st) && AtEnqueue(st, c) && i == st.calls[c].session < |st.sessions|
    requires InLoop(st.sessions[i].pc) && |st.sessions[i].send| == SEND_CAPACITY
    ensures
      var l := StepToRoom(st.sessions[i], i);
      Enabled(st, l) && Honest(l) && AtEnqueue(Apply(st, l), c) && Apply(st, l).calls[c].session == i
      && i < |Apply(st, l).sessions| && ToRoom(Apply(st, l).sessions[i]) < ToRoom(st.sessions[i])
  {
    match StepToRoom(st.sessions[i], i)
    case Deliver(_) => DeliverToRoom(st, c);
    case ByServer(_, b) => ServerToRoom(st.sessions[i], b);
  }

  lemma EnqueueRun(st: State, c: nat) returns (ls: seq<Label>)
    requires Enabled(st, Enqueue(c))
    ensures AllHonest(ls) && CanRun(st, ls)
    ensures c < |After(st, ls).calls| && After(st, ls).calls[c].pc == Waiting(false)
  {
    ls := [Enqueue(c)] + [];
    StepThenRun(st, Enqueue(c), []);
  }

  /** An honest continuation that gets the call past the enqueue. */
  lemma {:induction false} FreeingRun(st: State, c: nat, i: nat) returns (ls: seq<Label>)
    requires Inv(st) && AtEnqueue(st, c) && i == st.calls[c].session < |st.sessions|
    requires |st.sessions[i].send| < SEND_CAPACITY || !Over(st.sessions[i])
    ensures AllHonest(ls) && CanRun(st, ls)
    ensures c < |After(st, ls).calls| && After(st, ls).calls[c].pc == Waiting(false)
    decreases ToRoom(st.sessions[i])
  {
    NotOverIsInLoop(st, c);
    if |st.sessions[i].send| < SEND_CAPACITY {
      ls := EnqueueRun(st, c);
    } else {
      var l := StepToRoom(st.sessions[i], i);
      StepToRoomWorks(st, c, i);
      StepKeepsInv(st, l);
      var rest := FreeingRun(Apply(st, l), c, i);
      ls := [l] + rest;
      StepThenRun(st, l, rest);
    }
  }

  lemma StepThenRun(st: State, l: Label, rest: seq<Label>)
    requires Enabled(st, l) && Honest(l) && CanRun(Apply(st, l), rest) && AllHonest(rest)
    ensures CanRun(st, [l] + rest) && AllHonest([l] + rest) && After(st, [l] + rest) == After(Apply(st, l), rest)
  {
    var ls := [l] + rest;
    assert ls[1..] == rest;
    assert forall n :: 0 < n < |ls| ==> ls[n] == rest[n - 1];
  }

  /** A caller at the enqueue stays there for ever, whatever happens, if and only if its
      session's queue is full and its session loop has been left: the deadline starts only
      after the enqueue. Otherwise agents running this code can let it through. */
  lemma StuckForEverIff(st: State, c: nat)
    requires Reachable(st) && AtEnqueue(st, c)
    ensures st.calls[c].session < |st.sessions|
    ensures
      var s := st.sessions[st.calls[c].session];
      (forall ls :: CanRun(st, ls) ==> AtEnqueue(After(st, ls), c)) <==>
      |s.send| == 32 && (s.pc == Exiting || s.pc == Closed)
    ensures StaysAtEnqueue(st, c) <==> FullAndOver(st, c)
    ensures !FullAndOver(st, c) ==>
              exists st' :: HonestlyReaches(st, st') && c < |st'.calls| && st'.calls[c].pc == Waiting(false)
  {
    ReachableInv(st);
    NotOverIsInLoop(st, c);
    if FullAndOver(st, c) {
      forall ls | CanRun(st, ls) ensures AtEnqueue(After(st, ls), c) {
        RunKeepsFullAndOver(st, ls, c);
      }
    } else {
      var ls := FreeingRun(st, c, st.calls[c].session);
      assert HonestlyReaches(st, After(st, ls));
    }
  }

  // ---------------------------------------------------------------- a run that gets there

  /** One live session, `n` commands queued on it, and as many callers. */
  ghost predicate Filled(st: State, n: nat) {
    && |st.sessions| == 1 && st.sessions[0].pc == Selecting && st.agents == map["s" := 0]
    && |st.sessions[0].send| == n && |st.calls| == n
    && (forall id :: id in st.issuedBy ==> id < n)
  }

  lemma {:induction false} FillQueue(st: State, n: nat, k: nat) returns (st': State)
    requires HonestlyReachable(st) && Filled(st, n) && n <= k <= SEND_CAPACITY
    ensures HonestlyReachable(st') && Filled(st', k)
    decreases k - n
  {
    if n == k {
      st' := st;
    } else {
      var a := CallArrives(st, n);
      var b := Apply(a, Enqueue(n));
      HonestlySteps(INIT, a, Enqueue(n));
      st' := FillQueue(b, n + 1, k);
    }
  }

  lemma SessionDies(st: State) returns (st': State)
    requires HonestlyReachable(st) && |st.sessions| == 1 && st.sessions[0].pc == Selecting
    ensures HonestlyReachable(st') && st'.calls == st.calls && |st'.sessions| == 1
    ensures st'.sessions[0].pc == Closed && st'.sessions[0].send == st.sessions[0].send
  {
    var cut := Apply(st, Break(0, 0, 0));
    HonestlySteps(INIT, st, Break(0, 0, 0));
    var left := Apply(cut, ByServer(0, LoopExit));
    HonestlySteps(INIT, cut, ByServer(0, LoopExit));
    st' := Apply(left, Unregister(0));
    HonestlySteps(INIT, left, Unregister(0));
  }

  /** Such a state is reachable: 32 commands fill the queue of a session that has stopped
      sending, a 33rd caller arrives, and the session dies. */
  lemma StuckCallerReachable() returns (st: State, c: nat)
    ensures HonestlyReachable(st) && AtEnqueue(st, c) && StaysAtEnqueue(st, c)
  {
    HonestlyStays(INIT);
    var live := Connect(INIT, INIT, 0, "s");
    assert Filled(live, 0);
    var full := FillQueue(live, 0, SEND_CAPACITY);
    c := SEND_CAPACITY;
    var waiting := CallArrives(full, c);
    st := SessionDies(waiting);
    HonestIsReachable(st);
    StuckForEverIff(st, c);
  }
}
