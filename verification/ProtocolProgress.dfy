/** The protocol does not deadlock: as long as a session is healthy, every call waiting on
it can still be answered, from any state an honest run can reach. */
module ProtocolProgress {
  import opened Messages
  import opened Protocol
  import opened SessionInvariant
  import opened ProtocolInvariant
  import opened HonestInvariant
  import opened ProtocolTheorems

  // ---------------------------------------------------------------- no result goes astray

  /** A result sent on a channel is still there until the call returns. */
  ghost predicate SlotKept(st: State) {
    forall c :: 0 <= c < |st.calls| && st.calls[c].sends == 1 && !st.calls[c].pc.Returned? ==> st.calls[c].slot.Some?
  }

  /** A claimed entry whose result has not been sent is in some session loop's hands. */
  ghost predicate ClaimHeld(st: State) {
    forall c :: 0 <= c < |st.calls| && st.calls[c].claimed && st.calls[c].sends == 0 ==> InHands(st, c)
  }

  ghost predicate InHands(st: State, c: nat) {
    exists i :: 0 <= i < |st.sessions| && st.sessions[i].pc.Delivering? && st.sessions[i].pc.call == c
  }

  /** On an unbroken stream the result of a waiting call is settled only by being claimed. */
  ghost predicate NotDiscarded(st: State, c: nat)
    requires c < |st.calls|
  {
    var k := st.calls[c];
    (k.pc.Waiting? && k.session < |st.sessions| && !st.sessions[k.session].broken
     && Results(st.sessions[k.session].settled, k.id) > 0)
    ==> k.claimed
  }

  ghost predicate NoneDiscarded(st: State) {
    forall c :: 0 <= c < |st.calls| ==> NotDiscarded(st, c)
  }

  ghost predicate ProgressInv(st: State) { SlotKept(st) && ClaimHeld(st) && NoneDiscarded(st) }

  /** A registered session settles nothing by itself while its stream is whole. */
  lemma AgentSettlesNothing(s: Session, a: AgentAct, id: CommandId)
    requires AgentEnabled(s, a) && !AgentApply(s, a).broken
    ensures !s.broken && Results(AgentApply(s, a).settled, id) == Results(s.settled, id)
  {
  }

  lemma ServerSettlesNothing(s: Session, b: ServerAct, id: CommandId)
    requires SessionOk(s) && s.registered && ServerEnabled(s, b) && !ServerApply(s, b).broken
    ensures !s.broken && Results(ServerApply(s, b).settled, id) == Results(s.settled, id)
  {
    if b.TakeOther? {
      ResultsOfConcat(s.settled, [s.recv[0]], id);
    }
  }

  /** Loops that hold a claim keep it. */
  lemma HandsKept(st: State, st': State, c: nat, but: nat)
    requires InHands(st, c) && |st.sessions| <= |st'.sessions|
    requires forall i :: 0 <= i < |st.sessions| && i != but && st.sessions[i].pc.Delivering? ==>
               st'.sessions[i].pc == st.sessions[i].pc
    requires but < |st.sessions| && st.sessions[but].pc.Delivering? ==> st.sessions[but].pc.call != c
    ensures InHands(st', c)
  {
    var i :| 0 <= i < |st.sessions| && st.sessions[i].pc.Delivering? && st.sessions[i].pc.call == c;
    assert st'.sessions[i].pc == st.sessions[i].pc;
  }

  ghost predicate SettlesAlike(s: Session, s': Session, id: CommandId) {
    !s'.broken ==> !s.broken && Results(s'.settled, id) == Results(s.settled, id)
  }

  lemma LocalSettlesAlike(st: State, l: Label, id: CommandId)
    requires SessionsOk(st) && Enabled(st, l) && (l.ByAgent? || l.ByServer? || l.Break?)
    ensures st.sessions[l.i].registered ==> SettlesAlike(st.sessions[l.i], Apply(st, l).sessions[l.i], id)
  {
    var s := st.sessions[l.i];
    assert SessionOk(s);
    if s.registered && !Apply(st, l).sessions[l.i].broken {
      match l
      case ByAgent(_, a) => AgentSettlesNothing(s, a, id);
      case ByServer(_, b) => ServerSettlesNothing(s, b, id);
      case _ =>
    }
  }

  lemma AlikeDiscardsNot(st: State, st': State, i: nat, c: nat)
    requires c < |st.calls| && CallOk(st, c) && NotDiscarded(st, c) && st'.calls == st.calls
    requires i < |st.sessions| == |st'.sessions|
    requires forall j :: 0 <= j < |st.sessions| && j != i ==> st'.sessions[j] == st.sessions[j]
    requires st.sessions[i].registered ==> SettlesAlike(st.sessions[i], st'.sessions[i], st.calls[c].id)
    ensures NotDiscarded(st', c)
  {
  }

  lemma LocalDiscardsNone(st: State, l: Label)
    requires SessionsOk(st) && CallsOk(st) && NoneDiscarded(st)
    requires Enabled(st, l) && (l.ByAgent? || l.ByServer? || l.Break?)
    ensures NoneDiscarded(Apply(st, l))
  {
    LocalIsQuiet(st, l);
    forall c | 0 <= c < |Apply(st, l).calls| ensures NotDiscarded(Apply(st, l), c) {
      assert CallOk(st, c) && NotDiscarded(st, c);
      LocalSettlesAlike(st, l, st.calls[c].id);
      AlikeDiscardsNot(st, Apply(st, l), l.i, c);
    }
  }

  lemma QuietKeepsClaims(st: State, st': State, i: nat)
    requires ClaimHeld(st) && i < |st.sessions| == |st'.sessions| && st'.calls == st.calls
    requires Quiet(st.sessions[i], st'.sessions[i])
    requires forall j :: 0 <= j < |st.sessions| && j != i ==> st'.sessions[j] == st.sessions[j]
    ensures ClaimHeld(st')
  {
    forall c | InHands(st, c) ensures InHands(st', c) {
      HandsKept(st, st', c, |st.sessions|);
    }
  }

  lemma LocalKeepsProgress(st: State, l: Label)
    requires Inv(st) && ProgressInv(st) && Enabled(st, l) && (l.ByAgent? || l.ByServer? || l.Break?)
    ensures ProgressInv(Apply(st, l))
  {
    LocalDiscardsNone(st, l);
    LocalIsQuiet(st, l);
    QuietKeepsClaims(st, Apply(st, l), l.i);
  }

  lemma ClaimDiscardsNone(st: State, i: nat, c: nat)
    requires CallsOk(st) && NoneDiscarded(st) && Enabled(st, Claim(i)) && c < |st.calls|
    ensures NotDiscarded(Apply(st, Claim(i)), c)
  {
    var s := st.sessions[i];
    assert NotDiscarded(st, c) && CallOk(st, c);
    ResultsOfConcat(s.settled, [s.recv[0]], st.calls[c].id);
  }

  lemma ClaimKeepsProgress(st: State, i: nat)
    requires CallsOk(st) && ProgressInv(st) && Enabled(st, Claim(i))
    ensures ProgressInv(Apply(st, Claim(i)))
  {
    var st' := Apply(st, Claim(i));
    forall c | 0 <= c < |st'.calls| ensures NotDiscarded(st', c) {
      ClaimDiscardsNone(st, i, c);
    }
    forall c | 0 <= c < |st'.calls| && st'.calls[c].claimed && st'.calls[c].sends == 0 ensures InHands(st', c) {
      if st.calls[c].claimed {
        HandsKept(st, st', c, |st.sessions|);
      } else {
        assert st'.sessions[i].pc.Delivering? && st'.sessions[i].pc.call == c;
      }
    }
  }

  lemma DeliverDiscardsNone(st: State, i: nat, c: nat)
    requires CallsOk(st) && DeliveryOk(st) && Matched(st) && NoneDiscarded(st)
    requires Enabled(st, Deliver(i)) && c < |st.calls|
    ensures NotDiscarded(Apply(st, Deliver(i)), c)
  {
    var s := st.sessions[i];
    assert NotDiscarded(st, c) && CallOk(st, c) && CallOk(st, s.pc.call);
    ResultsOfConcat(s.settled, [ResultMessage(s.pc.result)], st.calls[c].id);
  }

  lemma DeliverKeepsProgress(st: State, i: nat)
    requires CallsOk(st) && DeliveryOk(st) && Matched(st) && ProgressInv(st) && Enabled(st, Deliver(i))
    ensures ProgressInv(Apply(st, Deliver(i)))
  {
    var st' := Apply(st, Deliver(i));
    forall c | 0 <= c < |st'.calls| ensures NotDiscarded(st', c) {
      DeliverDiscardsNone(st, i, c);
    }
    forall c | 0 <= c < |st'.calls| && st'.calls[c].claimed && st'.calls[c].sends == 0 ensures InHands(st', c) {
      HandsKept(st, st', c, i);
    }
  }

  /** The enqueue starts the wait, and nothing has been settled for the call before it. */
  lemma EnqueueDiscardsNone(st: State, c: nat, d: nat)
    requires Inv(st) && HonestInv(st) && NoneDiscarded(st) && Enabled(st, Enqueue(c)) && d < |st.calls|
    ensures NotDiscarded(Apply(st, Enqueue(c)), d)
  {
    assert NotDiscarded(st, d);
    EnqueuedWhere(st, c, st.calls[c].session);
  }

  lemma OtherDiscardsNone(st: State, l: Label, c: nat)
    requires CallsOk(st) && NoneDiscarded(st) && Enabled(st, l) && !OnResultPath(l) && !l.Enqueue?
    requires c < |Apply(st, l).calls|
    ensures NotDiscarded(Apply(st, l), c)
  {
    if c < |st.calls| {
      assert NotDiscarded(st, c) && CallOk(st, c);
    }
  }

  lemma OtherKeepsSlots(st: State, l: Label)
    requires CallsOk(st) && SlotKept(st) && Enabled(st, l) && !OnResultPath(l)
    ensures SlotKept(Apply(st, l))
  {
  }

  lemma OtherKeepsClaims(st: State, l: Label)
    requires CallsOk(st) && ClaimHeld(st) && Enabled(st, l) && !OnResultPath(l)
    ensures ClaimHeld(Apply(st, l))
  {
    OtherStepSameReturns(st, l);
    forall c | InHands(st, c) ensures InHands(Apply(st, l), c) {
      HandsKept(st, Apply(st, l), c, |st.sessions|);
    }
  }

  lemma OtherKeepsProgress(st: State, l: Label)
    requires Inv(st) && HonestInv(st) && ProgressInv(st) && Enabled(st, l) && !OnResultPath(l)
    ensures ProgressInv(Apply(st, l))
  {
    forall c | 0 <= c < |Apply(st, l).calls| ensures NotDiscarded(Apply(st, l), c) {
      if l.Enqueue? {
        EnqueueDiscardsNone(st, l.c, c);
      } else {
        OtherDiscardsNone(st, l, c);
      }
    }
    OtherKeepsSlots(st, l);
    OtherKeepsClaims(st, l);
  }

  lemma StepKeepsProgress(st: State, l: Label)
    requires Inv(st) && HonestInv(st) && ProgressInv(st) && Enabled(st, l)
    ensures ProgressInv(Apply(st, l))
  {
    if l.Claim? {
      ClaimKeepsProgress(st, l.i);
    } else if l.Deliver? {
      DeliverKeepsProgress(st, l.i);
    } else if OnResultPath(l) {
      LocalKeepsProgress(st, l);
    } else {
      OtherKeepsProgress(st, l);
    }
  }

  lemma {:induction false} RunKeepsProgress(st: State, ls: seq<Label>)
    requires Inv(st) && HonestInv(st) && ProgressInv(st) && AllHonest(ls) && CanRun(st, ls)
    ensures ProgressInv(After(st, ls))
    decreases |ls|
  {
    if ls != [] {
      StepKeepsInv(st, ls[0]);
      StepKeepsHonest(st, ls[0]);
      StepKeepsProgress(st, ls[0]);
      assert forall n :: 0 <= n < |ls[1..]| ==> ls[1..][n] == ls[n + 1];
      RunKeepsProgress(Apply(st, ls[0]), ls[1..]);
    }
  }

  lemma HonestlyReachableProgress(st: State)
    requires HonestlyReachable(st)
    ensures ProgressInv(st)
  {
    var ls :| AllHonest(ls) && CanRun(INIT, ls) && After(INIT, ls) == st;
    RunKeepsProgress(INIT, ls);
  }

  // ---------------------------------------------------------------- draining a session

  /** Both loops run and the stream is whole. */
  predicate Healthy(s: Session) { !s.broken && InLoop(s.pc) && s.conn == InSession }

  /** How many steps the messages of a session can still take. */
  function Work(s: Session): nat {
    8 * |s.send| + (if s.pc.Sending? then 7 else 0) + 6 * |s.down| + 5 * |s.inbox| + 4 * |s.running|
    + 3 * |s.up| + 2 * |s.recv| + (if s.pc.Delivering? then 1 else 0)
  }

  /** The step that moves the message nearest its end. */
  function DrainStep(s: Session, i: nat): Label {
    if s.pc.Delivering? then Deliver(i)
    else if s.pc.Sending? then ByServer(i, SendOutbound)
    else if s.recv != [] then if s.recv[0].ResultMessage? then Claim(i) else ByServer(i, TakeOther)
    else if s.up != [] then ByServer(i, ServerRead)
    else if s.running != [] then ByAgent(i, Finish(0, None))
    else if s.inbox != [] then ByAgent(i, Hand)
    else if s.down != [] then ByAgent(i, AgentRead)
    else ByServer(i, TakeOutbound)
  }

  lemma DrainStepEnabled(st: State, i: nat)
    requires Reachable(st) && i < |st.sessions| && Healthy(st.sessions[i]) && Work(st.sessions[i]) > 0
    ensures Enabled(st, DrainStep(st.sessions[i], i)) && Honest(DrainStep(st.sessions[i], i))
  {
    if st.sessions[i].pc.Delivering? {
      DeliveryNeverBlocks(st, i);
    }
  }

  lemma AgentDrains(s: Session, a: AgentAct)
    requires Healthy(s) && AgentEnabled(s, a) && (a.AgentRead? || a.Hand? || a.Finish?)
    ensures Healthy(AgentApply(s, a)) && Work(AgentApply(s, a)) < Work(s)
  {
  }

  lemma ServerDrains(s: Session, b: ServerAct)
    requires Healthy(s) && ServerEnabled(s, b)
    requires b.SendOutbound? || b.TakeOther? || b.ServerRead? || b.TakeOutbound?
    ensures Healthy(ServerApply(s, b)) && Work(ServerApply(s, b)) < Work(s)
  {
  }

  lemma DrainStepDrains(st: State, i: nat)
    requires i < |st.sessions| && Healthy(st.sessions[i]) && Enabled(st, DrainStep(st.sessions[i], i))
    ensures
      var st' := Apply(st, DrainStep(st.sessions[i], i));
      && |st'.sessions| == |st.sessions| && Healthy(st'.sessions[i])
      && Work(st'.sessions[i]) < Work(st.sessions[i])
  {
    match DrainStep(st.sessions[i], i)
    case ByAgent(_, a) => AgentDrains(st.sessions[i], a);
    case ByServer(_, b) => ServerDrains(st.sessions[i], b);
    case _ =>
  }

  lemma DrainStepKeepsWaiting(st: State, i: nat, c: nat)
    requires i < |st.sessions| && c < |st.calls| && Enabled(st, DrainStep(st.sessions[i], i))
    ensures
      var st' := Apply(st, DrainStep(st.sessions[i], i));
      c < |st'.calls| && st'.calls[c].pc == st.calls[c].pc && st'.calls[c].session == st.calls[c].session
  {
    var l := DrainStep(st.sessions[i], i);
    if l.ByAgent? || l.ByServer? {
      LocalKeepsCalls(st, l);
    }
  }

  lemma LocalKeepsCalls(st: State, l: Label)
    requires Enabled(st, l) && (l.ByAgent? || l.ByServer? || l.Break?)
    ensures Apply(st, l).calls == st.calls
  {
  }

  /** A call that still waits when its session has nothing left to move has its result. */
  lemma DrainedMeansDelivered(st: State, c: nat)
    requires HonestlyReachable(st) && c < |st.calls| && st.calls[c].pc.Waiting? && st.calls[c].session < |st.sessions|
    requires Healthy(st.sessions[st.calls[c].session]) && Work(st.sessions[st.calls[c].session]) == 0
    ensures st.calls[c].slot.Some?
  {
    HonestlyReachableInv(st);
    HonestlyReachableProgress(st);
    var k := st.calls[c];
    var s := st.sessions[k.session];
    EnqueuedWhere(st, c, k.session);
    assert SessionOk(s) && CallOk(st, c) && NotDiscarded(st, c);
    assert s.dropped == [] && Live(s, k.id) == 0;
    assert k.claimed;
    HandsAreOwn(st, c);
  }

  /** Only a call's own session holds a claim on it. */
  lemma HandsAreOwn(st: State, c: nat)
    requires Matched(st) && c < |st.calls| && st.calls[c].session < |st.sessions|
    ensures InHands(st, c) ==> st.sessions[st.calls[c].session].pc.Delivering?
  {
  }

  /** From any state an honest run can reach, a call waiting on a healthy session can be
      answered: the protocol has no deadlock between its queues, loops and channels. */
  lemma {:induction false} WaitingCanBeAnswered(st: State, c: nat) returns (st': State)
    requires HonestlyReachable(st) && c < |st.calls| && st.calls[c].pc.Waiting? && st.calls[c].session < |st.sessions|
    requires Healthy(st.sessions[st.calls[c].session])
    ensures HonestlyReaches(st, st') && c < |st'.calls|
    ensures st'.calls[c].pc.Returned? && st'.calls[c].pc.answer.Answered?
    decreases Work(st.sessions[st.calls[c].session])
  {
    var i := st.calls[c].session;
    HonestlyStays(st);
    if st.calls[c].slot.Some? {
      st' := Apply(st, TakeResult(c));
      HonestlySteps(st, st, TakeResult(c));
    } else {
      if Work(st.sessions[i]) == 0 {
        DrainedMeansDelivered(st, c);
      }
      HonestIsReachable(st);
      DrainStepEnabled(st, i);
      DrainStepDrains(st, i);
      DrainStepKeepsWaiting(st, i, c);
      var l := DrainStep(st.sessions[i], i);
      HonestlySteps(INIT, st, l);
      HonestlySteps(st, st, l);
      var end := WaitingCanBeAnswered(Apply(st, l), c);
      HonestlyComposes(st, Apply(st, l), end);
      st' := end;
    }
  }

  lemma HonestlyComposes(a: State, b: State, c: State)
    requires HonestlyReaches(a, b) && HonestlyReaches(b, c)
    ensures HonestlyReaches(a, c)
  {
    var ls :| AllHonest(ls) && CanRun(b, ls) && After(b, ls) == c;
    HonestlyExtends(a, b, ls);
  }
}
