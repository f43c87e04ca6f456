/** The part of the invariant that needs agents running this repository's code: every
result on its way back was computed for the command it names, once, on the session its
call is bound to. */
module HonestInvariant {
  import opened Messages
  import opened Dispatcher
  import opened Protocol
  import opened SessionInvariant
  import opened ProtocolInvariant

  ghost predicate AllBalanced(st: State) {
    forall i, id :: 0 <= i < |st.sessions| ==> Balanced(st.sessions[i], id)
  }

  ghost predicate Faithful(st: State) {
    forall i :: 0 <= i < |st.sessions| ==> AllGenuine(st.sessions[i])
  }

  /** A session loop delivers only to a call bound to that session, and its own result. */
  ghost predicate Matched(st: State) {
    forall i :: 0 <= i < |st.sessions| && st.sessions[i].pc.Delivering? ==>
      var s := st.sessions[i];
      s.pc.call < |st.calls| && Numbered(st.calls[s.pc.call])
      && st.calls[s.pc.call].session == i && st.calls[s.pc.call].id == s.pc.result.id
  }

  /** The call holds this result, in its channel or as its return value. */
  predicate Holds(k: Call, r: CommandResult) {
    k.slot == Some(r) || k.pc == Returned(Answered(r))
  }

  ghost predicate CallFaithful(st: State, c: nat)
    requires c < |st.calls|
  {
    var k := st.calls[c];
    && (forall r :: Holds(k, r) ==>
          k.session < |st.sessions| && Numbered(k) && r.id == k.id && Genuine(st.sessions[k.session], r))
    && (k.sends > 0 ==> k.session < |st.sessions| && Results(st.sessions[k.session].settled, k.id) > 0)
  }

  ghost predicate CallsFaithful(st: State) {
    forall c :: 0 <= c < |st.calls| ==> CallFaithful(st, c)
  }

  ghost predicate HonestInv(st: State) {
    AllBalanced(st) && Faithful(st) && Matched(st) && CallsFaithful(st)
  }

  // ---------------------------------------------------------------- steps of one session

  lemma SettledGrows(a: seq<AgentMessage>, b: seq<AgentMessage>, id: CommandId)
    requires a <= b
    ensures Results(a, id) <= Results(b, id)
  {
    assert b == a + b[|a|..];
    ResultsOfConcat(a, b[|a|..], id);
  }

  /** Calls keep their identity and gain no result. */
  ghost predicate SameHoldings(st: State, st': State) {
    && |st.calls| <= |st'.calls|
    && (forall c :: 0 <= c < |st.calls| ==>
          var k, k' := st.calls[c], st'.calls[c];
          && k'.session == k.session && k'.sends == k.sends
          && (Numbered(k) ==> Numbered(k') && k'.id == k.id)
          && (forall r :: Holds(k', r) ==> Holds(k, r)))
    && (forall c :: |st.calls| <= c < |st'.calls| ==>
          st'.calls[c].sends == 0 && forall r :: !Holds(st'.calls[c], r))
  }

  /** Sessions keep their modules, and their executed and settled histories only grow. */
  ghost predicate Grows(st: State, st': State) {
    && |st.sessions| <= |st'.sessions|
    && (forall i :: 0 <= i < |st.sessions| ==>
          var s, s' := st.sessions[i], st'.sessions[i];
          s'.modules == s.modules && s.executed <= s'.executed && s.settled <= s'.settled)
  }

  /** Whoever gained no result keeps a faithful one. */
  lemma HoldingsStayFaithful(st: State, st': State)
    requires CallsOk(st) && CallsFaithful(st) && Grows(st, st') && SameHoldings(st, st')
    ensures CallsFaithful(st')
  {
    forall c | 0 <= c < |st'.calls| ensures CallFaithful(st', c) {
      if c < |st.calls| {
        assert CallFaithful(st, c) && CallOk(st, c);
        var k := st.calls[c];
        if k.session < |st.sessions| {
          SettledGrows(st.sessions[k.session].settled, st'.sessions[k.session].settled, k.id);
          forall r | Genuine(st.sessions[k.session], r) ensures Genuine(st'.sessions[k.session], r) {
            GenuineStays(st.sessions[k.session], st'.sessions[k.session], r);
          }
        }
      }
    }
  }

  lemma QuietKeepsHonest(st: State, i: nat, s': Session)
    requires CallsOk(st) && HonestInv(st) && i < |st.sessions| && Quiet(st.sessions[i], s')
    requires AllGenuine(s') && forall id :: Balanced(s', id)
    ensures HonestInv(WithSession(st, i, s'))
  {
    HoldingsStayFaithful(st, WithSession(st, i, s'));
  }

  lemma LocalKeepsHonest(st: State, l: Label)
    requires Inv(st) && HonestInv(st) && Honest(l) && Enabled(st, l) && (l.ByAgent? || l.ByServer? || l.Break?)
    ensures HonestInv(Apply(st, l))
  {
    var s := st.sessions[l.i];
    assert SessionOk(s) && AllGenuine(s);
    match l
    case ByAgent(i, a) =>
      AgentIsQuiet(s, a);
      AgentKeepsGenuine(s, a);
      forall id ensures Balanced(AgentApply(s, a), id) {
        assert Balanced(s, id);
        AgentKeepsBalance(s, a, id);
      }
      QuietKeepsHonest(st, i, AgentApply(s, a));
    case ByServer(i, b) =>
      ServerIsQuiet(s, b);
      ServerKeepsGenuine(s, b);
      forall id ensures Balanced(ServerApply(s, b), id) {
        assert Balanced(s, id);
        ServerKeepsBalance(s, b, id);
      }
      QuietKeepsHonest(st, i, ServerApply(s, b));
    case Break(i, keepUp, keepDown) =>
      var s' := Cut(s, keepUp, keepDown);
      GenuineCarries(s, s');
      forall id ensures Balanced(s', id) {
        assert Balanced(s, id);
        CutKeepsBalance(s, keepUp, keepDown, id);
      }
      QuietKeepsHonest(st, i, s');
  }

  // ---------------------------------------------------------------- a result comes in

  /** A result that names a pending call was computed on that call's own session. */
  lemma GenuineResultMatches(st: State, i: nat, r: CommandResult)
    requires Inv(st) && i < |st.sessions| && Genuine(st.sessions[i], r) && r.id in st.pending
    ensures st.pending[r.id] < |st.calls| && st.calls[st.pending[r.id]].session == i
    ensures Numbered(st.calls[st.pending[r.id]]) && st.calls[st.pending[r.id]].id == r.id
  {
    var s := st.sessions[i];
    var e :| e in s.executed && r == Dispatch(s.modules, e.cmd, e.outcome);
    assert SessionOk(s);
    HandedWasEnqueued(s, e.cmd);
    assert Owns(st, i, e.cmd);
    assert CallOk(st, st.pending[r.id]);
  }

  lemma HandedWasEnqueued(s: Session, cmd: Command)
    requires InOrder(s) && cmd in s.handed
    ensures cmd in s.enqueued
  {
    var n :| 0 <= n < |s.handed| && s.handed[n] == cmd;
    assert s.enqueued[n] == cmd;
  }

  lemma ClaimKeepsBalance(st: State, i: nat, id: CommandId)
    requires AllBalanced(st) && Enabled(st, Claim(i))
    ensures Balanced(Apply(st, Claim(i)).sessions[i], id)
  {
    var s := st.sessions[i];
    assert Balanced(s, id);
    ResultsOfConcat(s.settled, [s.recv[0]], id);
  }

  lemma ClaimKeepsFaithful(st: State, i: nat)
    requires Faithful(st) && Enabled(st, Claim(i))
    ensures Faithful(Apply(st, Claim(i)))
  {
    var st' := Apply(st, Claim(i));
    assert AllGenuine(st.sessions[i]);
    GenuineCarries(st.sessions[i], st'.sessions[i]);
  }

  lemma ClaimKeepsCallsFaithful(st: State, i: nat)
    requires CallsOk(st) && CallsFaithful(st) && Enabled(st, Claim(i))
    ensures CallsFaithful(Apply(st, Claim(i)))
  {
    var st' := Apply(st, Claim(i));
    assert SameHoldings(st, st');
    HoldingsStayFaithful(st, st');
  }

  lemma ClaimKeepsMatched(st: State, i: nat)
    requires Inv(st) && Faithful(st) && Matched(st) && Enabled(st, Claim(i))
    ensures Matched(Apply(st, Claim(i)))
  {
    var r := st.sessions[i].recv[0].result;
    assert AllGenuine(st.sessions[i]);
    if r.id in st.pending {
      GenuineResultMatches(st, i, r);
    }
    MatchingClaimKeepsMatched(st, i);
  }

  lemma MatchingClaimKeepsMatched(st: State, i: nat)
    requires Matched(st) && Enabled(st, Claim(i))
    requires var r := st.sessions[i].recv[0].result;
      r.id in st.pending && st.pending[r.id] < |st.calls| ==>
        Numbered(st.calls[st.pending[r.id]])
        && st.calls[st.pending[r.id]].session == i && st.calls[st.pending[r.id]].id == r.id
    ensures Matched(Apply(st, Claim(i)))
  {
  }

  lemma ClaimKeepsHonest(st: State, i: nat)
    requires Inv(st) && HonestInv(st) && Enabled(st, Claim(i))
    ensures HonestInv(Apply(st, Claim(i)))
  {
    forall id ensures Balanced(Apply(st, Claim(i)).sessions[i], id) {
      ClaimKeepsBalance(st, i, id);
    }
    ClaimKeepsFaithful(st, i);
    ClaimKeepsMatched(st, i);
    ClaimKeepsCallsFaithful(st, i);
  }

  lemma DeliverKeepsBalance(st: State, i: nat, id: CommandId)
    requires AllBalanced(st) && Enabled(st, Deliver(i))
    ensures Balanced(Apply(st, Deliver(i)).sessions[i], id)
  {
    var s := st.sessions[i];
    assert Balanced(s, id);
    ResultsOfConcat(s.settled, [ResultMessage(s.pc.result)], id);
  }

  lemma DeliverKeepsCallsFaithful(st: State, i: nat)
    requires CallsFaithful(st) && Faithful(st) && Matched(st) && Enabled(st, Deliver(i))
    ensures CallsFaithful(Apply(st, Deliver(i)))
  {
    var st' := Apply(st, Deliver(i));
    var s, s' := st.sessions[i], st'.sessions[i];
    assert AllGenuine(s);
    forall c | 0 <= c < |st'.calls| ensures CallFaithful(st', c) {
      assert CallFaithful(st, c);
      var k' := st'.calls[c];
      if k'.session == i {
        SettledGrows(s.settled, s'.settled, k'.id);
        ResultsOfConcat(s.settled, [ResultMessage(s.pc.result)], k'.id);
        forall r | Holds(k', r) ensures Genuine(s', r) {
          GenuineStays(s, s', r);
        }
      }
    }
  }

  lemma DeliverKeepsSessions(st: State, i: nat)
    requires Faithful(st) && Matched(st) && Enabled(st, Deliver(i))
    ensures Faithful(Apply(st, Deliver(i))) && Matched(Apply(st, Deliver(i)))
  {
    assert AllGenuine(st.sessions[i]);
    GenuineCarries(st.sessions[i], Apply(st, Deliver(i)).sessions[i]);
  }

  lemma DeliverKeepsHonest(st: State, i: nat)
    requires HonestInv(st) && Enabled(st, Deliver(i))
    ensures HonestInv(Apply(st, Deliver(i)))
  {
    forall id ensures Balanced(Apply(st, Deliver(i)).sessions[i], id) {
      DeliverKeepsBalance(st, i, id);
    }
    DeliverKeepsSessions(st, i);
    DeliverKeepsCallsFaithful(st, i);
  }

  // ---------------------------------------------------------------- the other steps

  /** Sessions keep the fields the way back reads; only fresh sessions are added. */
  ghost predicate SameReturns(st: State, st': State) {
    && |st.sessions| <= |st'.sessions|
    && (forall i :: 0 <= i < |st.sessions| ==>
          var s, s' := st.sessions[i], st'.sessions[i];
          && s'.handed == s.handed && s'.running == s.running && s'.up == s.up && s'.recv == s.recv
          && s'.settled == s.settled && s'.executed == s.executed && s'.modules == s.modules
          && s'.pc.Delivering? == s.pc.Delivering? && (s.pc.Delivering? ==> s'.pc == s.pc))
    && (forall i :: |st.sessions| <= i < |st'.sessions| ==>
          exists agent, modules :: st'.sessions[i] == NewSession(agent, modules))
  }

  lemma SameReturnsKeeps(st: State, st': State)
    requires AllBalanced(st) && Faithful(st) && SameReturns(st, st')
    ensures AllBalanced(st') && Faithful(st')
  {
    forall i, id | 0 <= i < |st'.sessions| ensures Balanced(st'.sessions[i], id) {
      if i < |st.sessions| {
        assert Balanced(st.sessions[i], id);
      }
    }
    forall i | 0 <= i < |st'.sessions| ensures AllGenuine(st'.sessions[i]) {
      if i < |st.sessions| {
        assert AllGenuine(st.sessions[i]);
        GenuineCarries(st.sessions[i], st'.sessions[i]);
      }
    }
  }

  predicate OnResultPath(l: Label) { l.ByAgent? || l.ByServer? || l.Break? || l.Claim? || l.Deliver? }

  lemma OtherStepSameReturns(st: State, l: Label)
    requires Enabled(st, l) && !OnResultPath(l)
    ensures SameReturns(st, Apply(st, l))
  {
  }

  /** Off the result path a call may move its result from its channel to its return value,
      but gains none. */
  lemma OtherStepSameHoldings(st: State, l: Label)
    requires Enabled(st, l) && !OnResultPath(l)
    ensures SameHoldings(st, Apply(st, l))
  {
    if Alone(l) {
      AloneSameHoldings(st, l);
    }
  }

  lemma AloneSameHoldings(st: State, l: Label)
    requires Enabled(st, l) && Alone(l)
    ensures SameHoldings(st, Apply(st, l))
  {
  }

  lemma SameHoldingsKeepsMatched(st: State, st': State)
    requires Matched(st) && SameReturns(st, st') && SameHoldings(st, st')
    ensures Matched(st')
  {
  }

  lemma OtherKeepsHonest(st: State, l: Label)
    requires CallsOk(st) && HonestInv(st) && Enabled(st, l) && !OnResultPath(l)
    ensures HonestInv(Apply(st, l))
  {
    OtherStepSameReturns(st, l);
    SameReturnsKeeps(st, Apply(st, l));
    OtherStepSameHoldings(st, l);
    HoldingsStayFaithful(st, Apply(st, l));
    SameHoldingsKeepsMatched(st, Apply(st, l));
  }

  lemma StepKeepsHonest(st: State, l: Label)
    requires Inv(st) && HonestInv(st) && Honest(l) && Enabled(st, l)
    ensures HonestInv(Apply(st, l))
  {
    match l
    case ByAgent(_, _) => LocalKeepsHonest(st, l);
    case ByServer(_, _) => LocalKeepsHonest(st, l);
    case Break(_, _, _) => LocalKeepsHonest(st, l);
    case Claim(i) => ClaimKeepsHonest(st, i);
    case Deliver(i) => DeliverKeepsHonest(st, i);
    case _ => OtherKeepsHonest(st, l);
  }

  lemma {:induction false} RunKeepsHonest(st: State, ls: seq<Label>)
    requires Inv(st) && HonestInv(st) && AllHonest(ls) && CanRun(st, ls)
    ensures Inv(After(st, ls)) && HonestInv(After(st, ls))
    decreases |ls|
  {
    if ls != [] {
      StepKeepsInv(st, ls[0]);
      StepKeepsHonest(st, ls[0]);
      assert forall n :: 0 <= n < |ls[1..]| ==> ls[1..][n] == ls[n + 1];
      RunKeepsHonest(Apply(st, ls[0]), ls[1..]);
    }
  }

  /** The full invariant holds in every state reached by agents running this code. */
  lemma HonestlyReachableInv(st: State)
    requires HonestlyReachable(st)
    ensures Inv(st) && HonestInv(st)
  {
    var ls :| AllHonest(ls) && CanRun(INIT, ls) && After(INIT, ls) == st;
    RunKeepsHonest(INIT, ls);
  }
}
