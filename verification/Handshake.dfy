/** What a stream has to show before the server answers on it: a registration, and one with
a token before it is accepted. */
module Handshake {
  import opened Messages
  import opened Dispatcher
  import opened Protocol
  import opened ProtocolInvariant

  /** The server took a registration off the stream, with a token if one is asked for. */
  ghost predicate TookRegistration(s: Session, withToken: bool) {
    exists t, h :: RegisterRequest(t, h) in s.settled && (withToken ==> t != "")
  }

  /** What each phase of the handshake, and each reply sent, rests on. */
  ghost predicate Asked(s: Session) {
    && (s.pc.Authenticating? ==> RegisterRequest(s.pc.token, s.pc.hostname) in s.settled)
    && (s.pc.Rejecting? || s.sent != [] ==> TookRegistration(s, false))
    && (s.pc.Accepting? || s.pc.Registering? || Listed(s) ==> TookRegistration(s, true))
    && (s.sent != [] && s.sent[0].RegisterResponse? && s.sent[0].accepted ==> TookRegistration(s, true))
  }

  ghost predicate AllAsked(st: State) { forall i :: 0 <= i < |st.sessions| ==> Asked(st.sessions[i]) }

  lemma MoreSettled(s: Session, s': Session, withToken: bool)
    requires TookRegistration(s, withToken) && s.settled <= s'.settled
    ensures TookRegistration(s', withToken) && TookRegistration(s', false)
  {
    var t, h :| RegisterRequest(t, h) in s.settled && (withToken ==> t != "");
    assert RegisterRequest(t, h) in s'.settled;
  }

  /** What a session sees of a step that neither of its ends takes alone. */
  ghost predicate Outer(s: Session, s': Session) {
    && s'.agent == s.agent && s'.serverId == s.serverId && s'.conn == s.conn && s'.sent == s.sent
    && s.settled <= s'.settled && (s.broken ==> s'.broken)
    && (s'.registered == s.registered || (s.pc.Registering? && s'.pc.Selecting?))
    && (s'.pc == s.pc || (InLoop(s.pc) && InLoop(s'.pc))
        || (s.pc.Registering? && s'.pc.Selecting?) || (s.pc.Exiting? && s'.pc.Closed?))
  }

  lemma OuterStep(st: State, l: Label, i: nat)
    requires Enabled(st, l) && i < |st.sessions| && !((l.ByServer? || l.ByAgent?) && l.i == i)
    ensures i < |Apply(st, l).sessions| && Outer(st.sessions[i], Apply(st, l).sessions[i])
  {
    if l.Claim? || l.Deliver? || l.Register? || l.Unregister? {
      LoopOuterStep(st, l, i);
    } else {
      hide AgentEnabled, AgentApply, ServerApply, ServerEnabled;
    }
  }

  lemma LoopOuterStep(st: State, l: Label, i: nat)
    requires Enabled(st, l) && i < |st.sessions| && (l.Claim? || l.Deliver? || l.Register? || l.Unregister?)
    ensures i < |Apply(st, l).sessions| && Outer(st.sessions[i], Apply(st, l).sessions[i])
  {
    hide AgentEnabled, AgentApply, ServerApply, ServerEnabled;
  }

  /** Steps that neither answer nor authenticate. */
  ghost predicate Later(s: Session, s': Session) {
    && s'.sent == s.sent && s.settled <= s'.settled
    && (s'.pc == s.pc || s'.pc.Closed? || ((s.pc.Registering? || Listed(s)) && Listed(s')))
  }

  lemma LaterKeepsAsked(s: Session, s': Session)
    requires Asked(s) && Later(s, s')
    ensures Asked(s')
  {
    forall b | TookRegistration(s, b) {
      MoreSettled(s, s', b);
    }
  }

  lemma ServerKeepsAsked(s: Session, b: ServerAct)
    requires Asked(s) && ServerEnabled(s, b)
    ensures Asked(ServerApply(s, b))
  {
    var s' := ServerApply(s, b);
    assert s.settled <= s'.settled;
    forall w | TookRegistration(s, w) {
      MoreSettled(s, s', w);
    }
    if b.Authenticate? {
      assert RegisterRequest(s.pc.token, s.pc.hostname) in s'.settled;
      assert TookRegistration(s', false) && (b.verdict.Some? ==> TookRegistration(s', true));
    }
  }

  lemma AgentIsLater(s: Session, a: AgentAct)
    requires AgentEnabled(s, a)
    ensures Later(s, AgentApply(s, a))
  {
  }

  lemma OtherIsLater(st: State, l: Label, i: nat)
    requires Enabled(st, l) && i < |st.sessions| && !(l.ByServer? && l.i == i)
    ensures i < |Apply(st, l).sessions| && Later(st.sessions[i], Apply(st, l).sessions[i])
  {
    hide AgentEnabled, AgentApply, ServerApply, ServerEnabled;
    if l.ByAgent? && l.i == i {
      AgentIsLater(st.sessions[i], l.a);
    } else {
      OuterStep(st, l, i);
    }
  }

  lemma StepKeepsAsked(st: State, l: Label)
    requires AllAsked(st) && Enabled(st, l)
    ensures AllAsked(Apply(st, l))
  {
    hide Asked, Later, AgentEnabled, AgentApply, ServerApply, ServerEnabled;
    var st' := Apply(st, l);
    forall i | 0 <= i < |st'.sessions| ensures Asked(st'.sessions[i]) {
      if i < |st.sessions| {
        var s, s' := st.sessions[i], st'.sessions[i];
        if l.ByServer? && l.i == i {
          assert s' == ServerApply(s, l.b);
          ServerKeepsAsked(s, l.b);
        } else {
          OtherIsLater(st, l, i);
          LaterKeepsAsked(s, s');
        }
      } else {
        NewIsAsked(st, l);
      }
    }
  }

  lemma NewIsAsked(st: State, l: Label)
    requires Enabled(st, l)
    ensures |Apply(st, l).sessions| > |st.sessions| ==>
              |Apply(st, l).sessions| == |st.sessions| + 1 && Asked(Apply(st, l).sessions[|st.sessions|])
  {
    hide AgentEnabled, AgentApply, ServerApply, ServerEnabled;
  }

  lemma {:induction false} RunKeepsAsked(st: State, ls: seq<Label>)
    requires AllAsked(st) && CanRun(st, ls)
    ensures AllAsked(After(st, ls))
    decreases |ls|
  {
    if ls != [] {
      StepKeepsAsked(st, ls[0]);
      RunKeepsAsked(Apply(st, ls[0]), ls[1..]);
    }
  }

  /** In every reachable state, whatever the agents send: nothing goes out on a stream before
      a registration came in on it, and no acceptance before one with a token. */
  lemma RepliesAnswerRegistrations(st: State, i: nat)
    requires Reachable(st) && i < |st.sessions|
    ensures
      var s := st.sessions[i];
      && (s.sent != [] ==> exists t, h :: RegisterRequest(t, h) in s.settled)
      && (s.sent != [] && s.sent[0].RegisterResponse? && s.sent[0].accepted ==>
            exists t, h :: RegisterRequest(t, h) in s.settled && t != "")
  {
    var ls :| CanRun(INIT, ls) && After(INIT, ls) == st;
    RunKeepsAsked(INIT, ls);
    assert Asked(st.sessions[i]);
  }

  // ---------------------------------------------------------------- what a verdict decides

  /** The session was refused: it is answered so unless the stream is gone. */
  ghost predicate Refused(s: Session) {
    && !s.registered
    && ((s.pc.Rejecting? && s.sent == [])
        || (s.pc.Closed? && (s.sent == [RegisterResponse(false, "")] || (s.sent == [] && s.broken))))
  }

  /** The session was accepted under this identifier: it is answered so, and listed, unless the
      stream is gone. */
  ghost predicate AcceptedAs(s: Session, id: ServerId) {
    && s.serverId == id && (s.sent != [] ==> s.sent[0] == RegisterResponse(true, id))
    && (s.pc.Accepting? || (s.sent != [] && (s.pc.Registering? || InLoop(s.pc)))
        || ((s.pc.Exiting? || s.pc.Closed?) && s.broken))
  }

  ghost predicate Decided(s: Session, verdict: Option<ServerId>) {
    match verdict
    case None => Refused(s)
    case Some(id) => AcceptedAs(s, id)
  }

  lemma ServerKeepsDecided(s: Session, b: ServerAct, v: Option<ServerId>)
    requires Decided(s, v) && ServerEnabled(s, b)
    ensures Decided(ServerApply(s, b), v)
  {
  }

  lemma AgentKeepsDecided(s: Session, a: AgentAct, v: Option<ServerId>)
    requires Decided(s, v) && AgentEnabled(s, a)
    ensures Decided(AgentApply(s, a), v)
  {
    hide Dispatch;
  }

  lemma OuterKeepsDecided(s: Session, s': Session, v: Option<ServerId>)
    requires Decided(s, v) && Outer(s, s')
    ensures Decided(s', v)
  {
  }

  lemma StepKeepsDecided(st: State, l: Label, i: nat, v: Option<ServerId>)
    requires Enabled(st, l) && i < |st.sessions| && Decided(st.sessions[i], v)
    ensures i < |Apply(st, l).sessions| && Decided(Apply(st, l).sessions[i], v)
  {
    hide AgentEnabled, AgentApply, ServerApply, ServerEnabled, Decided, Outer;
    if l.ByAgent? && l.i == i {
      AgentKeepsDecided(st.sessions[i], l.a, v);
    } else if l.ByServer? && l.i == i {
      ServerKeepsDecided(st.sessions[i], l.b, v);
    } else {
      OuterStep(st, l, i);
      OuterKeepsDecided(st.sessions[i], Apply(st, l).sessions[i], v);
    }
  }

  lemma {:induction false} RunKeepsDecided(st: State, ls: seq<Label>, i: nat, v: Option<ServerId>)
    requires CanRun(st, ls) && i < |st.sessions| && Decided(st.sessions[i], v)
    ensures i < |After(st, ls).sessions| && Decided(After(st, ls).sessions[i], v)
    decreases |ls|
  {
    if ls != [] {
      StepKeepsDecided(st, ls[0], i, v);
      RunKeepsDecided(Apply(st, ls[0]), ls[1..], i, v);
    }
  }

  /** Whatever happens after the verdict: a refused stream carries at most the refusal and is
      never registered, and is not closed without it unless it broke; an accepted one keeps its
      identifier, is told it before anything else, and is not closed unless it broke. */
  lemma VerdictDecides(st: State, i: nat, verdict: Option<ServerId>, ls: seq<Label>)
    requires Reachable(st) && Enabled(st, ByServer(i, Authenticate(verdict)))
    requires CanRun(Apply(st, ByServer(i, Authenticate(verdict))), ls)
    ensures
      var end := After(Apply(st, ByServer(i, Authenticate(verdict))), ls);
      && i < |end.sessions|
      && var s := end.sessions[i];
         && (verdict == None ==>
               && !s.registered && (s.sent == [] || s.sent == [RegisterResponse(false, "")])
               && (s.pc.Closed? && !s.broken ==> s.sent != []))
         && (verdict.Some? ==>
               && s.serverId == verdict.value
               && (s.sent != [] ==> s.sent[0] == RegisterResponse(true, verdict.value))
               && (s.pc.Closed? ==> s.broken))
  {
    ReachableInv(st);
    var s := st.sessions[i];
    assert SessionOk(s) && s.sent == [] && !s.registered;
    RunKeepsDecided(Apply(st, ByServer(i, Authenticate(verdict))), ls, i, verdict);
  }
}
