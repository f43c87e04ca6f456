/** The inductive invariant of the whole command protocol, and its proof step by step. */
module ProtocolInvariant {
  import opened Messages
  import opened Dispatcher
  import opened Protocol
  import opened SessionInvariant

  // ---------------------------------------------------------------- the parts

  /** The call owns a live entry of `pending`. */
  predicate InPending(k: Call) {
    Numbered(k) && !k.claimed && (k.pc.Issued? || k.pc.Waiting? || k.pc.Expired?)
  }

  /** One call: its identifier, its session and the use of its result channel. */
  ghost predicate CallOk(st: State, c: nat)
    requires c < |st.calls|
  {
    var k := st.calls[c];
    && (Bound(k) ==> k.session < |st.sessions| && st.sessions[k.session].registered
                     && st.sessions[k.session].serverId == k.server)
    && (Numbered(k) ==> k.id in st.issuedBy && st.issuedBy[k.id] == c)
    && (HasEnqueued(k) ==> CommandOf(k) in st.sessions[k.session].enqueued)
    && (!Numbered(k) ==> !k.claimed)
    && (InPending(k) ==> k.id in st.pending && st.pending[k.id] == c)
    && k.sends <= (if k.claimed then 1 else 0)
    && (k.slot.Some? ==> k.sends == 1)
    && (k.pc.Returned? && k.pc.answer.Answered? ==> k.claimed)
  }

  ghost predicate CallsOk(st: State) {
    forall c :: 0 <= c < |st.calls| ==> CallOk(st, c)
  }

  /** Every entry of `pending` is the live entry of the call it names. */
  ghost predicate PendingOk(st: State) {
    forall id :: id in st.pending ==>
      st.pending[id] < |st.calls| && InPending(st.calls[st.pending[id]]) && st.calls[st.pending[id]].id == id
  }

  ghost predicate IssuedOk(st: State) {
    forall id :: id in st.issuedBy ==>
      st.issuedBy[id] < |st.calls| && Numbered(st.calls[st.issuedBy[id]]) && st.calls[st.issuedBy[id]].id == id
  }

  /** A session loop about to send on a result channel is the only one that ever will. */
  ghost predicate DeliveryOk(st: State) {
    && (forall i :: 0 <= i < |st.sessions| && st.sessions[i].pc.Delivering? ==>
          st.sessions[i].pc.call < |st.calls| && st.calls[st.sessions[i].pc.call].claimed
          && st.calls[st.sessions[i].pc.call].sends == 0)
    && (forall i, j :: 0 <= i < j < |st.sessions| && st.sessions[i].pc.Delivering? && st.sessions[j].pc.Delivering? ==>
          st.sessions[i].pc.call != st.sessions[j].pc.call)
  }

  /** The call a command in some session's history belongs to. */
  ghost predicate Owns(st: State, i: nat, cmd: Command) {
    && cmd.id in st.issuedBy
    && st.issuedBy[cmd.id] < |st.calls|
    && st.calls[st.issuedBy[cmd.id]].session == i
    && HasEnqueued(st.calls[st.issuedBy[cmd.id]])
    && CommandOf(st.calls[st.issuedBy[cmd.id]]) == cmd
  }

  ghost predicate EnqueuedOk(st: State) {
    forall i, cmd :: 0 <= i < |st.sessions| && cmd in st.sessions[i].enqueued ==> Owns(st, i, cmd)
  }

  /** No identifier is enqueued twice on one session. */
  ghost predicate EnqueuedOnce(st: State) {
    forall i, id :: 0 <= i < |st.sessions| ==> Count(st.sessions[i].enqueued, id) <= 1
  }

  /** Every entry of `agents` is a session for that server whose unregister has not run. */
  ghost predicate RegistryOk(st: State) {
    forall id :: id in st.agents ==>
      st.agents[id] < |st.sessions| && Listed(st.sessions[st.agents[id]]) && st.sessions[st.agents[id]].serverId == id
  }

  /** An agent has at most one connection it has not given up. */
  ghost predicate AgentsSerial(st: State) {
    forall i, j :: 0 <= i < j < |st.sessions| && st.sessions[i].agent == st.sessions[j].agent ==>
      st.sessions[i].conn in {Ended, Misrouted}
  }

  ghost predicate SessionOk(s: Session) {
    Greeting(s) && Receipt(s) && InOrder(s) && Accounted(s) && (!s.registered ==> s.enqueued == [])
  }

  ghost predicate SessionsOk(st: State) {
    forall i :: 0 <= i < |st.sessions| ==> SessionOk(st.sessions[i])
  }

  ghost predicate Inv(st: State) {
    && CallsOk(st) && PendingOk(st) && IssuedOk(st)
    && DeliveryOk(st)
    && EnqueuedOk(st) && EnqueuedOnce(st)
    && RegistryOk(st) && AgentsSerial(st)
    && SessionsOk(st)
  }

  // ---------------------------------------------------------------- what every step but the enqueue keeps

  /** A call keeps its command and its session, and does not go back before the enqueue. */
  predicate Advances(k: Call, k': Call) {
    && k'.session == k.session && k'.server == k.server && k'.payload == k.payload
    && (Numbered(k) ==> k'.id == k.id)
    && (HasEnqueued(k) ==> HasEnqueued(k'))
    && (Bound(k) <==> Bound(k'))
  }

  /** A step that enqueues nothing and makes every call advance. */
  ghost predicate Carries(st: State, st': State) {
    && |st.sessions| <= |st'.sessions| && |st.calls| <= |st'.calls|
    && (forall i :: 0 <= i < |st'.sessions| ==>
          st'.sessions[i].enqueued == if i < |st.sessions| then st.sessions[i].enqueued else [])
    && (forall c :: 0 <= c < |st.calls| ==> Advances(st.calls[c], st'.calls[c]))
    && (forall id :: id in st.issuedBy ==> id in st'.issuedBy && st'.issuedBy[id] == st.issuedBy[id])
  }

  lemma EnqueuedCarries(st: State, st': State)
    requires EnqueuedOk(st) && EnqueuedOnce(st) && Carries(st, st')
    ensures EnqueuedOk(st') && EnqueuedOnce(st')
  {
    forall i, cmd | 0 <= i < |st'.sessions| && cmd in st'.sessions[i].enqueued ensures Owns(st', i, cmd) {
      assert i < |st.sessions| && cmd in st.sessions[i].enqueued;
      assert Owns(st, i, cmd);
    }
    forall i, id | 0 <= i < |st'.sessions| ensures Count(st'.sessions[i].enqueued, id) <= 1 {
      if i < |st.sessions| {
        assert Count(st.sessions[i].enqueued, id) <= 1;
      }
    }
  }

  /** The steps a caller takes alone after the enqueue. */
  predicate Alone(l: Label) { l.Fire? || l.TakeResult? || l.TakeTimeout? || l.Cleanup? }

  lemma ResultStepCarries(st: State, l: Label)
    requires Enabled(st, l) && (l.Claim? || l.Deliver?)
    ensures Carries(st, Apply(st, l))
  {
  }

  lemma AloneCarries(st: State, l: Label)
    requires Enabled(st, l) && Alone(l)
    ensures Carries(st, Apply(st, l))
  {
    assert Apply(st, l).sessions == st.sessions;
  }

  lemma IssueCarries(st: State, c: nat, id: CommandId)
    requires Enabled(st, Issue(c, id))
    ensures Carries(st, Apply(st, Issue(c, id)))
  {
  }

  // ---------------------------------------------------------------- steps of one session

  /** What every step of a single session leaves alone. */
  ghost predicate Quiet(s: Session, s': Session) {
    && s'.agent == s.agent && s'.modules == s.modules
    && s'.enqueued == s.enqueued && s'.registered == s.registered
    && s.handed <= s'.handed && s.executed <= s'.executed && s.settled <= s'.settled
    && (s.registered ==> s'.serverId == s.serverId)
    && Listed(s') == Listed(s)
    && s'.pc.Delivering? == s.pc.Delivering? && (s.pc.Delivering? ==> s'.pc == s.pc)
    && (s.conn in {Ended, Misrouted} ==> s'.conn == s.conn)
  }

  lemma AgentIsQuiet(s: Session, a: AgentAct)
    requires AgentEnabled(s, a)
    ensures Quiet(s, AgentApply(s, a))
  {
  }

  lemma ServerIsQuiet(s: Session, b: ServerAct)
    requires Greeting(s) && ServerEnabled(s, b)
    ensures Quiet(s, ServerApply(s, b))
  {
  }

  lemma AgentKeepsSession(s: Session, a: AgentAct)
    requires SessionOk(s) && AgentEnabled(s, a)
    ensures SessionOk(AgentApply(s, a))
  {
    AgentIsQuiet(s, a);
    GreetingReads(s, AgentApply(s, a));
    AgentKeepsReceipt(s, a);
    AgentKeepsOrder(s, a);
    AgentKeepsAccounts(s, a);
  }

  lemma ServerKeepsSession(s: Session, b: ServerAct)
    requires SessionOk(s) && ServerEnabled(s, b)
    ensures SessionOk(ServerApply(s, b))
  {
    ServerIsQuiet(s, b);
    ServerKeepsGreeting(s, b);
    ServerKeepsReceipt(s, b);
    ServerKeepsOrder(s, b);
    ServerKeepsAccounts(s, b);
  }

  lemma ServerKeepsAccounts(s: Session, b: ServerAct)
    requires Accounted(s) && ServerEnabled(s, b)
    ensures Accounted(ServerApply(s, b))
  {
    var s' := ServerApply(s, b);
    assert s'.handed == s.handed && s'.running == s.running && s'.executed == s.executed;
  }

  lemma CutKeepsSession(s: Session, keepUp: nat, keepDown: nat)
    requires SessionOk(s) && keepUp <= |s.up| && keepDown <= |s.down|
    ensures SessionOk(Cut(s, keepUp, keepDown))
  {
    GreetingReads(s, Cut(s, keepUp, keepDown));
    CutKeepsReceipt(s, keepUp, keepDown);
    CutKeepsOrder(s, keepUp, keepDown);
  }

  lemma QuietKeepsCalls(st: State, i: nat, s': Session)
    requires CallsOk(st) && PendingOk(st) && IssuedOk(st) && i < |st.sessions| && Quiet(st.sessions[i], s')
    ensures CallsOk(WithSession(st, i, s')) && PendingOk(WithSession(st, i, s')) && IssuedOk(WithSession(st, i, s'))
  {
    var st' := WithSession(st, i, s');
    forall c | 0 <= c < |st'.calls| ensures CallOk(st', c) {
      assert CallOk(st, c);
    }
  }

  lemma QuietCarries(st: State, i: nat, s': Session)
    requires i < |st.sessions| && Quiet(st.sessions[i], s')
    ensures Carries(st, WithSession(st, i, s'))
  {
  }

  lemma QuietKeepsRegistry(st: State, i: nat, s': Session)
    requires RegistryOk(st) && SessionsOk(st) && i < |st.sessions| && Quiet(st.sessions[i], s')
    ensures RegistryOk(WithSession(st, i, s'))
  {
    assert SessionOk(st.sessions[i]);
  }

  lemma QuietKeepsSerial(st: State, i: nat, s': Session)
    requires AgentsSerial(st) && DeliveryOk(st) && i < |st.sessions| && Quiet(st.sessions[i], s')
    ensures AgentsSerial(WithSession(st, i, s')) && DeliveryOk(WithSession(st, i, s'))
  {
  }

  lemma QuietKeepsInv(st: State, i: nat, s': Session)
    requires Inv(st) && i < |st.sessions| && Quiet(st.sessions[i], s') && SessionOk(s')
    ensures Inv(WithSession(st, i, s'))
  {
    QuietKeepsCalls(st, i, s');
    QuietCarries(st, i, s');
    EnqueuedCarries(st, WithSession(st, i, s'));
    QuietKeepsRegistry(st, i, s');
    QuietKeepsSerial(st, i, s');
  }

  lemma LocalKeepsInv(st: State, l: Label)
    requires Inv(st) && Enabled(st, l) && (l.ByAgent? || l.ByServer? || l.Break?)
    ensures Inv(Apply(st, l))
  {
    var s := st.sessions[l.i];
    assert SessionOk(s);
    match l
    case ByAgent(i, a) =>
      AgentIsQuiet(s, a);
      AgentKeepsSession(s, a);
      QuietKeepsInv(st, i, AgentApply(s, a));
    case ByServer(i, b) =>
      ServerIsQuiet(s, b);
      ServerKeepsSession(s, b);
      QuietKeepsInv(st, i, ServerApply(s, b));
    case Break(i, keepUp, keepDown) =>
      CutKeepsSession(s, keepUp, keepDown);
      QuietKeepsInv(st, i, Cut(s, keepUp, keepDown));
  }

  /** A step of one session changes no call, no registry entry and no other session. */
  lemma LocalIsQuiet(st: State, l: Label)
    requires SessionsOk(st) && Enabled(st, l) && (l.ByAgent? || l.ByServer? || l.Break?)
    ensures |Apply(st, l).sessions| == |st.sessions|
    ensures Apply(st, l).calls == st.calls && Apply(st, l).agents == st.agents
    ensures Quiet(st.sessions[l.i], Apply(st, l).sessions[l.i])
    ensures forall i :: 0 <= i < |st.sessions| && i != l.i ==> Apply(st, l).sessions[i] == st.sessions[i]
  {
    assert SessionOk(st.sessions[l.i]);
    if l.ByAgent? {
      AgentIsQuiet(st.sessions[l.i], l.a);
    } else if l.ByServer? {
      ServerIsQuiet(st.sessions[l.i], l.b);
    }
  }

  // ---------------------------------------------------------------- steps on the registry

  /** The calls and `pending` see of a session only its identity. */
  lemma SessionChangeKeepsCalls(st: State, st': State)
    requires CallsOk(st) && PendingOk(st) && IssuedOk(st)
    requires st'.calls == st.calls && st'.pending == st.pending && st'.issuedBy == st.issuedBy
    requires |st.sessions| <= |st'.sessions|
    requires forall i :: 0 <= i < |st.sessions| && st.sessions[i].registered ==>
               st'.sessions[i].registered && st'.sessions[i].serverId == st.sessions[i].serverId
    requires forall i :: 0 <= i < |st.sessions| ==> st'.sessions[i].enqueued == st.sessions[i].enqueued
    ensures CallsOk(st') && PendingOk(st') && IssuedOk(st')
  {
    forall c | 0 <= c < |st'.calls| ensures CallOk(st', c) {
      assert CallOk(st, c);
    }
  }

  lemma NewSessionOk(agent: nat, modules: Modules)
    ensures SessionOk(NewSession(agent, modules))
  {
  }

  lemma OpenKeepsSerial(st: State, agent: nat, modules: Modules)
    requires AgentsSerial(st) && Enabled(st, Open(agent, modules))
    ensures AgentsSerial(Apply(st, Open(agent, modules)))
  {
    var st' := Apply(st, Open(agent, modules));
    forall i, j | 0 <= i < j < |st'.sessions| && st'.sessions[i].agent == st'.sessions[j].agent
      ensures st'.sessions[i].conn in {Ended, Misrouted}
    {
      assert st'.sessions[i] == st.sessions[i];
    }
  }

  lemma OpenKeepsSessions(st: State, agent: nat, modules: Modules)
    requires SessionsOk(st) && RegistryOk(st) && DeliveryOk(st)
    ensures var st' := st.(sessions := st.sessions + [NewSession(agent, modules)]);
      SessionsOk(st') && RegistryOk(st') && DeliveryOk(st')
  {
    var st' := st.(sessions := st.sessions + [NewSession(agent, modules)]);
    forall i | 0 <= i < |st'.sessions| ensures SessionOk(st'.sessions[i]) {
      if i == |st.sessions| {
        NewSessionOk(agent, modules);
      }
    }
  }

  lemma OpenCarries(st: State, agent: nat, modules: Modules)
    requires CallsOk(st) && PendingOk(st) && IssuedOk(st) && Enabled(st, Open(agent, modules))
    ensures var st' := Apply(st, Open(agent, modules));
      Carries(st, st') && CallsOk(st') && PendingOk(st') && IssuedOk(st')
  {
    SessionChangeKeepsCalls(st, Apply(st, Open(agent, modules)));
  }

  lemma OpenKeepsInv(st: State, agent: nat, modules: Modules)
    requires Inv(st) && Enabled(st, Open(agent, modules))
    ensures Inv(Apply(st, Open(agent, modules)))
  {
    OpenKeepsSessions(st, agent, modules);
    OpenKeepsSerial(st, agent, modules);
    OpenCarries(st, agent, modules);
    EnqueuedCarries(st, Apply(st, Open(agent, modules)));
  }

  /** Moving a session between registered phases changes nothing but its program counter. */
  lemma PhaseKeepsSession(s: Session, pc: ServerPc)
    requires SessionOk(s)
    requires (s.pc.Registering? && pc == Selecting) || (s.pc.Exiting? && pc == Closed)
    ensures SessionOk(s.(pc := pc, registered := true))
  {
    SameOrderKeeps(s, s.(pc := pc, registered := true));
  }

  /** A session moves between registered phases, and possibly its registry entry with it. */
  ghost predicate PhaseStep(st: State, st': State, i: nat) {
    && i < |st.sessions| == |st'.sessions|
    && st'.calls == st.calls && st'.pending == st.pending && st'.issuedBy == st.issuedBy
    && var s, s' := st.sessions[i], st'.sessions[i];
    && st'.sessions == st.sessions[i := s'] && s' == s.(pc := s'.pc, registered := true)
    && !s.pc.Delivering? && !s'.pc.Delivering?
  }

  lemma PhaseKeepsSessions(st: State, st': State, i: nat)
    requires AgentsSerial(st) && DeliveryOk(st) && SessionsOk(st) && PhaseStep(st, st', i)
    requires SessionOk(st'.sessions[i])
    ensures AgentsSerial(st') && DeliveryOk(st') && SessionsOk(st')
  {
  }

  lemma PhaseKeepsCalls(st: State, st': State, i: nat)
    requires CallsOk(st) && PendingOk(st) && IssuedOk(st) && EnqueuedOk(st) && EnqueuedOnce(st)
    requires PhaseStep(st, st', i)
    ensures CallsOk(st') && PendingOk(st') && IssuedOk(st') && EnqueuedOk(st') && EnqueuedOnce(st')
  {
    SessionChangeKeepsCalls(st, st');
    EnqueuedCarries(st, st');
  }

  lemma RegisterKeepsInv(st: State, i: nat)
    requires Inv(st) && Enabled(st, Register(i))
    ensures Inv(Apply(st, Register(i)))
  {
    assert SessionOk(st.sessions[i]);
    PhaseKeepsSession(st.sessions[i], Selecting);
    PhaseKeepsSessions(st, Apply(st, Register(i)), i);
    PhaseKeepsCalls(st, Apply(st, Register(i)), i);
    RegisterKeepsRegistry(st, i);
  }

  lemma RegisterKeepsRegistry(st: State, i: nat)
    requires RegistryOk(st) && Enabled(st, Register(i))
    ensures RegistryOk(Apply(st, Register(i)))
  {
    assert Listed(Apply(st, Register(i)).sessions[i]);
  }

  lemma UnregisterKeepsInv(st: State, i: nat)
    requires Inv(st) && Enabled(st, Unregister(i))
    ensures Inv(Apply(st, Unregister(i)))
  {
    assert SessionOk(st.sessions[i]);
    PhaseKeepsSession(st.sessions[i], Closed);
    PhaseKeepsSessions(st, Apply(st, Unregister(i)), i);
    PhaseKeepsCalls(st, Apply(st, Unregister(i)), i);
  }

  // ---------------------------------------------------------------- steps of the callers

  lemma LookupKeepsInv(st: State, server: ServerId, payload: Payload)
    requires Inv(st)
    ensures Inv(Apply(st, Lookup(server, payload)))
  {
    var st' := Apply(st, Lookup(server, payload));
    forall c | 0 <= c < |st'.calls| ensures CallOk(st', c) {
      if c < |st.calls| {
        assert CallOk(st, c);
      } else if server in st.agents {
        assert SessionOk(st.sessions[st.agents[server]]);
      }
    }
    EnqueuedCarries(st, st');
  }

  lemma IssueKeepsCalls(st: State, c: nat, id: CommandId)
    requires CallsOk(st) && PendingOk(st) && IssuedOk(st) && Enabled(st, Issue(c, id))
    ensures var st' := Apply(st, Issue(c, id)); CallsOk(st') && PendingOk(st') && IssuedOk(st')
  {
    var st' := Apply(st, Issue(c, id));
    assert CallOk(st, c);
    forall d | 0 <= d < |st'.calls| ensures CallOk(st', d) {
      assert CallOk(st, d);
    }
    forall x | x in st.pending ensures x != id {
      assert CallOk(st, st.pending[x]);
    }
  }

  /** What the rest of the invariant reads of the calls. */
  ghost predicate SameClaims(st: State, st': State) {
    && st'.sessions == st.sessions && st'.agents == st.agents && |st'.calls| == |st.calls|
    && forall c :: 0 <= c < |st.calls| ==>
         st'.calls[c].claimed == st.calls[c].claimed && st'.calls[c].sends == st.calls[c].sends
  }

  lemma SameClaimsKeepRest(st: State, st': State)
    requires RegistryOk(st) && AgentsSerial(st) && DeliveryOk(st) && SessionsOk(st) && SameClaims(st, st')
    ensures RegistryOk(st') && AgentsSerial(st') && DeliveryOk(st') && SessionsOk(st')
  {
  }

  lemma CallStepSameClaims(st: State, l: Label)
    requires Enabled(st, l) && (l.Issue? || Alone(l))
    ensures SameClaims(st, Apply(st, l))
  {
  }

  lemma IssueKeepsInv(st: State, c: nat, id: CommandId)
    requires Inv(st) && Enabled(st, Issue(c, id))
    ensures Inv(Apply(st, Issue(c, id)))
  {
    hide Apply;
    IssueKeepsCalls(st, c, id);
    IssueCarries(st, c, id);
    EnqueuedCarries(st, Apply(st, Issue(c, id)));
    CallStepSameClaims(st, Issue(c, id));
    SameClaimsKeepRest(st, Apply(st, Issue(c, id)));
  }

  lemma AloneKeepsCall(st: State, l: Label, d: nat)
    requires Alone(l) && !l.Cleanup? && Enabled(st, l) && d < |st.calls| && CallOk(st, d)
    ensures CallOk(Apply(st, l), d)
  {
  }

  lemma AloneKeepsCalls(st: State, l: Label)
    requires CallsOk(st) && PendingOk(st) && IssuedOk(st) && Alone(l) && !l.Cleanup? && Enabled(st, l)
    ensures var st' := Apply(st, l); CallsOk(st') && PendingOk(st') && IssuedOk(st')
  {
    var st' := Apply(st, l);
    assert CallOk(st, l.c);
    forall d | 0 <= d < |st'.calls| ensures CallOk(st', d) {
      assert CallOk(st, d);
      AloneKeepsCall(st, l, d);
    }
  }

  lemma CleanupKeepsCalls(st: State, c: nat)
    requires CallsOk(st) && PendingOk(st) && IssuedOk(st) && Enabled(st, Cleanup(c))
    ensures var st' := Apply(st, Cleanup(c)); CallsOk(st') && PendingOk(st') && IssuedOk(st')
  {
    var st' := Apply(st, Cleanup(c));
    assert CallOk(st, c);
    forall d | 0 <= d < |st'.calls| ensures CallOk(st', d) {
      assert CallOk(st, d);
    }
  }

  lemma AloneKeepsInv(st: State, l: Label)
    requires Inv(st) && Alone(l) && Enabled(st, l)
    ensures Inv(Apply(st, l))
  {
    if l.Cleanup? {
      CleanupKeepsCalls(st, l.c);
    } else {
      AloneKeepsCalls(st, l);
    }
    CallStepSameClaims(st, l);
    SameClaimsKeepRest(st, Apply(st, l));
    AloneCarries(st, l);
    EnqueuedCarries(st, Apply(st, l));
  }

  // ---------------------------------------------------------------- the enqueue

  lemma {:induction false} CountedIsMember(cs: seq<Command>, id: CommandId) returns (cmd: Command)
    requires Count(cs, id) > 0
    ensures cmd in cs && cmd.id == id
  {
    if cs[0].id == id {
      cmd := cs[0];
    } else {
      cmd := CountedIsMember(cs[1..], id);
    }
  }

  lemma {:induction false} MemberIsCounted(cs: seq<Command>, cmd: Command)
    requires cmd in cs
    ensures Count(cs, cmd.id) > 0
  {
    if cs[0] != cmd {
      MemberIsCounted(cs[1..], cmd);
    }
  }

  /** Whatever a session has enqueued belongs to a call bound to that session. */
  lemma EnqueuedBelongs(st: State, i: nat, id: CommandId)
    requires EnqueuedOk(st) && i < |st.sessions|
    ensures Count(st.sessions[i].enqueued, id) > 0 ==>
              id in st.issuedBy && st.issuedBy[id] < |st.calls|
              && st.calls[st.issuedBy[id]].session == i && HasEnqueued(st.calls[st.issuedBy[id]])
  {
    if Count(st.sessions[i].enqueued, id) > 0 {
      var cmd := CountedIsMember(st.sessions[i].enqueued, id);
      assert Owns(st, i, cmd);
    }
  }

  lemma EnqueueKeepsSession(s: Session, cmd: Command)
    requires SessionOk(s) && s.registered && |s.send| < SEND_CAPACITY
    ensures SessionOk(s.(send := s.send + [cmd], enqueued := s.enqueued + [cmd]))
  {
    EnqueueKeepsOrder(s, cmd);
    GreetingReads(s, s.(send := s.send + [cmd], enqueued := s.enqueued + [cmd]));
  }

  lemma EnqueueKeepsCalls(st: State, c: nat)
    requires CallsOk(st) && PendingOk(st) && IssuedOk(st) && Enabled(st, Enqueue(c))
    ensures var st' := Apply(st, Enqueue(c)); CallsOk(st') && PendingOk(st') && IssuedOk(st')
  {
    var st' := Apply(st, Enqueue(c));
    assert CallOk(st, c);
    forall d | 0 <= d < |st'.calls| ensures CallOk(st', d) {
      assert CallOk(st, d);
    }
  }

  lemma EnqueueKeepsEnqueued(st: State, c: nat)
    requires CallsOk(st) && EnqueuedOk(st) && EnqueuedOnce(st) && Enabled(st, Enqueue(c))
    ensures var st' := Apply(st, Enqueue(c)); EnqueuedOk(st') && EnqueuedOnce(st')
  {
    var st' := Apply(st, Enqueue(c));
    var k := st.calls[c];
    assert CallOk(st, c);
    forall j, cmd | 0 <= j < |st'.sessions| && cmd in st'.sessions[j].enqueued ensures Owns(st', j, cmd) {
      if cmd != CommandOf(k) || j != k.session {
        assert cmd in st.sessions[j].enqueued;
        assert Owns(st, j, cmd);
      }
    }
    forall j, id | 0 <= j < |st'.sessions| ensures Count(st'.sessions[j].enqueued, id) <= 1 {
      var cs := st.sessions[j].enqueued;
      assert Count(cs, id) <= 1;
      if j == k.session {
        CountOfConcat(cs, [CommandOf(k)], id);
        EnqueuedBelongs(st, j, id);
      }
    }
  }

  lemma EnqueueKeepsSessions(st: State, c: nat)
    requires CallsOk(st) && SessionsOk(st) && Enabled(st, Enqueue(c))
    ensures SessionsOk(Apply(st, Enqueue(c)))
  {
    assert CallOk(st, c);
    EnqueueKeepsSession(st.sessions[st.calls[c].session], CommandOf(st.calls[c]));
  }

  lemma EnqueueKeepsRest(st: State, c: nat)
    requires RegistryOk(st) && AgentsSerial(st) && DeliveryOk(st) && Enabled(st, Enqueue(c))
    ensures var st' := Apply(st, Enqueue(c)); RegistryOk(st') && AgentsSerial(st') && DeliveryOk(st')
  {
  }

  lemma EnqueueKeepsInv(st: State, c: nat)
    requires Inv(st) && Enabled(st, Enqueue(c))
    ensures Inv(Apply(st, Enqueue(c)))
  {
    EnqueueKeepsCalls(st, c);
    EnqueueKeepsEnqueued(st, c);
    EnqueueKeepsSessions(st, c);
    EnqueueKeepsRest(st, c);
  }

  // ---------------------------------------------------------------- a result comes in

  lemma ClaimKeepsCall(st: State, i: nat, d: nat)
    requires CallsOk(st) && PendingOk(st) && Enabled(st, Claim(i)) && d < |st.calls|
    ensures CallOk(Apply(st, Claim(i)), d)
  {
    assert CallOk(st, d);
  }

  lemma ClaimKeepsPending(st: State, i: nat)
    requires CallsOk(st) && PendingOk(st) && IssuedOk(st) && Enabled(st, Claim(i))
    ensures PendingOk(Apply(st, Claim(i))) && IssuedOk(Apply(st, Claim(i)))
  {
  }

  lemma LoopStepKeepsSession(s: Session, s': Session)
    requires SessionOk(s) && InLoop(s.pc) && InLoop(s'.pc) && !s.pc.Sending? && !s'.pc.Sending?
    requires s' == s.(recv := s'.recv, pc := s'.pc, settled := s'.settled) && |s'.recv| <= |s.recv|
    ensures SessionOk(s')
  {
    SameOrderKeeps(s, s');
  }

  lemma ClaimKeepsDelivery(st: State, i: nat)
    requires CallsOk(st) && PendingOk(st) && DeliveryOk(st) && Enabled(st, Claim(i))
    ensures DeliveryOk(Apply(st, Claim(i)))
  {
    var id := st.sessions[i].recv[0].result.id;
    if id in st.pending {
      assert CallOk(st, st.pending[id]);
    }
  }

  /** A step within one session loop, with `pc` still in the loop. */
  predicate LoopStep(st: State, st': State, i: nat) {
    && i < |st.sessions| && |st'.sessions| == |st.sessions| && st'.agents == st.agents
    && var s, s' := st.sessions[i], st'.sessions[i];
    && st'.sessions == st.sessions[i := s'] && s' == s.(recv := s'.recv, pc := s'.pc, settled := s'.settled)
    && InLoop(s.pc) && InLoop(s'.pc) && !s.pc.Sending? && !s'.pc.Sending? && |s'.recv| <= |s.recv|
  }

  lemma ResultStepIsLoopStep(st: State, l: Label)
    requires Enabled(st, l) && (l.Claim? || l.Deliver?)
    ensures LoopStep(st, Apply(st, l), l.i)
  {
  }

  lemma LoopStepKeepsRest(st: State, st': State, i: nat)
    requires RegistryOk(st) && AgentsSerial(st) && SessionsOk(st) && LoopStep(st, st', i)
    ensures RegistryOk(st') && AgentsSerial(st') && SessionsOk(st')
  {
    assert SessionOk(st.sessions[i]);
    LoopStepKeepsSession(st.sessions[i], st'.sessions[i]);
  }

  lemma ClaimKeepsInv(st: State, i: nat)
    requires Inv(st) && Enabled(st, Claim(i))
    ensures Inv(Apply(st, Claim(i)))
  {
    var st' := Apply(st, Claim(i));
    forall d | 0 <= d < |st'.calls| ensures CallOk(st', d) {
      ClaimKeepsCall(st, i, d);
    }
    ClaimKeepsPending(st, i);
    ClaimKeepsDelivery(st, i);
    ResultStepIsLoopStep(st, Claim(i));
    LoopStepKeepsRest(st, Apply(st, Claim(i)), i);
    ResultStepCarries(st, Claim(i));
    EnqueuedCarries(st, Apply(st, Claim(i)));
  }

  lemma DeliverKeepsCalls(st: State, i: nat)
    requires CallsOk(st) && PendingOk(st) && IssuedOk(st) && DeliveryOk(st) && Enabled(st, Deliver(i))
    ensures var st' := Apply(st, Deliver(i)); CallsOk(st') && PendingOk(st') && IssuedOk(st')
  {
    var st' := Apply(st, Deliver(i));
    forall d | 0 <= d < |st'.calls| ensures CallOk(st', d) {
      assert CallOk(st, d);
    }
  }

  lemma DeliverKeepsDelivery(st: State, i: nat)
    requires DeliveryOk(st) && Enabled(st, Deliver(i))
    ensures DeliveryOk(Apply(st, Deliver(i)))
  {
  }

  lemma DeliverKeepsInv(st: State, i: nat)
    requires Inv(st) && Enabled(st, Deliver(i))
    ensures Inv(Apply(st, Deliver(i)))
  {
    DeliverKeepsCalls(st, i);
    DeliverKeepsDelivery(st, i);
    ResultStepIsLoopStep(st, Deliver(i));
    LoopStepKeepsRest(st, Apply(st, Deliver(i)), i);
    ResultStepCarries(st, Deliver(i));
    EnqueuedCarries(st, Apply(st, Deliver(i)));
  }

  // ---------------------------------------------------------------- every step

  lemma StepKeepsInv(st: State, l: Label)
    requires Inv(st) && Enabled(st, l)
    ensures Inv(Apply(st, l))
  {
    match l
    case Open(agent, modules) => OpenKeepsInv(st, agent, modules);
    case Register(i) => RegisterKeepsInv(st, i);
    case Unregister(i) => UnregisterKeepsInv(st, i);
    case Claim(i) => ClaimKeepsInv(st, i);
    case Deliver(i) => DeliverKeepsInv(st, i);
    case Lookup(server, payload) => LookupKeepsInv(st, server, payload);
    case Issue(c, id) => IssueKeepsInv(st, c, id);
    case Enqueue(c) => EnqueueKeepsInv(st, c);
    case ByAgent(_, _) => LocalKeepsInv(st, l);
    case ByServer(_, _) => LocalKeepsInv(st, l);
    case Break(_, _, _) => LocalKeepsInv(st, l);
    case _ => AloneKeepsInv(st, l);
  }

  lemma {:induction false} RunKeepsInv(st: State, ls: seq<Label>)
    requires Inv(st) && CanRun(st, ls)
    ensures Inv(After(st, ls))
    decreases |ls|
  {
    if ls != [] {
      StepKeepsInv(st, ls[0]);
      RunKeepsInv(Apply(st, ls[0]), ls[1..]);
    }
  }

  /** The invariant holds in every state any run can reach, whatever the agents send. */
  lemma ReachableInv(st: State)
    requires Reachable(st)
    ensures Inv(st)
  {
    var ls :| CanRun(INIT, ls) && After(INIT, ls) == st;
    RunKeepsInv(INIT, ls);
  }
}
