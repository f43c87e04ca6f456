/** The control plane together with its store: a registration is accepted only with an
identifier that the store returned for the token the agent presented. */
module Registration {
  import opened Messages
  import P = Protocol
  import I = ProtocolInvariant
  import T = Tokens

  /** `shown` is history: the token each accepted session presented. */
  datatype State = State(p: P.State, t: T.State, shown: map<nat, T.Token>)

  function Init(enforced: bool): State { State(P.INIT, T.Init(enforced), map[]) }

  datatype Label = System(l: P.Label) | Store(s: T.Label)

  predicate Accepts(l: P.Label) { l.ByServer? && l.b.Authenticate? && l.b.verdict.Some? }

  predicate Enabled(st: State, l: Label) {
    match l
    case Store(s) => T.Enabled(st.t, s)
    case System(l) =>
      P.Enabled(st.p, l)
      && (Accepts(l) ==> (st.p.sessions[l.i].pc.token, l.b.verdict.value) in st.t.returned)
  }

  function Apply(st: State, l: Label): State
    requires Enabled(st, l)
  {
    match l
    case Store(s) => st.(t := T.Apply(st.t, s))
    case System(l) =>
      st.(p := P.Apply(st.p, l), shown := if Accepts(l) then st.shown[l.i := st.p.sessions[l.i].pc.token] else st.shown)
  }

  predicate CanRun(st: State, ls: seq<Label>)
    decreases |ls|
  {
    ls == [] || (Enabled(st, ls[0]) && CanRun(Apply(st, ls[0]), ls[1..]))
  }

  function After(st: State, ls: seq<Label>): State
    requires CanRun(st, ls)
    decreases |ls|
  {
    if ls == [] then st else After(Apply(st, ls[0]), ls[1..])
  }

  // ---------------------------------------------------------------- with the foreign key

  /** No session got past authentication, and no call found one. */
  ghost predicate NoneAccepted(p: P.State) {
    && p.agents == map[]
    && (forall i :: 0 <= i < |p.sessions| ==>
          var pc := p.sessions[i].pc;
          pc.AwaitingRegister? || pc.Authenticating? || pc.Rejecting? || pc.Closed?)
    && (forall c :: 0 <= c < |p.calls| ==> p.calls[c].pc == P.Returned(P.NotConnected))
  }

  lemma StepAcceptsNone(p: P.State, l: P.Label)
    requires NoneAccepted(p) && P.Enabled(p, l) && !Accepts(l)
    ensures NoneAccepted(P.Apply(p, l))
  {
  }

  lemma {:induction false} RunAcceptsNone(st: State, ls: seq<Label>)
    requires NoneAccepted(st.p) && T.Locked(st.t) && CanRun(st, ls)
    ensures NoneAccepted(After(st, ls).p)
    decreases |ls|
  {
    if ls != [] {
      match ls[0] {
        case System(l) => StepAcceptsNone(st.p, l);
        case Store(s) => T.StepKeepsLocked(st.t, s);
      }
      RunAcceptsNone(Apply(st, ls[0]), ls[1..]);
    }
  }

  /** With the schema's foreign key enforced, from empty tables: whatever agents and callers
      do, the registry stays empty, every call is told "not connected", and so is the next. */
  lemma NoAgentEverConnects(ls: seq<Label>, server: ServerId, payload: Payload)
    requires CanRun(Init(true), ls)
    ensures
      var p := After(Init(true), ls).p;
      && p.agents == map[]
      && (forall c :: 0 <= c < |p.calls| ==> p.calls[c].pc == P.Returned(P.NotConnected))
      && P.Apply(p, P.Lookup(server, payload)).calls[|p.calls|].pc == P.Returned(P.NotConnected)
  {
    RunAcceptsNone(Init(true), ls);
  }

  // ---------------------------------------------------------------- without it

  /** The session was accepted, whatever became of it since. */
  predicate Accepted(s: P.Session) { s.pc.Accepting? || s.pc.Registering? || s.registered }

  /** An accepted session presented a token, and has an identifier returned for that token. */
  ghost predicate Authentic(st: State) {
    forall i :: 0 <= i < |st.p.sessions| && Accepted(st.p.sessions[i]) ==>
      i in st.shown && st.shown[i] != "" && (st.shown[i], st.p.sessions[i].serverId) in st.t.returned
  }

  lemma ServerStepAccepts(s: P.Session, b: P.ServerAct)
    requires I.SessionOk(s) && P.ServerEnabled(s, b) && !(b.Authenticate? && b.verdict.Some?)
    ensures Accepted(P.ServerApply(s, b)) ==> Accepted(s) && P.ServerApply(s, b).serverId == s.serverId
  {
  }

  lemma AgentStepAccepts(s: P.Session, a: P.AgentAct)
    requires P.AgentEnabled(s, a)
    ensures Accepted(P.AgentApply(s, a)) <==> Accepted(s)
    ensures P.AgentApply(s, a).serverId == s.serverId
  {
  }

  /** What session `i` shows of acceptance after a step, it showed before. */
  ghost predicate AcceptedBefore(p: P.State, p': P.State, i: nat) {
    i < |p'.sessions| && Accepted(p'.sessions[i]) ==>
      i < |p.sessions| && Accepted(p.sessions[i]) && p'.sessions[i].serverId == p.sessions[i].serverId
  }

  /** Other steps of the protocol accept nobody and rename nobody. */
  lemma StepAccepts(p: P.State, l: P.Label, i: nat)
    requires I.SessionsOk(p) && P.Enabled(p, l) && !Accepts(l)
    ensures AcceptedBefore(p, P.Apply(p, l), i)
  {
    match l
    case ByServer(j, b) =>
      assert I.SessionOk(p.sessions[j]);
      ServerStepAccepts(p.sessions[j], b);
      OneStepAccepts(p, l, j, P.ServerApply(p.sessions[j], b), i);
    case ByAgent(j, a) =>
      AgentStepAccepts(p.sessions[j], a);
      OneStepAccepts(p, l, j, P.AgentApply(p.sessions[j], a), i);
    case Break(j, keepUp, keepDown) => OneStepAccepts(p, l, j, P.Cut(p.sessions[j], keepUp, keepDown), i);
    case Register(_) => PhaseStepAccepts(p, l, i);
    case Unregister(_) => PhaseStepAccepts(p, l, i);
    case Claim(j) =>
      I.ResultStepIsLoopStep(p, l);
      LoopStepAccepts(p, P.Apply(p, l), j, i);
    case Deliver(j) =>
      I.ResultStepIsLoopStep(p, l);
      LoopStepAccepts(p, P.Apply(p, l), j, i);
    case _ => CallStepAccepts(p, l, i);
  }

  lemma OneStepAccepts(p: P.State, l: P.Label, j: nat, s: P.Session, i: nat)
    requires P.Enabled(p, l) && j < |p.sessions| && P.Apply(p, l) == P.WithSession(p, j, s)
    requires Accepted(s) ==> Accepted(p.sessions[j]) && s.serverId == p.sessions[j].serverId
    ensures AcceptedBefore(p, P.Apply(p, l), i)
  {
    hide P.Apply, P.Enabled;
  }

  lemma PhaseStepAccepts(p: P.State, l: P.Label, i: nat)
    requires I.SessionsOk(p) && P.Enabled(p, l) && (l.Register? || l.Unregister?)
    ensures AcceptedBefore(p, P.Apply(p, l), i)
  {
    assert I.SessionOk(p.sessions[l.i]);
  }

  lemma LoopStepAccepts(p: P.State, p': P.State, j: nat, i: nat)
    requires I.LoopStep(p, p', j)
    ensures AcceptedBefore(p, p', i)
  {
  }

  lemma CallStepAccepts(p: P.State, l: P.Label, i: nat)
    requires P.Enabled(p, l) && (l.Open? || l.Lookup? || l.Issue? || l.Enqueue? || I.Alone(l))
    ensures AcceptedBefore(p, P.Apply(p, l), i)
  {
  }

  lemma StoreStepGrows(t: T.State, s: T.Label)
    requires T.Enabled(t, s)
    ensures t.returned <= T.Apply(t, s).returned
  {
  }

  lemma StepKeepsAuthentic(st: State, l: Label)
    requires I.Inv(st.p) && Authentic(st) && Enabled(st, l)
    ensures Authentic(Apply(st, l))
  {
    match l
    case Store(s) => StoreStepGrows(st.t, s);
    case System(k) =>
      forall i | 0 <= i < |Apply(st, l).p.sessions| && Accepted(Apply(st, l).p.sessions[i])
        ensures i in Apply(st, l).shown && Apply(st, l).shown[i] != ""
        ensures (Apply(st, l).shown[i], Apply(st, l).p.sessions[i].serverId) in st.t.returned
      {
        if !Accepts(k) {
          StepAccepts(st.p, k, i);
        }
      }
  }

  lemma {:induction false} RunKeepsAuthentic(st: State, ls: seq<Label>)
    requires I.Inv(st.p) && T.Sound(st.t) && Authentic(st) && CanRun(st, ls)
    ensures Authentic(After(st, ls)) && T.Sound(After(st, ls).t)
    decreases |ls|
  {
    if ls != [] {
      StepKeepsAuthentic(st, ls[0]);
      match ls[0] {
        case System(l) => I.StepKeepsInv(st.p, l);
        case Store(s) => T.StepKeepsSound(st.t, s);
      }
      RunKeepsAuthentic(Apply(st, ls[0]), ls[1..]);
    }
  }

  // ---------------------------------------------------------------- the store's part of a run

  /** The steps of the store in a run of both. */
  function StoreOf(ls: seq<Label>): seq<T.Label> {
    if ls == [] then [] else (if ls[0].Store? then [ls[0].s] else []) + StoreOf(ls[1..])
  }

  /** They are a run of the store by itself, to the same end. */
  lemma {:induction false} StoreRuns(st: State, ls: seq<Label>)
    requires CanRun(st, ls)
    ensures T.CanRun(st.t, StoreOf(ls)) && T.After(st.t, StoreOf(ls)) == After(st, ls).t
    decreases |ls|
  {
    if ls != [] {
      StoreRuns(Apply(st, ls[0]), ls[1..]);
      if ls[0].Store? {
        assert StoreOf(ls)[0] == ls[0].s && StoreOf(ls)[1..] == StoreOf(ls[1..]);
      } else {
        assert StoreOf(ls) == StoreOf(ls[1..]);
      }
    }
  }

  /** Without the foreign key, over every run: two accepted sessions with one server
      identifier presented the same token, so nobody is registered as somebody else's server.
      If no first uses of a token overlapped, sessions share an identifier exactly when they
      presented the same token. */
  lemma ServersBelongToTokens(ls: seq<Label>, i: nat, j: nat)
    requires CanRun(Init(false), ls)
    requires var p := After(Init(false), ls).p;
      i < |p.sessions| && j < |p.sessions| && Accepted(p.sessions[i]) && Accepted(p.sessions[j])
    ensures T.CanRun(T.Init(false), StoreOf(ls))
    ensures
      var end := After(Init(false), ls);
      && i in end.shown && j in end.shown && end.shown[i] != "" && end.shown[j] != ""
      && (end.p.sessions[i].serverId == end.p.sessions[j].serverId ==> end.shown[i] == end.shown[j])
      && (T.NeverOverlaps(T.Init(false), StoreOf(ls)) ==>
            (end.p.sessions[i].serverId == end.p.sessions[j].serverId <==> end.shown[i] == end.shown[j]))
  {
    RunKeepsAuthentic(Init(false), ls);
    StoreRuns(Init(false), ls);
    T.ConsistentIffSerial(StoreOf(ls));
  }
}
