/** The guarantees of the command protocol, each over every reachable state or run. */
module ProtocolTheorems {
  import opened Messages
  import opened Dispatcher
  import opened Protocol
  import opened SessionInvariant
  import opened ProtocolInvariant
  import opened HonestInvariant

  lemma HonestIsReachable(st: State)
    requires HonestlyReachable(st)
    ensures Reachable(st)
  {
  }

  // ---------------------------------------------------------------- correlation

  /** This session executed the command, and this result is what its outcome amounts to. */
  ghost predicate ComputedOn(s: Session, cmd: Command, r: CommandResult) {
    exists e :: e in s.executed && e.cmd == cmd && r == Dispatch(s.modules, e.cmd, e.outcome)
      && (r.success ==> e.outcome == None && Routed(s.modules, e.cmd.payload.kind))
  }

  /** Any result a call returns was computed from that very command, on the session the call
      is bound to, which is a session for the server the caller named. */
  lemma ReturnedResultIsOwn(st: State, c: nat, r: CommandResult)
    requires HonestlyReachable(st) && c < |st.calls| && st.calls[c].pc == Returned(Answered(r))
    ensures st.calls[c].session < |st.sessions|
    ensures st.sessions[st.calls[c].session].serverId == st.calls[c].server
    ensures ComputedOn(st.sessions[st.calls[c].session], CommandOf(st.calls[c]), r)
  {
    HonestlyReachableInv(st);
    var k := st.calls[c];
    assert CallOk(st, c) && CallFaithful(st, c) && Holds(k, r);
    var s := st.sessions[k.session];
    assert SessionOk(s);
    var e :| e in s.executed && r == Dispatch(s.modules, e.cmd, e.outcome);
    HandedWasEnqueued(s, e.cmd);
    assert Owns(st, k.session, e.cmd);
  }

  lemma OtherStepAdvances(st: State, l: Label, c: nat)
    requires Enabled(st, l) && c < |st.calls| && !Alone(l) && !l.Claim? && !l.Deliver? && !l.Issue?
    ensures c < |Apply(st, l).calls| && Advances(st.calls[c], Apply(st, l).calls[c])
  {
  }

  lemma StepAdvances(st: State, l: Label, c: nat)
    requires Enabled(st, l) && c < |st.calls|
    ensures c < |Apply(st, l).calls| && Advances(st.calls[c], Apply(st, l).calls[c])
  {
    hide Apply;
    if Alone(l) {
      AloneCarries(st, l);
    } else if l.Claim? || l.Deliver? {
      ResultStepCarries(st, l);
    } else if l.Issue? {
      IssueCarries(st, l.c, l.id);
    } else {
      OtherStepAdvances(st, l, c);
    }
  }

  /** A call never changes its server, session or payload, nor its identifier once drawn. */
  lemma {:induction false} RunAdvances(st: State, ls: seq<Label>, c: nat)
    requires CanRun(st, ls) && c < |st.calls|
    ensures c < |After(st, ls).calls| && Advances(st.calls[c], After(st, ls).calls[c])
    decreases |ls|
  {
    if ls != [] {
      StepAdvances(st, ls[0], c);
      RunAdvances(Apply(st, ls[0]), ls[1..], c);
    }
  }

  /** End to end: cut any honest run at the lookup of one call of `SendCommand(server,
      payload)`. If that call has returned a result by the end of the run, then the registry
      held a session for `server` at the lookup, and `Dispatch` computed the result there,
      on a command with this payload and the identifier this call drew. */
  lemma EndToEnd(before: seq<Label>, server: ServerId, payload: Payload, after: seq<Label>, r: CommandResult)
    requires AllHonest(before) && AllHonest(after) && CanRun(INIT, before)
    requires CanRun(Apply(After(INIT, before), Lookup(server, payload)), after)
    requires
      var c := |After(INIT, before).calls|;
      var end := After(Apply(After(INIT, before), Lookup(server, payload)), after);
      c < |end.calls| && end.calls[c].pc == Returned(Answered(r))
    ensures
      var atLookup := After(INIT, before);
      var end := After(Apply(atLookup, Lookup(server, payload)), after);
      && server in atLookup.agents && atLookup.agents[server] < |end.sessions|
      && end.sessions[atLookup.agents[server]].serverId == server
      && end.calls[|atLookup.calls|].id == r.id
      && ComputedOn(end.sessions[atLookup.agents[server]], Command(r.id, payload), r)
  {
    var atLookup := After(INIT, before);
    var bound := Apply(atLookup, Lookup(server, payload));
    var end := After(bound, after);
    var c := |atLookup.calls|;
    HonestlyStays(INIT);
    HonestlyExtends(INIT, INIT, before);
    HonestlySteps(INIT, atLookup, Lookup(server, payload));
    HonestlyExtends(INIT, bound, after);
    RunAdvances(bound, after, c);
    ReturnedResultIsOwn(end, c, r);
  }

  // ---------------------------------------------------------------- conservation

  /** The places of one session that can hold a command or its result. */
  function Live(s: Session, id: CommandId): nat {
    Count(s.send, id) + Count(InHand(s.pc), id) + Count(Cmds(s.down), id) + Count(Cmds(s.inbox), id)
    + Count(s.running, id) + Results(s.up, id) + Results(s.recv, id) + InDelivery(s.pc, id)
  }

  /** What left the live places: cut off on the way down, or settled on the way up. */
  function Gone(s: Session, id: CommandId): nat {
    Count(s.dropped, id) + Results(s.settled, id)
  }

  lemma EnqueuedSplits(s: Session, id: CommandId)
    requires InOrder(s)
    ensures Count(s.enqueued, id) == Count(s.handed, id) + Count(Cmds(s.inbox), id) + Count(Cmds(s.down), id)
                                     + Count(s.dropped, id) + Count(InHand(s.pc), id) + Count(s.send, id)
  {
    var a := s.handed + Cmds(s.inbox);
    var b := a + Cmds(s.down);
    var d := b + s.dropped;
    CountOfConcat(s.handed, Cmds(s.inbox), id);
    CountOfConcat(a, Cmds(s.down), id);
    CountOfConcat(b, s.dropped, id);
    CountOfConcat(d, InHand(s.pc), id);
    CountOfConcat(d + InHand(s.pc), s.send, id);
  }

  /** On each session, everything ever enqueued is in one live place or gone. */
  lemma SessionConserves(s: Session, id: CommandId)
    requires InOrder(s) && Balanced(s, id)
    ensures Count(s.enqueued, id) == Live(s, id) + Gone(s, id)
  {
    EnqueuedSplits(s, id);
  }

  /** Where an identifier's command can be: on its own call's session after the enqueue, and
      on no other. */
  lemma EnqueuedWhere(st: State, c: nat, i: nat)
    requires Inv(st) && HonestInv(st) && c < |st.calls| && Numbered(st.calls[c]) && i < |st.sessions|
    ensures
      var k := st.calls[c];
      Live(st.sessions[i], k.id) + Gone(st.sessions[i], k.id) == if i == k.session && HasEnqueued(k) then 1 else 0
  {
    var k := st.calls[c];
    var s := st.sessions[i];
    assert CallOk(st, c);
    assert SessionOk(s) && Balanced(s, k.id) && Count(s.enqueued, k.id) <= 1;
    SessionConserves(s, k.id);
    if i == k.session && HasEnqueued(k) {
      MemberIsCounted(s.enqueued, CommandOf(k));
    }
    EnqueuedBelongs(st, i, k.id);
  }

  /** An issued command sits in exactly one place of the whole system, or is gone: with its
      caller before the enqueue, afterwards on the caller's session and on no other. */
  lemma Conservation(st: State, c: nat)
    requires HonestlyReachable(st) && c < |st.calls| && Numbered(st.calls[c])
    ensures st.calls[c].session < |st.sessions|
    ensures
      var k := st.calls[c];
      var s := st.sessions[k.session];
      && (k.pc.Issued? ==> Live(s, k.id) + Gone(s, k.id) == 0)
      && (!k.pc.Issued? ==> Live(s, k.id) + Gone(s, k.id) == 1)
      && (k.slot.Some? ==> Live(s, k.id) == 0)
    ensures forall i :: 0 <= i < |st.sessions| && i != st.calls[c].session ==>
              Live(st.sessions[i], st.calls[c].id) + Gone(st.sessions[i], st.calls[c].id) == 0
  {
    HonestlyReachableInv(st);
    assert CallOk(st, c) && CallFaithful(st, c);
    forall i | 0 <= i < |st.sessions| ensures
      Live(st.sessions[i], st.calls[c].id) + Gone(st.sessions[i], st.calls[c].id)
      == if i == st.calls[c].session && HasEnqueued(st.calls[c]) then 1 else 0
    {
      EnqueuedWhere(st, c, i);
    }
  }

  /** No identifier is handed to a handler twice, on one session or on two, for any agents. */
  lemma HandedAtMostOnce(st: State, id: CommandId, i: nat, j: nat)
    requires Reachable(st) && i < |st.sessions| && j < |st.sessions|
    ensures Count(st.sessions[i].handed, id) <= 1
    ensures i != j ==> Count(st.sessions[i].handed, id) == 0 || Count(st.sessions[j].handed, id) == 0
    ensures var s := st.sessions[i]; Count(s.running, id) + Executed(s.executed, id) == Count(s.handed, id)
  {
    ReachableInv(st);
    assert SessionOk(st.sessions[i]) && SessionOk(st.sessions[j]);
    assert Count(st.sessions[i].enqueued, id) <= 1;
    EnqueuedSplits(st.sessions[i], id);
    EnqueuedSplits(st.sessions[j], id);
    EnqueuedBelongs(st, i, id);
    EnqueuedBelongs(st, j, id);
  }

  /** What has been handed over is never forgotten, so at most once means once per run. */
  lemma StepHandedGrows(st: State, l: Label, i: nat)
    requires Inv(st) && Enabled(st, l) && i < |st.sessions|
    ensures i < |Apply(st, l).sessions| && st.sessions[i].handed <= Apply(st, l).sessions[i].handed
  {
    if l.ByAgent? || l.ByServer? || l.Break? {
      LocalIsQuiet(st, l);
    } else if !OnResultPath(l) {
      OtherStepSameReturns(st, l);
    } else {
      ResultStepIsLoopStep(st, l);
    }
  }

  lemma {:induction false} RunHandedGrows(st: State, ls: seq<Label>, i: nat)
    requires Inv(st) && CanRun(st, ls) && i < |st.sessions|
    ensures i < |After(st, ls).sessions| && st.sessions[i].handed <= After(st, ls).sessions[i].handed
    decreases |ls|
  {
    if ls != [] {
      StepHandedGrows(st, ls[0], i);
      StepKeepsInv(st, ls[0]);
      RunHandedGrows(Apply(st, ls[0]), ls[1..], i);
    }
  }

  /** Per session, commands reach `handleCommand` in the order they were enqueued, without
      a gap. */
  lemma HandedInOrder(st: State, i: nat)
    requires Reachable(st) && i < |st.sessions|
    ensures st.sessions[i].handed <= st.sessions[i].enqueued
  {
    ReachableInv(st);
    assert SessionOk(st.sessions[i]);
  }

  // ---------------------------------------------------------------- delivery

  /** A session loop that claimed a result can always send it: the one-slot channel is
      empty, and nobody has used it or will. Holds for agents that send anything. */
  lemma DeliveryNeverBlocks(st: State, i: nat)
    requires Reachable(st) && i < |st.sessions| && st.sessions[i].pc.Delivering?
    ensures Enabled(st, Deliver(i))
    ensures st.calls[st.sessions[i].pc.call].sends == 0
    ensures forall j :: 0 <= j < |st.sessions| && j != i && st.sessions[j].pc.Delivering? ==>
              st.sessions[j].pc.call != st.sessions[i].pc.call
  {
    ReachableInv(st);
    assert CallOk(st, st.sessions[i].pc.call);
  }

  /** Each result channel receives at most one send, ever. */
  lemma ChannelSentAtMostOnce(st: State, c: nat)
    requires Reachable(st) && c < |st.calls|
    ensures st.calls[c].sends <= 1
    ensures st.calls[c].slot.Some? ==> st.calls[c].sends == 1
  {
    ReachableInv(st);
    assert CallOk(st, c);
  }

  /** Nothing differs but the entry of this identifier, its call and the session at work. */
  ghost predicate OnlyTouches(st: State, st': State, id: CommandId, i: nat) {
    && st'.pending == st.pending - {id} && st'.agents == st.agents && st'.issuedBy == st.issuedBy
    && |st'.calls| == |st.calls| && |st'.sessions| == |st.sessions|
    && (forall c :: 0 <= c < |st.calls| && !(InPending(st.calls[c]) && st.calls[c].id == id) ==>
          st'.calls[c] == st.calls[c])
    && (id !in st.pending ==> st'.calls == st.calls)
    && (forall j :: 0 <= j < |st.sessions| && j != i ==> st'.sessions[j] == st.sessions[j])
  }

  /** Handling a result for one identifier, the claim as well as the send that follows, leaves
      every other call, with its entry and its channel, and every other session as it was. */
  lemma ClaimIsLocal(st: State, i: nat)
    requires Reachable(st) && Enabled(st, Claim(i))
    ensures
      var r, claimed := st.sessions[i].recv[0].result, Apply(st, Claim(i));
      && OnlyTouches(st, claimed, r.id, i)
      && (r.id in st.pending ==>
            Enabled(claimed, Deliver(i)) && OnlyTouches(st, Apply(claimed, Deliver(i)), r.id, i))
  {
    ReachableInv(st);
    ClaimOnlyTouches(st, i);
    if st.sessions[i].recv[0].result.id in st.pending {
      ClaimThenDeliver(st, i);
      DeliverOnlyTouches(st, i);
    }
  }

  lemma ClaimOnlyTouches(st: State, i: nat)
    requires PendingOk(st) && Enabled(st, Claim(i))
    ensures OnlyTouches(st, Apply(st, Claim(i)), st.sessions[i].recv[0].result.id, i)
  {
  }

  lemma DeliverOnlyTouches(st: State, i: nat)
    requires PendingOk(st) && Enabled(st, Claim(i)) && Enabled(Apply(st, Claim(i)), Deliver(i))
    requires st.sessions[i].recv[0].result.id in st.pending
    ensures OnlyTouches(st, Apply(Apply(st, Claim(i)), Deliver(i)), st.sessions[i].recv[0].result.id, i)
  {
  }

  /** Two results for one identifier: the first is delivered, the second is discarded. */
  lemma DuplicateIsDiscarded(st: State, i: nat, a: CommandResult, b: CommandResult) returns (st': State)
    requires Reachable(st) && i < |st.sessions| && st.sessions[i].pc == Selecting && |st.sessions[i].recv| >= 2
    requires st.sessions[i].recv[0] == ResultMessage(a) && st.sessions[i].recv[1] == ResultMessage(b)
    requires a.id == b.id && a.id in st.pending
    ensures CanRun(st, [Claim(i), Deliver(i), Claim(i)]) && st' == After(st, [Claim(i), Deliver(i), Claim(i)])
    ensures st.pending[a.id] < |st.calls| && st'.pending == st.pending - {a.id}
    ensures |st'.calls| == |st.calls| && st'.calls[st.pending[a.id]].slot == Some(a)
    ensures forall c :: 0 <= c < |st.calls| && c != st.pending[a.id] ==> st'.calls[c] == st.calls[c]
  {
    ReachableInv(st);
    ClaimThenDeliver(st, i);
    var x := Apply(st, Claim(i));
    var y := Apply(x, Deliver(i));
    st' := Apply(y, Claim(i));
    RunsOfThree(st, Claim(i), Deliver(i), Claim(i));
  }

  /** A claimed entry's result goes into the channel of the call it named. */
  lemma ClaimThenDeliver(st: State, i: nat)
    requires Inv(st) && Enabled(st, Claim(i)) && st.sessions[i].recv[0].result.id in st.pending
    ensures Enabled(Apply(st, Claim(i)), Deliver(i))
    ensures
      var r := st.sessions[i].recv[0].result;
      var st' := Apply(Apply(st, Claim(i)), Deliver(i));
      && st.pending[r.id] < |st.calls| == |st'.calls| && st'.pending == st.pending - {r.id}
      && st'.calls[st.pending[r.id]].slot == Some(r)
      && (forall c :: 0 <= c < |st.calls| && c != st.pending[r.id] ==> st'.calls[c] == st.calls[c])
      && i < |st'.sessions| && st'.sessions[i].pc == Selecting && st'.sessions[i].recv == st.sessions[i].recv[1..]
  {
    assert CallOk(st, st.pending[st.sessions[i].recv[0].result.id]);
  }

  // ---------------------------------------------------------------- accounting of `pending`

  /** The keys of `pending` are exactly the identifiers of the calls that have registered
      and have been neither claimed by a result nor cleaned up. */
  lemma PendingIsExact(st: State)
    requires Reachable(st)
    ensures st.pending.Keys == set c | 0 <= c < |st.calls| && InPending(st.calls[c]) :: st.calls[c].id
    ensures forall id :: id in st.pending ==> st.pending[id] < |st.calls| && st.calls[st.pending[id]].id == id
  {
    ReachableInv(st);
    forall id | id in st.pending
      ensures id in set c | 0 <= c < |st.calls| && InPending(st.calls[c]) :: st.calls[c].id
    {
      assert InPending(st.calls[st.pending[id]]);
    }
    forall c | 0 <= c < |st.calls| && InPending(st.calls[c]) ensures st.calls[c].id in st.pending {
      assert CallOk(st, c);
    }
  }

  lemma EntryIsIssuers(st: State, id: CommandId)
    requires CallsOk(st) && PendingOk(st)
    ensures id in st.pending ==> id in st.issuedBy && st.pending[id] == st.issuedBy[id]
  {
    if id in st.pending {
      assert CallOk(st, st.pending[id]);
    }
  }

  /** A call that has returned, whichever way, has left no entry behind. */
  lemma ReturnedLeavesNoEntry(st: State, c: nat)
    requires Reachable(st) && c < |st.calls| && st.calls[c].pc.Returned? && Numbered(st.calls[c])
    ensures st.calls[c].id !in st.pending
  {
    ReachableInv(st);
    assert CallOk(st, c);
    EntryIsIssuers(st, st.calls[c].id);
  }

  lemma QuiescentIsEmpty(st: State)
    requires Reachable(st)
    requires forall c :: 0 <= c < |st.calls| ==> st.calls[c].pc.Returned?
    ensures st.pending == map[]
  {
    PendingIsExact(st);
    assert st.pending.Keys == {};
  }

  // ---------------------------------------------------------------- blocking

  /** A step that call `c` takes by itself, the passing of its deadline included. */
  predicate OwnStep(l: Label, c: nat) {
    (l.Issue? || l.Enqueue? || l.Fire? || l.TakeResult? || l.TakeTimeout? || l.Cleanup?) && l.c == c
  }

  lemma {:induction false} FreshId(ids: set<CommandId>) returns (id: CommandId)
    ensures forall x :: x in ids ==> x < id
    decreases |ids|
  {
    if ids == {} {
      id := 0;
    } else {
      var x :| x in ids;
      var rest := FreshId(ids - {x});
      id := if x < rest then rest else x + 1;
      assert forall y :: y in ids ==> y == x || y in ids - {x};
    }
  }

  lemma QueueIsBounded(st: State, c: nat)
    requires Reachable(st) && c < |st.calls| && Bound(st.calls[c])
    ensures st.calls[c].session < |st.sessions| && |st.sessions[st.calls[c].session].send| <= SEND_CAPACITY
  {
    ReachableInv(st);
    assert CallOk(st, c);
    assert SessionOk(st.sessions[st.calls[c].session]);
  }

  /** A call in progress is stuck if and only if it is at the enqueue and its session's
      queue holds 32 messages. */
  lemma BlockedOnlyAtFullQueue(st: State, c: nat)
    requires Reachable(st) && c < |st.calls| && !st.calls[c].pc.Returned?
    ensures st.calls[c].session < |st.sessions|
    ensures (forall l :: OwnStep(l, c) ==> !Enabled(st, l)) <==>
            st.calls[c].pc == Issued && |st.sessions[st.calls[c].session].send| == 32
  {
    QueueIsBounded(st, c);
    if !st.calls[c].pc.Issued? {
      var l := NextOwnStep(st, c);
    } else {
      assert OwnStep(Enqueue(c), c);
    }
  }

  /** Away from the enqueue a call always has a step of its own. */
  lemma NextOwnStep(st: State, c: nat) returns (l: Label)
    requires c < |st.calls| && !st.calls[c].pc.Returned? && !st.calls[c].pc.Issued?
    ensures OwnStep(l, c) && Enabled(st, l)
  {
    match st.calls[c].pc
    case LookedUp =>
      var id := FreshId(st.issuedBy.Keys);
      l := Issue(c, id);
    case Waiting(fired) => l := if fired then TakeTimeout(c) else Fire(c);
    case Expired => l := Cleanup(c);
  }

  /** Once its deadline has fired a call can always finish, in two steps of its own. */
  lemma DeadlineFrees(st: State, c: nat)
    requires c < |st.calls| && st.calls[c].pc == Waiting(true)
    ensures Enabled(st, TakeTimeout(c)) && Enabled(Apply(st, TakeTimeout(c)), Cleanup(c))
    ensures Apply(Apply(st, TakeTimeout(c)), Cleanup(c)).calls[c].pc == Returned(TimedOut)
  {
  }

  // ---------------------------------------------------------------- handshake

  /** The first message on a stream is the reply to the registration, and tells a registered
      agent the identifier it is filed under; a refused stream carries nothing else, and neither
      it nor any other unregistered one has a command queued, whether or not the refusal got
      through; the agent never sees a command first. */
  lemma HandshakeSafety(st: State, i: nat)
    requires Reachable(st) && i < |st.sessions|
    ensures
      var s := st.sessions[i];
      && (s.sent != [] ==> s.sent[0].RegisterResponse?)
      && (forall n :: 0 < n < |s.sent| ==> s.sent[n].CommandMessage?)
      && (s.sent != [] && !s.sent[0].accepted ==> |s.sent| == 1 && !s.registered)
      && (s.registered || Listed(s) ==> s.sent != [] && s.sent[0] == RegisterResponse(true, s.serverId))
      && (!s.registered ==>
            s.enqueued == [] && s.handed == [] && (forall id :: id in st.agents ==> st.agents[id] != i))
      && s.received <= s.sent
      && s.conn != Misrouted
  {
    ReachableInv(st);
    var s := st.sessions[i];
    assert SessionOk(s);
    assert s.received <= s.received + s.down;
  }
}
