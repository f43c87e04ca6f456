/** Provisioning tokens: a token is bound to a server identifier on its first use. The
check and the bind are two statements, and the bind comes before the server row that the
schema's foreign key asks for. Tokens stand for their hashes, which are taken as distinct. */
module Tokens {
  import opened Messages

  type Token = string

  /** One row: the server identifier, if bound. `used_at` is set by the same statement. */
  datatype Row = Row(usedAt: bool, serverId: Option<ServerId>)

  /** A call of `ValidateToken` on its way through `authenticate`. */
  datatype Caller =
    | Selected(token: Token, row: Row)   // read the row, about to bind or return
    | Identified(id: ServerId)           // has its identifier, about to upsert the server
    | Done

  datatype State = State(
    enforced: bool,                       // the foreign key on `server_id` is enforced
    rows: map<Token, Row>,
    servers: set<ServerId>,
    callers: seq<Caller>,
    // history
    drawn: set<ServerId>,                 // every identifier ever generated
    returned: set<(Token, ServerId)>)     // every identifier `ValidateToken` returned for a token

  function Init(enforced: bool): State { State(enforced, map[], {}, [], {}, {}) }

  datatype Label =
    | CreateToken(t: Token)
    | Select(t: Token)                    // an unknown token is refused and changes nothing
    | ReturnBound(c: nat)
    | RefuseUsed(c: nat)                  // "token already used"
    | Bind(c: nat, id: ServerId)
    | Upsert(c: nat)                      // failure is only logged
    | GiveUp(c: nat)

  predicate At(st: State, c: nat) { c < |st.callers| && st.callers[c].Selected? }

  predicate Enabled(st: State, l: Label) {
    match l
    case CreateToken(t) => t !in st.rows
    case Select(t) => t in st.rows
    case ReturnBound(c) => At(st, c) && st.callers[c].row.serverId.Some?
    case RefuseUsed(c) => At(st, c) && st.callers[c].row.usedAt && st.callers[c].row.serverId == None
    case Bind(c, id) =>
      At(st, c) && !st.callers[c].row.usedAt && st.callers[c].row.serverId == None && id !in st.drawn
      && id !in st.servers
    case Upsert(c) => c < |st.callers| && st.callers[c].Identified?
    case GiveUp(c) => c < |st.callers|
  }

  function Moved(st: State, c: nat, k: Caller): State
    requires c < |st.callers|
  {
    st.(callers := st.callers[c := k])
  }

  function Apply(st: State, l: Label): State
    requires Enabled(st, l)
  {
    match l
    case CreateToken(t) => st.(rows := st.rows[t := Row(false, None)])
    case Select(t) => st.(callers := st.callers + [Selected(t, st.rows[t])])
    case ReturnBound(c) =>
      var k := st.callers[c];
      Moved(st, c, Identified(k.row.serverId.value)).(returned := st.returned + {(k.token, k.row.serverId.value)})
    case RefuseUsed(c) => Moved(st, c, Done)
    case Bind(c, id) =>
      var t := st.callers[c].token;
      if st.enforced && id !in st.servers then Moved(st, c, Done).(drawn := st.drawn + {id})
      else Moved(st, c, Identified(id)).(
        drawn := st.drawn + {id},
        rows := if t in st.rows then st.rows[t := Row(true, Some(id))] else st.rows,
        returned := st.returned + {(t, id)})
    case Upsert(c) => Moved(st, c, Done).(servers := st.servers + {st.callers[c].id})
    case GiveUp(c) => Moved(st, c, Done)
  }

  predicate CanRun(st: State, ls: seq<Label>)
    decreases |ls|
  {
    ls == [] || (Enabled(st, ls[0]) && CanRun(Apply(st, ls[0]), ls[1..]))
  }

  function After(st: State, ls: seq<Label>): State
    requires CanRun(st, ls)
    decreases |ls|
  {
    if ls == [] then st else After(Apply(st, ls[0]), ls[1..])
  }

  // ---------------------------------------------------------------- with the foreign key

  /** Nothing is ever bound, so no caller gets as far as inserting a server. */
  ghost predicate Locked(st: State) {
    && st.enforced && st.servers == {} && st.returned == {}
    && (forall t :: t in st.rows ==> st.rows[t] == Row(false, None))
    && (forall c :: 0 <= c < |st.callers| ==> !st.callers[c].Identified?)
    && (forall c :: 0 <= c < |st.callers| && st.callers[c].Selected? ==> st.callers[c].row == Row(false, None))
  }

  lemma StepKeepsLocked(st: State, l: Label)
    requires Locked(st) && Enabled(st, l)
    ensures Locked(Apply(st, l))
  {
  }

  lemma {:induction false} RunKeepsLocked(st: State, ls: seq<Label>)
    requires Locked(st) && CanRun(st, ls)
    ensures Locked(After(st, ls))
    decreases |ls|
  {
    if ls != [] {
      RunKeepsLocked(Apply(st, ls[0]), ls[1..]);
    }
  }

  /** With the schema's foreign key enforced, from empty tables: no token is ever bound, no
      server ever recorded, and no registration ever succeeds, because the bind precedes the
      only insert into `servers`. */
  lemma ForeignKeyBlocksEveryBind(ls: seq<Label>)
    requires CanRun(Init(true), ls)
    ensures After(Init(true), ls).servers == {}
    ensures forall t :: t in After(Init(true), ls).rows ==> After(Init(true), ls).rows[t] == Row(false, None)
    ensures After(Init(true), ls).returned == {}
    ensures forall c :: !Enabled(After(Init(true), ls), RefuseUsed(c))
  {
    RunKeepsLocked(Init(true), ls);
  }

  // ---------------------------------------------------------------- without it

  /** What holds whatever the interleaving: a row is marked used exactly when it is bound,
      returned identifiers were drawn, and no two tokens were ever given the same one. */
  ghost predicate Sound(st: State) {
    && !st.enforced
    && (forall t :: t in st.rows ==> RowOk(st, t, st.rows[t]))
    && (forall c :: 0 <= c < |st.callers| && st.callers[c].Selected? ==>
          st.callers[c].token in st.rows && RowOk(st, st.callers[c].token, st.callers[c].row))
    && (forall t, id :: (t, id) in st.returned ==> id in st.drawn && t in st.rows && st.rows[t].usedAt)
    && (forall t, u, id :: (t, id) in st.returned && (u, id) in st.returned ==> t == u)
  }

  ghost predicate RowOk(st: State, t: Token, r: Row) {
    && (r.usedAt <==> r.serverId.Some?)
    && (r.serverId.Some? ==> (t, r.serverId.value) in st.returned)
  }

  lemma StepKeepsSound(st: State, l: Label)
    requires Sound(st) && Enabled(st, l)
    ensures Sound(Apply(st, l))
  {
  }

  lemma {:induction false} RunKeepsSound(st: State, ls: seq<Label>)
    requires Sound(st) && CanRun(st, ls)
    ensures Sound(After(st, ls))
    decreases |ls|
  {
    if ls != [] {
      StepKeepsSound(st, ls[0]);
      RunKeepsSound(Apply(st, ls[0]), ls[1..]);
    }
  }

  /** Distinct tokens never share an identifier, and the branch "token already used" is
      never taken: in every run without the foreign key, overlapping or not. */
  lemma TokensNeverShare(ls: seq<Label>, t: Token, u: Token, id: ServerId)
    requires CanRun(Init(false), ls)
    ensures (t, id) in After(Init(false), ls).returned && (u, id) in After(Init(false), ls).returned ==> t == u
    ensures forall c :: !Enabled(After(Init(false), ls), RefuseUsed(c))
  {
    RunKeepsSound(Init(false), ls);
  }

  /** Every identifier returned for a token is the one it is bound to now. */
  ghost predicate Stable(st: State) {
    forall t, id :: (t, id) in st.returned ==> t in st.rows && st.rows[t].serverId == Some(id)
  }

  /** A step overlaps with an earlier first use of its token when it binds a token that has
      been bound since it was read. */
  predicate Overlaps(st: State, l: Label) {
    l.Bind? && At(st, l.c) && st.callers[l.c].token in st.rows && st.rows[st.callers[l.c].token].serverId.Some?
  }

  /** A bind breaks the promise exactly when it overlaps another first use of its token. */
  lemma BindBreaksIff(st: State, c: nat, id: ServerId)
    requires Sound(st) && Stable(st) && Enabled(st, Bind(c, id))
    ensures Stable(Apply(st, Bind(c, id))) <==> !Overlaps(st, Bind(c, id))
  {
    var t := st.callers[c].token;
    var st' := Apply(st, Bind(c, id));
    if Overlaps(st, Bind(c, id)) {
      var first := st.rows[t].serverId.value;
      assert (t, first) in st'.returned && first in st.drawn;
    } else {
      assert forall x :: (t, x) !in st.returned;
    }
  }

  ghost predicate NeverOverlaps(st: State, ls: seq<Label>)
    requires CanRun(st, ls)
    decreases |ls|
  {
    ls == [] || (!Overlaps(st, ls[0]) && NeverOverlaps(Apply(st, ls[0]), ls[1..]))
  }

  lemma {:induction false} SerialRunKeepsStable(st: State, ls: seq<Label>)
    requires Sound(st) && Stable(st) && CanRun(st, ls) && NeverOverlaps(st, ls)
    ensures Stable(After(st, ls))
    decreases |ls|
  {
    if ls != [] {
      StepKeepsSound(st, ls[0]);
      StepKeepsStable(st, ls[0]);
      SerialRunKeepsStable(Apply(st, ls[0]), ls[1..]);
    }
  }

  /** No token was ever given two identifiers. */
  ghost predicate Consistent(st: State) {
    forall t, a, b :: (t, a) in st.returned && (t, b) in st.returned ==> a == b
  }

  lemma {:induction false} ReturnedGrows(st: State, ls: seq<Label>)
    requires CanRun(st, ls)
    ensures st.returned <= After(st, ls).returned
    decreases |ls|
  {
    if ls != [] {
      ReturnedGrows(Apply(st, ls[0]), ls[1..]);
    }
  }

  lemma OverlapIsInconsistent(st: State, l: Label)
    requires Sound(st) && Enabled(st, l) && Overlaps(st, l)
    ensures exists t, a, b :: a != b && (t, a) in Apply(st, l).returned && (t, b) in Apply(st, l).returned
  {
    var t := st.callers[l.c].token;
    var first := st.rows[t].serverId.value;
    assert RowOk(st, t, st.rows[t]);
    assert first in st.drawn && first != l.id;
    assert (t, first) in Apply(st, l).returned && (t, l.id) in Apply(st, l).returned;
  }

  lemma StepKeepsStable(st: State, l: Label)
    requires Sound(st) && Stable(st) && Enabled(st, l) && !Overlaps(st, l)
    ensures Stable(Apply(st, l))
  {
    if l.Bind? {
      BindBreaksIff(st, l.c, l.id);
    }
  }

  lemma {:induction false} RunIsConsistentIff(st: State, ls: seq<Label>)
    requires Sound(st) && Stable(st) && CanRun(st, ls)
    ensures Consistent(After(st, ls)) <==> NeverOverlaps(st, ls)
    decreases |ls|
  {
    if ls != [] {
      var st' := Apply(st, ls[0]);
      StepKeepsSound(st, ls[0]);
      if Overlaps(st, ls[0]) {
        OverlapIsInconsistent(st, ls[0]);
        ReturnedGrows(st', ls[1..]);
      } else {
        StepKeepsStable(st, ls[0]);
        RunIsConsistentIff(st', ls[1..]);
      }
    }
  }

  /** Without the foreign key, at the end of any run: no token was ever given two identifiers
      if and only if no first use overlapped another first use of its token. */
  lemma ConsistentIffSerial(ls: seq<Label>)
    requires CanRun(Init(false), ls)
    ensures Consistent(After(Init(false), ls)) <==> NeverOverlaps(Init(false), ls)
  {
    RunIsConsistentIff(Init(false), ls);
  }

  /** Without the foreign key and with non-overlapping first uses, a token that once
      returned an identifier returns that same identifier for ever. */
  lemma SerialFirstUsesAreStable(ls: seq<Label>, t: Token, a: ServerId, b: ServerId)
    requires CanRun(Init(false), ls) && NeverOverlaps(Init(false), ls)
    requires (t, a) in After(Init(false), ls).returned && (t, b) in After(Init(false), ls).returned
    ensures a == b
  {
    SerialRunKeepsStable(Init(false), ls);
  }

  /** Two interleaved first uses of one token return two identifiers. */
  lemma InterleavedFirstUsesDisagree() returns (ls: seq<Label>)
    ensures CanRun(Init(false), ls)
    ensures ("t", "a") in After(Init(false), ls).returned && ("t", "b") in After(Init(false), ls).returned
  {
    ls := [CreateToken("t"), Select("t"), Select("t"), Bind(0, "a"), Bind(1, "b")];
    var s1 := Apply(Init(false), ls[0]);
    var s2 := Apply(s1, ls[1]);
    var s3 := Apply(s2, ls[2]);
    var s4 := Apply(s3, ls[3]);
    var s5 := Apply(s4, ls[4]);
    assert ls[1..][1..][1..][1..][1..] == [];
    assert CanRun(s4, ls[4..]) && After(s4, ls[4..]) == s5;
    assert ls[3..][1..] == ls[4..] && ls[2..][1..] == ls[3..] && ls[1..][1..] == ls[2..];
    assert CanRun(s3, ls[3..]) && After(s3, ls[3..]) == s5;
    assert CanRun(s2, ls[2..]) && After(s2, ls[2..]) == s5;
  }

  // ---------------------------------------------------------------- the store as an object

  /** A new caller takes its read and its second statement with none of another's in between,
      and ends with this answer and these rows. */
  ghost predicate RunsAlone(st: State, t: Token, newId: ServerId, answer: Option<ServerId>, rows: map<Token, Row>) {
    var c := |st.callers|;
    if !Enabled(st, Select(t)) then answer == None && rows == st.rows
    else
      var read := Apply(st, Select(t));
      exists l :: l in {ReturnBound(c), RefuseUsed(c), Bind(c, newId)} && Enabled(read, l)
                  && Apply(read, l).rows == rows
                  && Apply(read, l).callers == st.callers + [if answer == None then Done else Identified(answer.value)]
  }

  lemma SecondStatement(st: State, t: Token, newId: ServerId, l: Label, answer: Option<ServerId>, rows: map<Token, Row>)
    requires Enabled(st, Select(t))
    requires l in {ReturnBound(|st.callers|), RefuseUsed(|st.callers|), Bind(|st.callers|, newId)}
    requires Enabled(Apply(st, Select(t)), l) && Apply(Apply(st, Select(t)), l).rows == rows
    requires answer == None ==> Apply(Apply(st, Select(t)), l).callers[|st.callers|] == Done
    requires answer.Some? ==> Apply(Apply(st, Select(t)), l).callers[|st.callers|] == Identified(answer.value)
    ensures RunsAlone(st, t, newId, answer, rows)
  {
    var read := Apply(st, Select(t));
    assert Apply(read, l).callers
        == st.callers + [if answer == None then Done else Identified(answer.value)];
  }

  /** What the method below leaves is what the two statements leave. */
  ghost predicate IsTheRun(enforced: bool, rows: map<Token, Row>, servers: set<ServerId>, t: Token, newId: ServerId,
                           answer: Option<ServerId>, rows': map<Token, Row>)
  {
    forall st: State ::
      (st.enforced == enforced && st.rows == rows && st.servers == servers && newId !in st.drawn + st.servers) ==>
        RunsAlone(st, t, newId, answer, rows')
  }

  lemma RefusedIsTheRun(enforced: bool, rows: map<Token, Row>, servers: set<ServerId>, t: Token, newId: ServerId)
    requires t in rows && rows[t] == Row(true, None)
    ensures IsTheRun(enforced, rows, servers, t, newId, None, rows)
  {
    forall st: State | st.enforced == enforced && st.rows == rows && st.servers == servers && newId !in st.drawn
      ensures RunsAlone(st, t, newId, None, rows)
    {
      SecondStatement(st, t, newId, RefuseUsed(|st.callers|), None, rows);
    }
  }

  lemma ReturnedIsTheRun(enforced: bool, rows: map<Token, Row>, servers: set<ServerId>, t: Token, newId: ServerId)
    requires t in rows && rows[t].serverId.Some?
    ensures IsTheRun(enforced, rows, servers, t, newId, rows[t].serverId, rows)
  {
    forall st: State | st.enforced == enforced && st.rows == rows && st.servers == servers && newId !in st.drawn
      ensures RunsAlone(st, t, newId, rows[t].serverId, rows)
    {
      SecondStatement(st, t, newId, ReturnBound(|st.callers|), rows[t].serverId, rows);
    }
  }

  lemma BoundIsTheRun(enforced: bool, rows: map<Token, Row>, servers: set<ServerId>, t: Token, newId: ServerId)
    requires t in rows && rows[t] == Row(false, None)
    ensures enforced && newId !in servers ==> IsTheRun(enforced, rows, servers, t, newId, None, rows)
    ensures !(enforced && newId !in servers) ==>
              IsTheRun(enforced, rows, servers, t, newId, Some(newId), rows[t := Row(true, Some(newId))])
  {
    forall st: State | st.enforced == enforced && st.rows == rows && st.servers == servers && newId !in st.drawn
                       && newId !in st.servers
      ensures RunsAlone(st, t, newId, if enforced then None else Some(newId),
                        if enforced then rows else rows[t := Row(true, Some(newId))])
    {
      SecondStatement(st, t, newId, Bind(|st.callers|, newId), if enforced then None else Some(newId),
                      if enforced then rows else rows[t := Row(true, Some(newId))]);
    }
  }

  /** The store with its statements run one after another. */
  class Store {
    const enforced: bool
    var rows: map<Token, Row>
    var servers: set<ServerId>

    constructor (enforced: bool)
      ensures this.enforced == enforced && rows == map[] && servers == {}
    {
      this.enforced := enforced;
      rows, servers := map[], {};
    }

    method CreateToken(t: Token)
      requires t !in rows
      modifies this`rows
      ensures rows == old(rows)[t := Row(false, None)]
    {
      rows := rows[t := Row(false, None)];
    }

    /** `newId` is the identifier a first use would draw. */
    method ValidateToken(t: Token, newId: ServerId) returns (id: Option<ServerId>)
      modifies this`rows
      ensures id.Some? ==> t in rows && rows[t].serverId == id
      ensures t in old(rows) && old(rows)[t].serverId.Some? ==> id == old(rows)[t].serverId
      ensures t in old(rows) && old(rows)[t] == Row(false, None) ==>
                id == if enforced && newId !in servers then None else Some(newId)
      ensures rows == if t in old(rows) && old(rows)[t] == Row(false, None) && id.Some?
                      then old(rows)[t := Row(true, id)] else old(rows)
      ensures IsTheRun(enforced, old(rows), servers, t, newId, id, rows)
    {
      if t !in rows {
        return None;
      }
      var row := rows[t];
      if row.usedAt && row.serverId == None {
        RefusedIsTheRun(enforced, rows, servers, t, newId);
        return None;
      }
      if row.serverId.Some? {
        ReturnedIsTheRun(enforced, rows, servers, t, newId);
        return row.serverId;
      }
      BoundIsTheRun(enforced, rows, servers, t, newId);
      if enforced && newId !in servers {
        return None;
      }
      rows := rows[t := Row(true, Some(newId))];
      id := Some(newId);
    }

    method UpsertServer(id: ServerId)
      modifies this`servers
      ensures servers == old(servers) + {id}
    {
      servers := servers + {id};
    }
  }

  /** One registration after another with the same token gets the same identifier. */
  method RegistersAgain(store: Store, t: Token, a: ServerId, b: ServerId)
    returns (first: Option<ServerId>, second: Option<ServerId>)
    modifies store
    ensures first.Some? ==> second == first
    ensures store.enforced && old(store.servers) == {}
            && (t in old(store.rows) ==> old(store.rows)[t] == Row(false, None)) ==>
              first == None && store.servers == {} && store.rows == old(store.rows)
  {
    first := store.ValidateToken(t, a);
    if first.Some? {
      store.UpsertServer(first.value);
    }
    second := store.ValidateToken(t, b);
  }
}
