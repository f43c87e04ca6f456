/** What a run of token statements comes to, told from its labels alone: which statements
read which token, and which binds came before them. */
module TokenRuns {
  import opened Messages
  import opened Tokens

  /** The tokens read by the callers, in the order in which they started. */
  function Callers(ls: seq<Label>): seq<Token> {
    if ls == [] then []
    else if ls[|ls| - 1].Select? then Callers(ls[..|ls| - 1]) + [ls[|ls| - 1].t]
    else Callers(ls[..|ls| - 1])
  }

  /** The n-th label is the update that binds the token to the identifier. */
  predicate BindAt(ls: seq<Label>, n: nat, t: Token, id: ServerId) {
    n < |ls| && ls[n].Bind? && ls[n].id == id && ls[n].c < |Callers(ls[..n])| && Callers(ls[..n])[ls[n].c] == t
  }

  /** The s-th label is the read of the token by the caller of this number. */
  predicate ReadAt(ls: seq<Label>, s: nat, c: nat, t: Token) {
    s < |ls| && ls[s] == Select(t) && |Callers(ls[..s])| == c
  }

  /** The identifier of the latest bind of the token. */
  function Latest(ls: seq<Label>, t: Token): Option<ServerId> {
    if ls == [] then None
    else if BindAt(ls, |ls| - 1, t, if ls[|ls| - 1].Bind? then ls[|ls| - 1].id else "") then Some(ls[|ls| - 1].id)
    else Latest(ls[..|ls| - 1], t)
  }

  function RowFor(id: Option<ServerId>): Row { Row(id.Some?, id) }

  // ---------------------------------------------------------------- the last step of a run

  lemma {:induction false} LastStep(st: State, ls: seq<Label>, l: Label)
    requires CanRun(st, ls + [l])
    ensures CanRun(st, ls) && Enabled(After(st, ls), l)
    ensures After(st, ls + [l]) == Apply(After(st, ls), l)
    decreases |ls|
  {
    if ls == [] {
      assert ls + [l] == [l];
      assert CanRun(Apply(st, l), []);
    } else {
      assert (ls + [l])[0] == ls[0] && (ls + [l])[1..] == ls[1..] + [l];
      LastStep(Apply(st, ls[0]), ls[1..], l);
    }
  }

  lemma {:induction false} PrefixRuns(st: State, ls: seq<Label>, n: nat)
    requires CanRun(st, ls) && n <= |ls|
    ensures CanRun(st, ls[..n])
    ensures n < |ls| ==> Enabled(After(st, ls[..n]), ls[n])
    ensures n < |ls| ==> CanRun(st, ls[..n + 1]) && After(st, ls[..n + 1]) == Apply(After(st, ls[..n]), ls[n])
    decreases |ls|
  {
    if n == |ls| {
      assert ls[..n] == ls;
    } else {
      var p := ls[..|ls| - 1];
      assert p + [ls[|ls| - 1]] == ls;
      LastStep(st, p, ls[|ls| - 1]);
      if n < |p| {
        PrefixRuns(st, p, n);
        assert p[..n] == ls[..n] && p[..n + 1] == ls[..n + 1];
      } else {
        assert ls[..n] == p && ls[..n + 1] == ls;
      }
    }
  }

  lemma {:induction false} CallersGrow(ls: seq<Label>, n: nat)
    requires n <= |ls|
    ensures |Callers(ls[..n])| <= |Callers(ls)| && Callers(ls)[..|Callers(ls[..n])|] == Callers(ls[..n])
    decreases |ls| - n
  {
    if n == |ls| {
      assert ls[..n] == ls;
    } else {
      CallersGrow(ls, n + 1);
      assert ls[..n + 1][..n] == ls[..n] && ls[..n + 1][n] == ls[n];
      var small, big := Callers(ls[..n]), Callers(ls[..n + 1]);
      assert big[..|small|] == small;
      assert Callers(ls)[..|small|] == Callers(ls)[..|big|][..|small|];
    }
  }

  // ---------------------------------------------------------------- labels and tables

  /** Some update so far binds the token to the identifier. */
  ghost predicate Bound(ls: seq<Label>, t: Token, id: ServerId) { exists n: nat :: BindAt(ls, n, t, id) }

  /** The caller of this number takes a statement after its read, or gives up. */
  predicate Moves(l: Label, c: nat) {
    match l
    case ReturnBound(x) => x == c
    case RefuseUsed(x) => x == c
    case Bind(x, _) => x == c
    case GiveUp(x) => x == c
    case _ => false
  }

  /** The caller has taken nothing but its read. */
  ghost predicate Waits(ls: seq<Label>, s: nat, c: nat) { forall m :: s < m < |ls| ==> !Moves(ls[m], c) }

  /** The tables and callers are what the labels so far say. */
  ghost predicate Tracks(ls: seq<Label>, st: State) {
    && !st.enforced
    && |st.callers| == |Callers(ls)|
    && (forall t :: Latest(ls, t).Some? ==> t in st.rows)
    && (forall t :: t in st.rows ==> st.rows[t] == RowFor(Latest(ls, t)))
    && (forall c :: 0 <= c < |st.callers| ==> CallerTracks(ls, st, Callers(ls)[c], st.callers[c]))
    && (forall s: nat, c: nat, t :: ReadAt(ls, s, c, t) && c < |st.callers| ==>
          (st.callers[c].Selected? <==> Waits(ls, s, c))
          && (st.callers[c].Selected? ==> st.callers[c] == Selected(t, RowFor(Latest(ls[..s], t)))))
    && (forall t, id :: (t, id) in st.returned <==> Bound(ls, t, id))
    && (forall n :: 0 <= n < |ls| && ls[n].Bind? ==> ls[n].id in st.drawn)
  }

  ghost predicate CallerTracks(ls: seq<Label>, st: State, t: Token, k: Caller) {
    match k
    case Selected(token, row) =>
      token == t && t in st.rows && row == RowFor(row.serverId)
      && (row.serverId.Some? ==> Bound(ls, t, row.serverId.value))
    case Identified(id) => Bound(ls, t, id)
    case Done => true
  }

  lemma {:induction false} LatestIsBound(ls: seq<Label>, t: Token)
    ensures Latest(ls, t).Some? ==> Bound(ls, t, Latest(ls, t).value)
  {
    if ls != [] {
      var p, l := ls[..|ls| - 1], ls[|ls| - 1];
      assert ls == p + [l];
      if l.Bind? && BindAt(ls, |p|, t, l.id) {
      } else {
        LatestIsBound(p, t);
        if Latest(p, t).Some? {
          BoundGrows(p, l, t, Latest(p, t).value);
        }
      }
    }
  }

  lemma BoundGrows(p: seq<Label>, l: Label, t: Token, id: ServerId)
    ensures Bound(p + [l], t, id) <==> Bound(p, t, id) || BindAt(p + [l], |p|, t, id)
  {
    var ls := p + [l];
    forall n: nat ensures n < |p| ==> (BindAt(p, n, t, id) <==> BindAt(ls, n, t, id)) {
      if n < |p| {
        assert ls[..n] == p[..n];
      }
    }
    if n: nat :| BindAt(p, n, t, id) {
      assert BindAt(ls, n, t, id);
    }
  }

  lemma {:induction false} RunTracks(ls: seq<Label>)
    requires CanRun(Init(false), ls)
    ensures Tracks(ls, After(Init(false), ls))
    decreases |ls|
  {
    if ls != [] {
      var p, l := ls[..|ls| - 1], ls[|ls| - 1];
      assert ls == p + [l];
      LastStep(Init(false), p, l);
      RunTracks(p);
      StepTracks(p, After(Init(false), p), l);
    }
  }

  lemma LatestStep(p: seq<Label>, l: Label, t: Token)
    ensures Latest(p + [l], t)
         == if l.Bind? && l.c < |Callers(p)| && Callers(p)[l.c] == t then Some(l.id) else Latest(p, t)
    ensures Callers(p + [l]) == if l.Select? then Callers(p) + [l.t] else Callers(p)
  {
    var ls := p + [l];
    assert ls[..|p|] == p && ls[|p|] == l && ls[..|ls| - 1] == p;
  }

  lemma StepTracks(p: seq<Label>, st: State, l: Label)
    requires Tracks(p, st) && Enabled(st, l)
    ensures Tracks(p + [l], Apply(st, l))
  {
    var ls, st' := p + [l], Apply(st, l);
    assert ls[..|p|] == p && ls[|p|] == l;
    forall t ensures Latest(ls, t) == if l.Bind? && Callers(p)[l.c] == t then Some(l.id) else Latest(p, t) {
      LatestStep(p, l, t);
    }
    LatestStep(p, l, "");
    forall t, id
      ensures (t, id) in st'.returned <==> Bound(ls, t, id)
      ensures Bound(p, t, id) ==> Bound(ls, t, id)
    {
      BoundGrows(p, l, t, id);
    }
    forall t ensures Latest(p, t).Some? ==> Bound(p, t, Latest(p, t).value) {
      LatestIsBound(p, t);
    }
    forall s: nat, c: nat, t | ReadAt(ls, s, c, t) && c < |st'.callers|
      ensures st'.callers[c].Selected? <==> Waits(ls, s, c)
      ensures st'.callers[c].Selected? ==> st'.callers[c] == Selected(t, RowFor(Latest(ls[..s], t)))
    {
      StepKeepsRead(p, st, l, s, c, t);
    }
  }

  lemma StepKeepsRead(p: seq<Label>, st: State, l: Label, s: nat, c: nat, t: Token)
    requires Tracks(p, st) && Enabled(st, l)
    requires ReadAt(p + [l], s, c, t) && c < |Apply(st, l).callers|
    ensures Apply(st, l).callers[c].Selected? <==> Waits(p + [l], s, c)
    ensures Apply(st, l).callers[c].Selected? ==>
              Apply(st, l).callers[c] == Selected(t, RowFor(Latest((p + [l])[..s], t)))
  {
    var ls := p + [l];
    if s < |p| {
      assert ls[..s] == p[..s] && ReadAt(p, s, c, t);
      CallersGrow(p, s + 1);
      assert p[..s + 1][..s] == p[..s] && p[..s + 1][s] == p[s];
      assert c < |st.callers|;
      if Waits(ls, s, c) {
        assert ls[|p|] == l && forall m :: s < m < |p| ==> ls[m] == p[m];
        assert Waits(p, s, c) && !Moves(l, c);
      } else if !Moves(l, c) {
        var m :| s < m < |ls| && Moves(ls[m], c);
        assert ls[m] == p[m];
      }
    } else {
      assert ls[..s] == p;
    }
  }

  lemma {:induction false} LatestIff(ls: seq<Label>, n: nat, t: Token, id: ServerId)
    requires BindAt(ls, n, t, id) && forall k: nat, x :: k > n ==> !BindAt(ls, k, t, x)
    ensures Latest(ls, t) == Some(id)
  {
    if n < |ls| - 1 {
      var p := ls[..|ls| - 1];
      assert p[..n] == ls[..n];
      forall k: nat, x | k > n ensures !BindAt(p, k, t, x) {
        if k < |p| {
          BoundBefore(ls, k, |p|, t, x);
        }
      }
      LatestIff(p, n, t, id);
    }
  }

  lemma BoundBefore(ls: seq<Label>, n: nat, s: nat, t: Token, id: ServerId)
    requires n < s <= |ls|
    ensures BindAt(ls[..s], n, t, id) <==> BindAt(ls, n, t, id)
  {
    assert ls[..s][..n] == ls[..n];
  }

  // ---------------------------------------------------------------- what the labels say of a use

  /** A caller that reads a token after it has been bound is given the identifier of the
      latest bind before its read: for as long as it waits it can return that one, which the
      token was given before, and it can never bind. */
  lemma LaterUseReturnsBound(ls: seq<Label>, n: nat, s: nat, c: nat, t: Token, id: ServerId)
    requires CanRun(Init(false), ls)
    requires n < s && BindAt(ls, n, t, id) && ReadAt(ls, s, c, t)
    requires forall k: nat, x :: n < k < s ==> !BindAt(ls, k, t, x)
    ensures
      var st := After(Init(false), ls);
      && (Enabled(st, ReturnBound(c)) <==> Waits(ls, s, c))
      && (forall x :: !Enabled(st, Bind(c, x)))
      && (Waits(ls, s, c) ==>
            Apply(st, ReturnBound(c)).callers[c] == Identified(id)
            && Apply(st, ReturnBound(c)).returned == st.returned && (t, id) in st.returned)
  {
    RunTracks(ls);
    ReaderIsCaller(ls, s, c, t);
    BoundBefore(ls, n, s, t, id);
    forall k: nat, x | k > n ensures !BindAt(ls[..s], k, t, x) {
      if k < s {
        BoundBefore(ls, k, s, t, x);
      }
    }
    LatestIff(ls[..s], n, t, id);
    assert Bound(ls, t, id);
    var st := After(Init(false), ls);
    if Waits(ls, s, c) {
      assert st.callers[c] == Selected(t, RowFor(Some(id)));
      assert (t, id) in st.returned;
    }
  }

  lemma ReaderIsCaller(ls: seq<Label>, s: nat, c: nat, t: Token)
    requires ReadAt(ls, s, c, t)
    ensures c < |Callers(ls)| && Callers(ls)[c] == t
  {
    CallersGrow(ls, s + 1);
    assert ls[..s + 1][..s] == ls[..s] && ls[..s + 1][s] == ls[s];
    assert Callers(ls[..s + 1]) == Callers(ls[..s]) + [t];
    assert Callers(ls)[..c + 1][c] == t;
  }

  /** A caller that reads a token before any bind of it can bind it to any fresh identifier
      for as long as it waits, and has nothing to return. */
  lemma FirstUseBinds(ls: seq<Label>, s: nat, c: nat, t: Token)
    requires CanRun(Init(false), ls) && ReadAt(ls, s, c, t)
    requires forall k: nat, x :: k < s ==> !BindAt(ls, k, t, x)
    ensures
      var st := After(Init(false), ls);
      && !Enabled(st, ReturnBound(c))
      && (forall x :: Enabled(st, Bind(c, x)) <==> Waits(ls, s, c) && x !in st.drawn && x !in st.servers)
      && (forall x :: Enabled(st, Bind(c, x)) ==>
            Apply(st, Bind(c, x)).callers[c] == Identified(x)
            && Apply(st, Bind(c, x)).returned == st.returned + {(t, x)})
  {
    RunTracks(ls);
    ReaderIsCaller(ls, s, c, t);
    LatestIsBound(ls[..s], t);
    if Latest(ls[..s], t).Some? {
      var n: nat :| BindAt(ls[..s], n, t, Latest(ls[..s], t).value);
      BoundBefore(ls, n, s, t, Latest(ls[..s], t).value);
      assert false;
    }
  }

  /** An identifier is returned for a token exactly when some update of the run binds the
      token to it: no later use returns anything else. */
  lemma ReturnedIff(ls: seq<Label>, t: Token, id: ServerId)
    requires CanRun(Init(false), ls)
    ensures (t, id) in After(Init(false), ls).returned <==> exists n: nat :: BindAt(ls, n, t, id)
  {
    RunTracks(ls);
  }

  /** An upsert records one identifier, returned before for the token its caller read, and
      no other statement records any. */
  lemma UpsertRecordsReturned(ls: seq<Label>, l: Label)
    requires CanRun(Init(false), ls) && Enabled(After(Init(false), ls), l)
    ensures
      var st := After(Init(false), ls);
      && (!l.Upsert? ==> Apply(st, l).servers == st.servers)
      && (l.Upsert? ==>
            l.c < |Callers(ls)|
            && exists id :: (Callers(ls)[l.c], id) in st.returned && Apply(st, l).servers == st.servers + {id})
  {
    RunTracks(ls);
    var st := After(Init(false), ls);
    if l.Upsert? {
      var id := st.callers[l.c].id;
      assert Bound(ls, Callers(ls)[l.c], id);
      assert (Callers(ls)[l.c], id) in st.returned;
    }
  }

  /** Every binding caller has read its token before. */
  lemma {:induction false} ReaderExists(ls: seq<Label>, c: nat)
    requires c < |Callers(ls)|
    ensures exists s: nat :: ReadAt(ls, s, c, Callers(ls)[c])
  {
    var p, l := ls[..|ls| - 1], ls[|ls| - 1];
    assert ls == p + [l];
    LatestStep(p, l, "");
    if c < |Callers(p)| {
      ReaderExists(p, c);
      var s: nat :| ReadAt(p, s, c, Callers(p)[c]);
      assert ls[..s] == p[..s];
      assert ReadAt(ls, s, c, Callers(ls)[c]);
    } else {
      assert ReadAt(ls, |p|, c, Callers(ls)[c]);
    }
  }

  lemma {:induction false} LatestOfBound(ls: seq<Label>, n: nat, t: Token, id: ServerId)
    requires BindAt(ls, n, t, id)
    ensures Latest(ls, t).Some?
  {
    if n < |ls| - 1 {
      var p := ls[..|ls| - 1];
      assert p[..n] == ls[..n];
      LatestOfBound(p, n, t, id);
    }
  }

  lemma CallersKeep(ls: seq<Label>, m: nat, s: nat)
    requires m <= s <= |ls|
    ensures |Callers(ls[..m])| <= |Callers(ls[..s])|
  {
    CallersGrow(ls[..s], m);
    assert ls[..s][..m] == ls[..m];
  }

  lemma BindFollowsRead(ls: seq<Label>, s: nat, m: nat, c: nat, t: Token, id: ServerId)
    requires CanRun(Init(false), ls) && m < |ls|
    requires ReadAt(ls, s, c, t) && ls[m] == Bind(c, id)
    ensures s < m && BindAt(ls, m, t, id)
  {
    PrefixRuns(Init(false), ls, m);
    RunTracks(ls[..m]);
    if m <= s {
      CallersKeep(ls, m, s);
    } else {
      assert ls[..m][..s] == ls[..s];
      ReaderIsCaller(ls[..m], s, c, t);
    }
  }

  /** A bind overlaps an earlier one exactly when another bind of the same token lies between
      its caller's read of the token and itself. */
  lemma OverlapsIff(ls: seq<Label>, s: nat, m: nat, c: nat, t: Token, id: ServerId)
    requires CanRun(Init(false), ls) && m < |ls|
    requires ReadAt(ls, s, c, t) && ls[m] == Bind(c, id)
    ensures CanRun(Init(false), ls[..m]) && s < m
    ensures Overlaps(After(Init(false), ls[..m]), ls[m]) <==> exists n: nat, x :: s < n < m && BindAt(ls, n, t, x)
  {
    PrefixRuns(Init(false), ls, m);
    BindFollowsRead(ls, s, m, c, t, id);
    var p := ls[..m];
    var st := After(Init(false), p);
    RunTracks(p);
    assert p[..s] == ls[..s] && ReadAt(p, s, c, t);
    ReaderIsCaller(p, s, c, t);
    if Overlaps(st, ls[m]) {
      LatestIsBound(p, t);
      var x := Latest(p, t).value;
      var n: nat :| BindAt(p, n, t, x);
      BoundBefore(ls, n, m, t, x);
      if n < s {
        BoundBefore(p, n, s, t, x);
        LatestOfBound(p[..s], n, t, x);
        assert false;
      }
      assert s < n < m && BindAt(ls, n, t, x);
    }
    if n: nat, x :| s < n < m && BindAt(ls, n, t, x) {
      BoundBefore(ls, n, m, t, x);
      LatestOfBound(p, n, t, x);
    }
  }

  /** A token read after a bind of it is not bound by that reader, in any run. */
  lemma LateReaderNeverBinds(ls: seq<Label>, n: nat, s: nat, m: nat, c: nat, t: Token, x: ServerId, y: ServerId)
    requires CanRun(Init(false), ls) && m < |ls|
    requires n < s && BindAt(ls, n, t, x) && ReadAt(ls, s, c, t)
    ensures ls[m] != Bind(c, y)
  {
    if ls[m] == Bind(c, y) {
      BindFollowsRead(ls, s, m, c, t, y);
      PrefixRuns(Init(false), ls, m);
      var p := ls[..m];
      RunTracks(p);
      assert p[..s] == ls[..s] && ReadAt(p, s, c, t);
      ReaderIsCaller(p, s, c, t);
      BoundBefore(ls, n, s, t, x);
      LatestOfBound(p[..s], n, t, x);
      assert false;
    }
  }

  lemma BindsDiffer(ls: seq<Label>, n: nat, m: nat)
    requires CanRun(Init(false), ls) && n < m < |ls| && ls[n].Bind? && ls[m].Bind?
    ensures ls[n].id != ls[m].id
  {
    PrefixRuns(Init(false), ls, m);
    RunTracks(ls[..m]);
    assert ls[..m][n] == ls[n];
  }

  /** A token is bound by a caller after another bind that its read did not see. */
  ghost predicate Interleaved(ls: seq<Label>, s: nat, n: nat, m: nat, c: nat, t: Token) {
    && s < n < m < |ls| && ReadAt(ls, s, c, t)
    && ls[n].Bind? && BindAt(ls, n, t, ls[n].id) && ls[m].Bind? && ls[m].c == c
  }

  /** Without the foreign key, at the end of any run: some token was given two identifiers if
      and only if a caller read the token, another then bound it, and the first bound it again. */
  lemma TwoIdentifiersIff(ls: seq<Label>)
    requires CanRun(Init(false), ls)
    ensures (exists t, a, b :: a != b && (t, a) in After(Init(false), ls).returned
                               && (t, b) in After(Init(false), ls).returned)
       <==> (exists s: nat, n: nat, m: nat, c: nat, t :: Interleaved(ls, s, n, m, c, t))
  {
    if t, a, b :| a != b && (t, a) in After(Init(false), ls).returned && (t, b) in After(Init(false), ls).returned {
      ReturnedIff(ls, t, a);
      ReturnedIff(ls, t, b);
      var i: nat :| BindAt(ls, i, t, a);
      var j: nat :| BindAt(ls, j, t, b);
      if i < j {
        TwoBindsInterleave(ls, i, j, t, a, b);
      } else {
        TwoBindsInterleave(ls, j, i, t, b, a);
      }
    }
    if s: nat, n: nat, m: nat, c: nat, t :| Interleaved(ls, s, n, m, c, t) {
      BindFollowsRead(ls, s, m, c, t, ls[m].id);
      BindsDiffer(ls, n, m);
      ReturnedIff(ls, t, ls[n].id);
      ReturnedIff(ls, t, ls[m].id);
    }
  }

  /** So the runs without overlapping first uses are those without such a bind. */
  lemma SerialIff(ls: seq<Label>)
    requires CanRun(Init(false), ls)
    ensures NeverOverlaps(Init(false), ls) <==>
            !(exists s: nat, n: nat, m: nat, c: nat, t :: Interleaved(ls, s, n, m, c, t))
  {
    ConsistentIffSerial(ls);
    TwoIdentifiersIff(ls);
  }

  lemma TwoBindsInterleave(ls: seq<Label>, n: nat, m: nat, t: Token, a: ServerId, b: ServerId)
    requires CanRun(Init(false), ls) && n < m && BindAt(ls, n, t, a) && BindAt(ls, m, t, b)
    ensures exists s: nat, c: nat :: Interleaved(ls, s, n, m, c, t)
  {
    var c := ls[m].c;
    ReaderExists(ls[..m], c);
    var s: nat :| ReadAt(ls[..m], s, c, t);
    assert ls[..m][..s] == ls[..s] && ReadAt(ls, s, c, t);
    if n < s {
      LateReaderNeverBinds(ls, n, s, m, c, t, a, b);
    }
    assert Interleaved(ls, s, n, m, c, t);
  }
}
