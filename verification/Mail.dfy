/** The virtual-mail database: three tables with the keys and cascades of the schema, and
the statements the manager executes on them. */
module MailTables {
  import opened Messages

  datatype User = User(domainId: int, password: string, quota: nat)
  datatype Alias = Alias(domainId: int, source: string, destination: string)

  /** `domains` is keyed by its primary key, `users` by the unique `email`, `aliases` by its
      primary key. `generated` is history: every domain identifier ever generated. */
  datatype Db = Db(
    domains: map<int, string>,
    users: map<string, User>,
    aliases: map<int, Alias>,
    generated: map<int, string>)

  const EMPTY := Db(map[], map[], map[], map[])

  // ---------------------------------------------------------------- addresses

  /** The position of the first "@", or the length if there is none. */
  function FirstAt(s: string): (n: nat)
    ensures n <= |s|
    ensures '@' !in s[..n] && (n < |s| ==> s[n] == '@')
  {
    if s == "" || s[0] == '@' then 0
    else
      assert forall k :: 1 <= k <= |s| ==> s[..k] == [s[0]] + s[1..][..k - 1];
      1 + FirstAt(s[1..])
  }

  /** The local part and the domain part, both non-empty, split at the first "@". */
  function SplitAddress(address: string): Option<(string, string)> {
    var n := FirstAt(address);
    if n == |address| || n == 0 || n + 1 == |address| then None
    else Some((address[..n], address[n + 1..]))
  }

  /** The split is exact: it succeeds with these parts if and only if they spell the address. */
  lemma SplitIsExact(address: string, local: string, domain: string)
    ensures SplitAddress(address) == Some((local, domain)) <==>
            address == local + "@" + domain && '@' !in local && local != "" && domain != ""
  {
    var n := FirstAt(address);
    if SplitAddress(address) == Some((local, domain)) {
      assert address == address[..n] + [address[n]] + address[n + 1..];
    }
    if address == local + "@" + domain && '@' !in local && local != "" && domain != "" {
      assert address[|local|] == '@';
      assert forall k :: 0 <= k < |local| ==> address[k] == local[k] && local[k] in local;
      assert forall k :: 0 <= k < n ==> address[k] == address[..n][k] && address[..n][k] in address[..n];
      assert n == |local|;
      assert address[..n] == local && address[n + 1..] == domain;
    }
  }

  predicate InDomain(address: string, domain: string) {
    SplitAddress(address).Some? && SplitAddress(address).value.1 == domain
  }

  // ---------------------------------------------------------------- statements

  /** INSERT IGNORE into virtual_domains; `id` is the generated key. */
  function InsertDomain(db: Db, name: string, id: int): Db {
    if name in db.domains.Values then db
    else db.(domains := db.domains[id := name], generated := db.generated[id := name])
  }

  /** DELETE from virtual_domains by name, with both cascades. */
  function DeleteDomain(db: Db, name: string): Db {
    db.(
      domains := map id | id in db.domains && db.domains[id] != name :: db.domains[id],
      users := map e | e in db.users && !Refers(db, db.users[e].domainId, name) :: db.users[e],
      aliases := map a | a in db.aliases && !Refers(db, db.aliases[a].domainId, name) :: db.aliases[a])
  }

  predicate Refers(db: Db, id: int, name: string) { id in db.domains && db.domains[id] == name }

  /** INSERT into virtual_users ON DUPLICATE KEY UPDATE: an existing row keeps its
      `domain_id`. The foreign key refuses a new row for a dead domain; whether it is also
      checked before an update is left open by `checkFirst`. */
  function UpsertUser(db: Db, email: string, u: User, checkFirst: bool): (r: (Db, bool))
    ensures r.1 ==> email in r.0.users && r.0.users[email].password == u.password && r.0.users[email].quota == u.quota
    ensures !r.1 ==> r.0 == db
  {
    if email in db.users then
      if checkFirst && u.domainId !in db.domains then (db, false)
      else (db.(users := db.users[email := db.users[email].(password := u.password, quota := u.quota)]), true)
    else if u.domainId in db.domains then (db.(users := db.users[email := u]), true)
    else (db, false)
  }

  /** INSERT IGNORE into virtual_aliases: a dead domain skips the row without an error. */
  function InsertAlias(db: Db, a: Alias, row: int): Db {
    if a.domainId in db.domains && row !in db.aliases then db.(aliases := db.aliases[row := a]) else db
  }

  function DeleteUser(db: Db, email: string): Db { db.(users := db.users - {email}) }

  function DeleteAliases(db: Db, source: string): Db {
    db.(aliases := map a | a in db.aliases && db.aliases[a].source != source :: db.aliases[a])
  }

  // ---------------------------------------------------------------- integrity

  /** Every user and alias belongs to a live domain of the name its address ends in. */
  ghost predicate Integrity(db: Db) {
    && (forall e :: e in db.users ==>
          db.users[e].domainId in db.domains && InDomain(e, db.domains[db.users[e].domainId]))
    && (forall a :: a in db.aliases ==>
          db.aliases[a].domainId in db.domains && InDomain(db.aliases[a].source, db.domains[db.aliases[a].domainId]))
  }

  /** What the unique key on names and the never-reused identifiers add. */
  ghost predicate Keys(db: Db) {
    && (forall id :: id in db.domains ==> id in db.generated && db.generated[id] == db.domains[id])
    && (forall i, j :: i in db.domains && j in db.domains && db.domains[i] == db.domains[j] ==> i == j)
  }
}

/** Handlers run concurrently; each statement is one step, with a stale lookup in between. */
module MailInterleavings {
  import opened MailTables

  /** A handler between its `domainID` lookup and its insert. */
  datatype Handler =
    | ForUser(address: string, domainId: int, password: string, quota: nat)
    | ForAlias(source: string, domainId: int, destination: string)

  function AddressOf(h: Handler): string { if h.ForUser? then h.address else h.source }

  /** `answers` says of each handler that has finished whether it reported success. */
  datatype State = State(db: Db, handlers: map<nat, Handler>, answers: map<nat, bool>)

  const INIT := State(EMPTY, map[], map[])

  datatype Label =
    | AddDomain(name: string, id: int)
    | RemoveDomain(name: string)
    | Lookup(n: nat, h: Handler)                  // splitAddress and domainID succeed
    | GiveUp(n: nat)                              // an error before the insert
    | Insert(n: nat, row: int, checkFirst: bool)  // `row` is the key generated for an alias
    | DeleteAccount(email: string)
    | DeleteAlias(source: string)

  predicate Enabled(st: State, l: Label) {
    match l
    case AddDomain(_, id) => id !in st.db.generated
    case Lookup(n, h) =>
      n !in st.handlers && n !in st.answers && SplitAddress(AddressOf(h)).Some?
      && Refers(st.db, h.domainId, SplitAddress(AddressOf(h)).value.1)
    case GiveUp(n) => n in st.handlers
    case Insert(n, row, _) => n in st.handlers && row !in st.db.aliases
    case _ => true
  }

  /** The tables after a handler's insert, and whether the statement reported success. */
  function Inserted(db: Db, h: Handler, row: int, checkFirst: bool): (Db, bool) {
    match h
    case ForUser(address, id, password, quota) => UpsertUser(db, address, User(id, password, quota), checkFirst)
    case ForAlias(source, id, destination) => (InsertAlias(db, Alias(id, source, destination), row), true)
  }

  function Apply(st: State, l: Label): State
    requires Enabled(st, l)
  {
    match l
    case AddDomain(name, id) => st.(db := InsertDomain(st.db, name, id))
    case RemoveDomain(name) => st.(db := DeleteDomain(st.db, name))
    case Lookup(n, h) => st.(handlers := st.handlers[n := h])
    case GiveUp(n) => st.(handlers := st.handlers - {n}, answers := st.answers[n := false])
    case Insert(n, row, checkFirst) =>
      var (db', ok) := Inserted(st.db, st.handlers[n], row, checkFirst);
      State(db', st.handlers - {n}, st.answers[n := ok])
    case DeleteAccount(email) => st.(db := DeleteUser(st.db, email))
    case DeleteAlias(source) => st.(db := DeleteAliases(st.db, source))
  }

  predicate CanRun(st: State, ls: seq<Label>)
    decreases |ls|
  {
    ls == [] || (Enabled(st, ls[0]) && CanRun(Apply(st, ls[0]), ls[1..]))
  }

  function After(st: State, ls: seq<Label>): State
    requires CanRun(st, ls)
    decreases |ls|
  {
    if ls == [] then st else After(Apply(st, ls[0]), ls[1..])
  }

  /** A handler's identifier was once that of the domain in its address, and identifiers are
      never reused: if it is still live it still names that domain. */
  ghost predicate HandlersOk(st: State) {
    forall n :: n in st.handlers ==>
      var h := st.handlers[n];
      h.domainId in st.db.generated && InDomain(AddressOf(h), st.db.generated[h.domainId])
  }

  ghost predicate Inv(st: State) { Keys(st.db) && Integrity(st.db) && HandlersOk(st) }

  lemma UpsertKeepsIntegrity(db: Db, address: string, u: User, checkFirst: bool)
    requires Keys(db) && Integrity(db)
    requires u.domainId in db.domains ==> InDomain(address, db.domains[u.domainId])
    ensures Integrity(UpsertUser(db, address, u, checkFirst).0)
  {
  }

  lemma AliasKeepsIntegrity(db: Db, a: Alias, row: int)
    requires Keys(db) && Integrity(db)
    requires a.domainId in db.domains ==> InDomain(a.source, db.domains[a.domainId])
    ensures Integrity(InsertAlias(db, a, row))
  {
  }

  lemma InsertKeepsInv(st: State, n: nat, row: int, checkFirst: bool)
    requires Inv(st) && Enabled(st, Insert(n, row, checkFirst))
    ensures Inv(Apply(st, Insert(n, row, checkFirst)))
  {
    match st.handlers[n]
    case ForUser(address, id, password, quota) =>
      UpsertKeepsIntegrity(st.db, address, User(id, password, quota), checkFirst);
    case ForAlias(source, id, destination) => AliasKeepsIntegrity(st.db, Alias(id, source, destination), row);
  }

  lemma DomainStepKeepsInv(st: State, l: Label)
    requires Inv(st) && Enabled(st, l) && (l.AddDomain? || l.RemoveDomain?)
    ensures Inv(Apply(st, l))
  {
    if l.AddDomain? && l.name !in st.db.domains.Values {
      assert forall i :: i in st.db.domains ==> st.db.domains[i] in st.db.domains.Values;
    }
  }

  lemma StepKeepsInv(st: State, l: Label)
    requires Inv(st) && Enabled(st, l)
    ensures Inv(Apply(st, l))
  {
    match l
    case Insert(n, row, checkFirst) => InsertKeepsInv(st, n, row, checkFirst);
    case AddDomain(_, _) => DomainStepKeepsInv(st, l);
    case RemoveDomain(_) => DomainStepKeepsInv(st, l);
    case _ =>
  }

  lemma {:induction false} RunKeepsInv(st: State, ls: seq<Label>)
    requires Inv(st) && CanRun(st, ls)
    ensures Inv(After(st, ls))
    decreases |ls|
  {
    if ls != [] {
      StepKeepsInv(st, ls[0]);
      RunKeepsInv(Apply(st, ls[0]), ls[1..]);
    }
  }

  /** Over every interleaving of the handlers' statements: each user and alias references a
      live domain whose name is the domain part of its address. */
  lemma EveryInterleavingKeepsIntegrity(ls: seq<Label>)
    requires CanRun(INIT, ls)
    ensures Integrity(After(INIT, ls).db)
    ensures Keys(After(INIT, ls).db)
  {
    RunKeepsInv(INIT, ls);
  }

  /** A domain identifier that has been removed never names a live domain again, whatever is
      removed and added afterwards. */
  lemma {:induction false} DeadStaysDead(st: State, ls: seq<Label>, id: int)
    requires CanRun(st, ls) && id in st.db.generated && id !in st.db.domains
    ensures id in After(st, ls).db.generated && id !in After(st, ls).db.domains
    decreases |ls|
  {
    if ls != [] {
      DeadStaysDead(Apply(st, ls[0]), ls[1..], id);
    }
  }

  // ---------------------------------------------------------------- what each statement does

  lemma ValueHasKey(m: map<int, string>, v: string)
    requires v in m.Values
    ensures exists k :: k in m && m[k] == v
  {
    if forall k :: k in m ==> m[k] != v {
      assert false;
    }
  }

  lemma AddDomainExact(st: State, name: string, id: int)
    requires Enabled(st, AddDomain(name, id))
    ensures
      var st' := Apply(st, AddDomain(name, id));
      && st'.db.users == st.db.users && st'.db.aliases == st.db.aliases
      && st'.handlers == st.handlers && st'.answers == st.answers
      && ((exists i :: i in st.db.domains && st.db.domains[i] == name) ==> st'.db == st.db)
      && ((forall i :: i in st.db.domains ==> st.db.domains[i] != name) ==>
            st'.db.domains == st.db.domains[id := name] && st'.db.generated == st.db.generated[id := name])
  {
    if i :| i in st.db.domains && st.db.domains[i] == name {
      assert st.db.domains[i] in st.db.domains.Values;
    }
    if name in st.db.domains.Values {
      ValueHasKey(st.db.domains, name);
    }
  }

  /** The domain goes, with exactly the users and aliases of addresses in it. */
  lemma RemoveDomainExact(st: State, name: string)
    requires Inv(st)
    ensures
      var st' := Apply(st, RemoveDomain(name));
      && st'.handlers == st.handlers && st'.answers == st.answers && st'.db.generated == st.db.generated
      && (forall i :: i in st'.db.domains <==> i in st.db.domains && st.db.domains[i] != name)
      && (forall i :: i in st'.db.domains ==> st'.db.domains[i] == st.db.domains[i])
      && (forall e :: e in st'.db.users <==> e in st.db.users && !InDomain(e, name))
      && (forall e :: e in st'.db.users ==> st'.db.users[e] == st.db.users[e])
      && (forall a :: a in st'.db.aliases <==> a in st.db.aliases && !InDomain(st.db.aliases[a].source, name))
      && (forall a :: a in st'.db.aliases ==> st'.db.aliases[a] == st.db.aliases[a])
  {
  }

  lemma DeleteAccountExact(st: State, email: string)
    ensures Apply(st, DeleteAccount(email)) == st.(db := st.db.(users := st.db.users - {email}))
  {
  }

  lemma DeleteAliasExact(st: State, source: string)
    ensures
      var st' := Apply(st, DeleteAlias(source));
      && st' == st.(db := st.db.(aliases := st'.db.aliases))
      && (forall a :: a in st'.db.aliases <==> a in st.db.aliases && st.db.aliases[a].source != source)
      && (forall a :: a in st'.db.aliases ==> st'.db.aliases[a] == st.db.aliases[a])
  {
  }

  /** A user's row goes in exactly two kinds of step: its own deletion, and the removal of the
      domain of its address. Otherwise its domain stays, and its password and quota too unless
      a handler for this address inserts. */
  lemma StepTakesUserIff(st: State, l: Label, e: string)
    requires Inv(st) && Enabled(st, l) && e in st.db.users
    ensures SplitAddress(e).Some?
    ensures e !in Apply(st, l).db.users <==>
            l == DeleteAccount(e) || l == RemoveDomain(SplitAddress(e).value.1)
    ensures e in Apply(st, l).db.users ==>
              && Apply(st, l).db.users[e].domainId == st.db.users[e].domainId
              && (!(l.Insert? && st.handlers[l.n].ForUser? && st.handlers[l.n].address == e) ==>
                    Apply(st, l).db.users[e] == st.db.users[e])
  {
    match l
    case RemoveDomain(name) => RemoveDomainExact(st, name);
    case DeleteAccount(email) => DeleteAccountExact(st, email);
    case Insert(n, row, checkFirst) => InsertKeepsUser(st, n, row, checkFirst, e);
    case _ =>
  }

  lemma InsertKeepsUser(st: State, n: nat, row: int, checkFirst: bool, e: string)
    requires Enabled(st, Insert(n, row, checkFirst)) && e in st.db.users
    ensures
      var st' := Apply(st, Insert(n, row, checkFirst));
      && e in st'.db.users && st'.db.users[e].domainId == st.db.users[e].domainId
      && (!(st.handlers[n].ForUser? && st.handlers[n].address == e) ==> st'.db.users[e] == st.db.users[e])
  {
  }

  /** The same for an alias, which nothing else ever changes. */
  lemma StepTakesAliasIff(st: State, l: Label, a: int)
    requires Inv(st) && Enabled(st, l) && a in st.db.aliases
    ensures SplitAddress(st.db.aliases[a].source).Some?
    ensures a !in Apply(st, l).db.aliases <==>
            || l == DeleteAlias(st.db.aliases[a].source)
            || l == RemoveDomain(SplitAddress(st.db.aliases[a].source).value.1)
    ensures a in Apply(st, l).db.aliases ==> Apply(st, l).db.aliases[a] == st.db.aliases[a]
  {
    match l
    case RemoveDomain(name) => RemoveDomainExact(st, name);
    case DeleteAlias(source) => DeleteAliasExact(st, source);
    case _ =>
  }

  /** Over every interleaving: a user that is there at one point and gone at a later one was
      deleted, or its domain was removed, in between. */
  lemma {:induction false} UserLostOnlyBy(st: State, ls: seq<Label>, e: string)
    requires Inv(st) && CanRun(st, ls) && e in st.db.users && e !in After(st, ls).db.users
    ensures SplitAddress(e).Some?
    ensures DeleteAccount(e) in ls || RemoveDomain(SplitAddress(e).value.1) in ls
    decreases |ls|
  {
    if ls != [] {
      StepTakesUserIff(st, ls[0], e);
      StepKeepsInv(st, ls[0]);
      if e in Apply(st, ls[0]).db.users {
        UserLostOnlyBy(Apply(st, ls[0]), ls[1..], e);
        assert forall l :: l in ls[1..] ==> l in ls;
      }
    }
  }

  lemma {:induction false} AliasLostOnlyBy(st: State, ls: seq<Label>, a: int)
    requires Inv(st) && CanRun(st, ls) && a in st.db.aliases && a !in After(st, ls).db.aliases
    ensures SplitAddress(st.db.aliases[a].source).Some?
    ensures
      || DeleteAlias(st.db.aliases[a].source) in ls
      || RemoveDomain(SplitAddress(st.db.aliases[a].source).value.1) in ls
    decreases |ls|
  {
    if ls != [] {
      StepTakesAliasIff(st, ls[0], a);
      StepKeepsInv(st, ls[0]);
      if a in Apply(st, ls[0]).db.aliases {
        AliasLostOnlyBy(Apply(st, ls[0]), ls[1..], a);
        assert forall l :: l in ls[1..] ==> l in ls;
      }
    }
  }

  // ---------------------------------------------------------------- what a handler reports

  /** An alias insert always reports success; the row is there exactly when the identifier
      looked up is still live. */
  lemma AliasInsertIff(st: State, n: nat, row: int, checkFirst: bool)
    requires Enabled(st, Insert(n, row, checkFirst)) && st.handlers[n].ForAlias?
    ensures
      var h, st' := st.handlers[n], Apply(st, Insert(n, row, checkFirst));
      && st'.answers[n]
      && (row in st'.db.aliases <==> h.domainId in st.db.domains)
      && (row in st'.db.aliases ==> st'.db.aliases[row] == Alias(h.domainId, h.source, h.destination))
      && (forall a :: a in st.db.aliases ==> a in st'.db.aliases && st'.db.aliases[a] == st.db.aliases[a])
      && st'.db.users == st.db.users && st'.db.domains == st.db.domains
  {
  }

  /** An account insert fails exactly when the identifier looked up is dead and the key is
      checked: for a new row always, for an existing one if the check comes first. */
  lemma AccountInsertIff(st: State, n: nat, row: int, checkFirst: bool)
    requires Enabled(st, Insert(n, row, checkFirst)) && st.handlers[n].ForUser?
    ensures
      var h, st' := st.handlers[n], Apply(st, Insert(n, row, checkFirst));
      && (!st'.answers[n] <==> h.domainId !in st.db.domains && (h.address !in st.db.users || checkFirst))
      && (!st'.answers[n] ==> st'.db == st.db)
      && (st'.answers[n] ==> h.address in st'.db.users && st'.db.users[h.address].password == h.password
                             && st'.db.users[h.address].quota == h.quota)
      && (forall e :: e in st.db.users && e != h.address ==> e in st'.db.users && st'.db.users[e] == st.db.users[e])
      && st'.db.aliases == st.db.aliases && st'.db.domains == st.db.domains
  {
  }

  /** A finished handler never runs again. */
  lemma {:induction false} FinishedStaysFinished(st: State, ls: seq<Label>, n: nat)
    requires CanRun(st, ls) && n in st.answers && n !in st.handlers
    ensures n !in After(st, ls).handlers
    decreases |ls|
  {
    if ls != [] {
      FinishedStaysFinished(Apply(st, ls[0]), ls[1..], n);
    }
  }

  /** A handler still running holds what it looked up. */
  lemma {:induction false} HandlerKept(st: State, ls: seq<Label>, n: nat)
    requires CanRun(st, ls) && n in st.handlers && n in After(st, ls).handlers
    ensures After(st, ls).handlers[n] == st.handlers[n]
    decreases |ls|
  {
    if ls != [] {
      var st' := Apply(st, ls[0]);
      if n in st'.handlers {
        HandlerKept(st', ls[1..], n);
      } else {
        FinishedStaysFinished(st', ls[1..], n);
      }
    }
  }

  predicate Removes(ls: seq<Label>, name: string) { RemoveDomain(name) in ls }

  lemma StepLivesIff(st: State, l: Label, id: int, name: string)
    requires Keys(st.db) && Enabled(st, l) && Refers(st.db, id, name)
    ensures l != RemoveDomain(name) ==> Refers(Apply(st, l).db, id, name)
    ensures l == RemoveDomain(name) ==> id in Apply(st, l).db.generated && id !in Apply(st, l).db.domains
  {
  }

  /** A live domain identifier is still live at the end of a run exactly when its domain was
      not removed on the way, whatever was added again. */
  lemma {:induction false} LivesIff(st: State, ls: seq<Label>, id: int, name: string)
    requires Inv(st) && CanRun(st, ls) && Refers(st.db, id, name)
    ensures id in After(st, ls).db.domains <==> !Removes(ls, name)
    decreases |ls|
  {
    if ls != [] {
      var st' := Apply(st, ls[0]);
      StepLivesIff(st, ls[0], id, name);
      StepKeepsInv(st, ls[0]);
      assert ls == [ls[0]] + ls[1..];
      if ls[0] == RemoveDomain(name) {
        DeadStaysDead(st', ls[1..], id);
      } else {
        LivesIff(st', ls[1..], id, name);
      }
    }
  }

  /** Over every interleaving: when a handler that looked up the domain of its address comes
      to its insert, an alias handler reports success in any case, but its row is there if
      and only if the domain was not removed in between; an account handler fails if and only
      if it was, and the row is new or the key is checked first. */
  lemma AnswersIff(before: seq<Label>, n: nat, h: Handler, ls: seq<Label>, row: int, checkFirst: bool)
    requires CanRun(INIT, before) && Enabled(After(INIT, before), Lookup(n, h))
    requires CanRun(Apply(After(INIT, before), Lookup(n, h)), ls)
    requires Enabled(After(Apply(After(INIT, before), Lookup(n, h)), ls), Insert(n, row, checkFirst))
    ensures
      var end := After(Apply(After(INIT, before), Lookup(n, h)), ls);
      var end' := Apply(end, Insert(n, row, checkFirst));
      var removed := Removes(ls, SplitAddress(AddressOf(h)).value.1);
      && (h.ForAlias? ==> end'.answers[n] && (row in end'.db.aliases <==> !removed))
      && (h.ForUser? ==> (end'.answers[n] <==> !(removed && (h.address !in end.db.users || checkFirst))))
      && (removed ==> end'.db.aliases == end.db.aliases && end'.db.users.Keys == end.db.users.Keys
                      && forall e :: e in end.db.users ==> end'.db.users[e].domainId == end.db.users[e].domainId)
  {
    var st := Apply(After(INIT, before), Lookup(n, h));
    var end := After(st, ls);
    RunKeepsInv(INIT, before);
    StepKeepsInv(After(INIT, before), Lookup(n, h));
    HandlerKept(st, ls, n);
    LivesIff(st, ls, h.domainId, SplitAddress(AddressOf(h)).value.1);
    if h.ForAlias? {
      AliasInsertIff(end, n, row, checkFirst);
    } else {
      AccountInsertIff(end, n, row, checkFirst);
    }
  }

  /** An alias whose domain goes between the lookup and the insert: the handler reports
      success and there is no alias. */
  lemma SkippedAliasReportsSuccess() returns (ls: seq<Label>)
    ensures ls == [AddDomain("d", 1), Lookup(0, ForAlias("a@d", 1, "x@y")), RemoveDomain("d"), Insert(0, 7, true)]
    ensures CanRun(INIT, ls) && After(INIT, ls).answers == map[0 := true] && After(INIT, ls).db.aliases == map[]
  {
    ls := [AddDomain("d", 1), Lookup(0, ForAlias("a@d", 1, "x@y")), RemoveDomain("d"), Insert(0, 7, true)];
    SplitIsExact("a@d", "a", "d");
    var s1 := Apply(INIT, ls[0]);
    assert s1.db.domains == map[1 := "d"];
    var s2 := Apply(s1, ls[1]);
    var s3 := Apply(s2, ls[2]);
    assert s3.db.domains == map[] && s3.db.aliases == map[];
    var s4 := Apply(s3, ls[3]);
    assert ls[1..][1..][1..][1..] == [] && ls[1..][1..][1..] == [ls[3]] && ls[1..][1..] == [ls[2], ls[3]];
    assert CanRun(s3, ls[1..][1..][1..]) && After(s3, ls[1..][1..][1..]) == s4;
    assert CanRun(s2, ls[1..][1..]) && After(s2, ls[1..][1..]) == s4;
    assert ls[1..][0] == ls[1];
    assert CanRun(s1, ls[1..]) && After(s1, ls[1..]) == s4;
  }
}

/** The manager's methods one after another, with the maildir tree they create and purge. */
module MailHost {
  import opened Messages
  import opened MailTables
  import opened Text
  import opened Paths

  /** The elements of an absolute path. */
  type Path = seq<string>

  const ROOT: Path := ["var", "mail", "vhosts"]
  const MAIL_ROOT := "/var/mail/vhosts"

  function Prefixes(p: Path): set<Path> { set n | 0 <= n <= |p| :: p[..n] }

  function MkdirAll(tree: set<Path>, p: Path): set<Path> { tree + Prefixes(p) }

  function RemoveAll(tree: set<Path>, p: Path): set<Path> { set q | q in tree && !(p <= q) }

  /** What a call on the file system comes to: all it asks for, or an error that leaves some of
      the directories to be made, or some of the paths to be removed. */
  datatype Disk = Done | Fails(left: set<Path>)

  function Made(tree: set<Path>, p: Path, disk: Disk): set<Path> {
    match disk
    case Done => MkdirAll(tree, p)
    case Fails(left) => tree + Prefixes(p) * left
  }

  function Purged(tree: set<Path>, p: Path, disk: Disk): set<Path> {
    match disk
    case Done => RemoveAll(tree, p)
    case Fails(left) => set q | q in tree && (!(p <= q) || q in left)
  }

  const SUBDIRS: seq<Path> := [[], ["cur"], ["new"], ["tmp"]]

  function DomainDir(domain: string): Path { Elements(MAIL_ROOT, domain) }

  function Maildir(address: string): Path
    requires SplitAddress(address).Some?
  {
    Elements(MAIL_ROOT, SplitAddress(address).value.1 + "/" + SplitAddress(address).value.0)
  }

  predicate PlainAddress(address: string) {
    SplitAddress(address).Some? && PlainName(SplitAddress(address).value.0) && PlainName(SplitAddress(address).value.1)
  }

  ghost predicate HasMaildir(tree: set<Path>, address: string) {
    SplitAddress(address).Some? &&
    forall n :: 0 <= n < |SUBDIRS| ==> Maildir(address) + SUBDIRS[n] in tree
  }

  // ---------------------------------------------------------------- where the directories are

  lemma RootIsPlain()
    ensures Plain(ROOT) && MAIL_ROOT == "/" + Join(ROOT, '/')
  {
    assert ROOT[1..] == ["mail", "vhosts"] && ROOT[1..][1..] == ["vhosts"];
    assert Join(ROOT[1..], '/') == "mail/vhosts";
    assert forall n :: 0 <= n < 3 ==> ROOT[n] == "var" || ROOT[n] == "mail" || ROOT[n] == "vhosts";
  }

  /** The maildir is the domain's and the local part's own place exactly when both are plain
      names, and a domain's directory is its own exactly when the domain is. */
  lemma DirsAreOwnIff(address: string, domain: string)
    requires SplitAddress(address).Some?
    ensures Maildir(address) ==
            ["var", "mail", "vhosts", SplitAddress(address).value.1, SplitAddress(address).value.0]
            <==> PlainAddress(address)
    ensures DomainDir(domain) == ["var", "mail", "vhosts", domain] <==> PlainName(domain)
  {
    RootIsPlain();
    TwoBelow(ROOT, SplitAddress(address).value.1, SplitAddress(address).value.0);
    OneBelow(ROOT, domain);
  }

  /** The local part ".." names the whole mail root, and so does the empty domain. */
  lemma OddNamesEscape()
    ensures SplitAddress("..@d") == Some(("..", "d")) && Maildir("..@d") == ROOT
    ensures DomainDir("") == ROOT
  {
    RootIsPlain();
    SplitIsExact("..@d", "..", "d");
    ElementsBelow(ROOT, "");
    assert [""][1..] == [];
    BelowD("..");
    SplitOfPiece("..", '/');
    assert [".."][1..] == [] && (ROOT + ["d"])[..3] == ROOT;
  }

  /** A local part with a slash names a directory inside another address's maildir. */
  lemma SlashedNamesNest()
    ensures SplitAddress("a/cur@d") == Some(("a/cur", "d")) && SplitAddress("a@d") == Some(("a", "d"))
    ensures Maildir("a/cur@d") == Maildir("a@d") + ["cur"]
  {
    SplitIsExact("a/cur@d", "a/cur", "d");
    SplitIsExact("a@d", "a", "d");
    BelowD("a");
    BelowD("a/cur");
    SlashNests(ROOT + ["d"]);
  }

  lemma SlashNests(stack: Path)
    ensures Clean(Split("a/cur", '/'), stack) == Clean(Split("a", '/'), stack) + ["cur"]
  {
    SlashSplits();
    SplitOfPiece("a", '/');
    CleanOfConcat(["a"], ["cur"], stack);
    assert Plain(["cur"]);
    CleanOfPlain(["cur"], Clean(["a"], stack));
  }

  lemma SlashSplits()
    ensures Split("a/cur", '/') == ["a"] + ["cur"]
  {
    assert "a/cur" == "a" + ['/'] + "cur";
    SplitOfConcat("a", "cur", '/');
    SplitOfPiece("a", '/');
    SplitOfPiece("cur", '/');
  }

  lemma BelowD(local: string)
    ensures Elements(MAIL_ROOT, "d" + "/" + local) == Clean(Split(local, '/'), ROOT + ["d"])
  {
    RootIsPlain();
    ElementsBelow(ROOT, "d" + "/" + local);
    assert "d" + "/" + local == "d" + ['/'] + local;
    SplitOfConcat("d", local, '/');
    SplitOfPiece("d", '/');
    CleanOfConcat(["d"], Split(local, '/'), ROOT);
    assert Plain(["d"]);
    CleanOfPlain(["d"], ROOT);
  }

  /** Maildirs of different plain addresses never lie in one another. */
  lemma MaildirsAreDisjoint(a: string, b: string, q: Path)
    requires PlainAddress(a) && PlainAddress(b) && a != b
    ensures !(Maildir(a) <= q && Maildir(b) <= q)
  {
    var (la, da) := SplitAddress(a).value;
    var (lb, db) := SplitAddress(b).value;
    SplitIsExact(a, la, da);
    SplitIsExact(b, lb, db);
    DirsAreOwnIff(a, da);
    DirsAreOwnIff(b, db);
    assert Maildir(a) <= q ==> q[..5] == Maildir(a);
    assert Maildir(b) <= q ==> q[..5] == Maildir(b);
    assert Maildir(a)[3] == da && Maildir(a)[4] == la && Maildir(b)[3] == db && Maildir(b)[4] == lb;
  }

  /** A plain domain's directory holds the maildirs of its own plain addresses and no other. */
  lemma MaildirInDomain(address: string, domain: string, q: Path)
    requires PlainAddress(address) && PlainName(domain) && Maildir(address) <= q
    ensures DomainDir(domain) <= q <==> InDomain(address, domain)
  {
    DirsAreOwnIff(address, domain);
    assert q[..5] == Maildir(address);
    assert q[3] == SplitAddress(address).value.1;
    if DomainDir(domain) <= q {
      assert q[..4] == DomainDir(domain) && q[..4][3] == domain;
    }
    if InDomain(address, domain) {
      assert q[..4] == Maildir(address)[..4] == ROOT + [domain];
    }
  }

  /** Nothing at or below the address's maildir is lost. */
  ghost predicate KeepsMaildir(before: set<Path>, after: set<Path>, address: string)
    requires SplitAddress(address).Some?
  {
    forall q :: q in before && Maildir(address) <= q ==> q in after
  }

  lemma PurgedDomainKeeps(tree: set<Path>, domain: string, other: string)
    requires PlainName(domain) && PlainAddress(other) && !InDomain(other, domain)
    ensures forall disk :: KeepsMaildir(tree, Purged(tree, DomainDir(domain), disk), other)
  {
    forall q | q in tree && Maildir(other) <= q ensures !(DomainDir(domain) <= q) {
      MaildirInDomain(other, domain, q);
    }
  }

  /** Purging one address can never cost another a path exactly when neither maildir lies in
      the other. */
  lemma PurgeIsHarmlessIff(a: string, b: string)
    requires SplitAddress(a).Some? && SplitAddress(b).Some?
    ensures (forall tree :: KeepsMaildir(tree, RemoveAll(tree, Maildir(a)), b))
            <==> !(Maildir(a) <= Maildir(b) || Maildir(b) <= Maildir(a))
  {
    var p, q := Maildir(a), Maildir(b);
    if p <= q || q <= p {
      var x := if p <= q then q else p;
      assert x in {x} && q <= x && x !in RemoveAll({x}, p);
      assert !KeepsMaildir({x}, RemoveAll({x}, p), b);
    } else {
      forall tree ensures KeepsMaildir(tree, RemoveAll(tree, p), b) {
        forall x | x in tree && q <= x ensures !(p <= x) {
          if p <= x {
            PrefixesCompare(p, q, x);
          }
        }
      }
    }
  }

  lemma PrefixesCompare(p: Path, q: Path, x: Path)
    requires p <= x && q <= x
    ensures p <= q || q <= p
  {
    assert p == x[..|p|] && q == x[..|q|];
  }

  lemma PurgedMaildirKeeps(tree: set<Path>, address: string, other: string)
    requires PlainAddress(address) && PlainAddress(other) && address != other
    ensures forall disk :: KeepsMaildir(tree, Purged(tree, Maildir(address), disk), other)
  {
    MaildirsAreDisjoint(address, other, Maildir(address));
    MaildirsAreDisjoint(address, other, Maildir(other));
    PurgeIsHarmlessIff(address, other);
    assert KeepsMaildir(tree, RemoveAll(tree, Maildir(address)), other);
    forall disk ensures KeepsMaildir(tree, Purged(tree, Maildir(address), disk), other) {
      assert RemoveAll(tree, Maildir(address)) <= Purged(tree, Maildir(address), disk);
    }
  }

  /** A maildir is its directory with the three that make it one. */
  lemma MaildirSpelled(tree: set<Path>, address: string)
    requires SplitAddress(address).Some?
    ensures HasMaildir(tree, address) <==>
            && Maildir(address) in tree && Maildir(address) + ["cur"] in tree
            && Maildir(address) + ["new"] in tree && Maildir(address) + ["tmp"] in tree
  {
    assert Maildir(address) + SUBDIRS[0] == Maildir(address);
    assert SUBDIRS[1] == ["cur"] && SUBDIRS[2] == ["new"] && SUBDIRS[3] == ["tmp"];
    assert |SUBDIRS| == 4;
  }

  /** The path is one of a maildir's directories, or above it. */
  predicate ForMaildir(q: Path, address: string)
    requires SplitAddress(address).Some?
  {
    q <= Maildir(address) + ["cur"] || q <= Maildir(address) + ["new"] || q <= Maildir(address) + ["tmp"]
  }

  lemma SubdirIsForMaildir(address: string, n: nat)
    requires SplitAddress(address).Some? && n < |SUBDIRS|
    ensures forall q :: q <= Maildir(address) + SUBDIRS[n] ==> ForMaildir(q, address)
  {
    assert Maildir(address) + SUBDIRS[0] == Maildir(address);
    assert SUBDIRS[1] == ["cur"] && SUBDIRS[2] == ["new"] && SUBDIRS[3] == ["tmp"];
  }

  /** Directories are only added: the one asked for and those above it. */
  ghost predicate OnlyAbove(before: set<Path>, after: set<Path>, p: Path) {
    before <= after && forall q :: q in after && q !in before ==> q <= p
  }

  lemma MadeAddsOnlyAbove(tree: set<Path>, p: Path, disk: Disk)
    ensures OnlyAbove(tree, Made(tree, p, disk), p)
    ensures disk == Done ==> forall n :: 0 <= n <= |p| ==> p[..n] in Made(tree, p, disk)
    ensures disk == Done ==> p in Made(tree, p, disk)
  {
    assert p[..|p|] == p;
  }

  /** Paths are only removed, and only at or below this one; without an error all of them. */
  ghost predicate OnlyBelow(before: set<Path>, after: set<Path>, p: Path, all: bool) {
    && after <= before && (forall q :: q in before && !(p <= q) ==> q in after)
    && (all ==> forall q :: q in after ==> !(p <= q))
  }

  // ---------------------------------------------------------------- the manager

  class Manager {
    var db: Db
    var tree: set<Path>

    ghost predicate Valid()
      reads this
    {
      Keys(db) && Integrity(db)
    }

    /** Every user has a plain address and its maildir. */
    ghost predicate Provisioned()
      reads this
    {
      forall e :: e in db.users ==> PlainAddress(e) && HasMaildir(tree, e)
    }

    constructor ()
      ensures Valid() && Provisioned() && db == EMPTY && tree == {}
    {
      db, tree := EMPTY, {};
    }

    /** `exec` says whether the statement succeeds, `disk` what becomes of the directory. */
    method AddDomain(domain: string, id: int, exec: bool, disk: Disk) returns (ok: bool)
      requires Valid() && id !in db.generated
      modifies this
      ensures Valid() && (ok <==> exec && disk == Done)
      ensures db.users == old(db.users) && db.aliases == old(db.aliases)
      ensures db.domains == if exec && domain !in old(db.domains.Values) then old(db.domains)[id := domain]
                            else old(db.domains)
      ensures OnlyAbove(old(tree), tree, DomainDir(domain)) && (ok ==> DomainDir(domain) in tree)
      ensures !exec ==> tree == old(tree)
      ensures old(Provisioned()) ==> Provisioned()
    {
      if !exec {
        return false;
      }
      MadeAddsOnlyAbove(tree, DomainDir(domain), disk);
      assert forall i :: i in db.domains ==> db.domains[i] in db.domains.Values;
      db := InsertDomain(db, domain, id);
      tree := Made(tree, DomainDir(domain), disk);
      assert forall e :: HasMaildir(old(tree), e) ==> HasMaildir(tree, e);
      ok := disk == Done;
    }

    /** Exactly the domain's own users go. A purge removes what is below the domain's
        directory, and no more if it fails; for a plain domain no remaining user loses
        anything. */
    method RemoveDomain(domain: string, purgeMail: bool, exec: bool, disk: Disk) returns (ok: bool)
      requires Valid()
      modifies this
      ensures Valid() && (ok <==> exec && (purgeMail ==> disk == Done))
      ensures !exec ==> db == old(db)
      ensures exec ==> forall i :: i in db.domains <==> i in old(db.domains) && old(db.domains)[i] != domain
      ensures exec ==> forall e :: e in db.users <==> e in old(db.users) && !InDomain(e, domain)
      ensures exec ==>
                forall a :: a in db.aliases <==> a in old(db.aliases) && !InDomain(old(db.aliases)[a].source, domain)
      ensures forall i :: i in db.domains ==> db.domains[i] == old(db.domains)[i]
      ensures forall e :: e in db.users ==> db.users[e] == old(db.users)[e]
      ensures forall a :: a in db.aliases ==> db.aliases[a] == old(db.aliases)[a]
      ensures !(exec && purgeMail) ==> tree == old(tree)
      ensures OnlyBelow(old(tree), tree, DomainDir(domain), ok && purgeMail)
      ensures PlainName(domain) ==>
                forall other :: PlainAddress(other) && !InDomain(other, domain) ==> KeepsMaildir(old(tree), tree, other)
      ensures old(Provisioned()) && (PlainName(domain) || !purgeMail || !exec) ==> Provisioned()
    {
      if !exec {
        return false;
      }
      db := DeleteDomain(db, domain);
      if purgeMail {
        tree := Purged(tree, DomainDir(domain), disk);
      }
      forall other | PlainName(domain) && PlainAddress(other) && !InDomain(other, domain)
        ensures KeepsMaildir(old(tree), tree, other)
      {
        PurgedDomainKeeps(old(tree), domain, other);
      }
      forall e | old(Provisioned()) && (PlainName(domain) || !purgeMail) && e in db.users
        ensures PlainAddress(e) && HasMaildir(tree, e)
      {
        assert HasMaildir(old(tree), e) && !InDomain(e, domain);
        assert forall n :: 0 <= n < |SUBDIRS| ==> Maildir(e) <= Maildir(e) + SUBDIRS[n];
      }
      ok := !purgeMail || disk == Done;
    }

    /** The statement behind `domainID`. */
    method FindDomain(domain: string, lookup: bool) returns (id: Option<int>)
      ensures id.Some? ==> lookup && Refers(db, id.value, domain)
      ensures id == None ==> !lookup || domain !in db.domains.Values
    {
      if !lookup {
        return None;
      }
      if i :| i in db.domains && db.domains[i] == domain {
        id := Some(i);
      } else {
        assert forall i :: i in db.domains ==> db.domains[i] != domain;
        id := None;
      }
    }

    /** The row for the account has been written. */
    ghost predicate Stores(address: string, hash: Option<string>, lookup: bool, exec: bool)
      reads this
    {
      && SplitAddress(address).Some? && lookup && SplitAddress(address).value.1 in db.domains.Values
      && hash.Some? && exec
    }

    /** `hash` is the password hash, if it could be computed; `lookup` and `exec` say whether
        the two statements succeed; `fails` is the directory call that fails, if one does, and
        what it leaves. The row is written first: an error making a directory is reported, but
        the row stays. */
    method CreateAccount(
        address: string, hash: Option<string>, quota: nat, lookup: bool, exec: bool, fails: Option<(nat, set<Path>)>)
      returns (ok: bool)
      requires Valid()
      modifies this
      ensures Valid()
      ensures ok <==> old(Stores(address, hash, lookup, exec)) && (fails.Some? ==> fails.value.0 >= |SUBDIRS|)
      ensures !old(Stores(address, hash, lookup, exec)) ==> db == old(db) && tree == old(tree)
      ensures old(Stores(address, hash, lookup, exec)) ==>
                && db.users.Keys == old(db.users.Keys) + {address}
                && db.users[address].password == hash.value && db.users[address].quota == quota
                && db.domains == old(db.domains) && db.aliases == old(db.aliases)
                && forall e :: e in old(db.users) && e != address ==> db.users[e] == old(db.users[e])
      ensures ok ==> HasMaildir(tree, address)
      ensures old(tree) <= tree
      ensures forall q :: q in tree && q !in old(tree) ==> SplitAddress(address).Some? && ForMaildir(q, address)
      ensures old(Provisioned()) && (!old(Stores(address, hash, lookup, exec)) || (ok && PlainAddress(address))) ==>
                Provisioned()
    {
      var parts := SplitAddress(address);
      if parts == None {
        return false;
      }
      var id := FindDomain(parts.value.1, lookup);
      if id == None || hash == None || !exec {
        return false;
      }
      var (db', stored) := UpsertUser(db, address, User(id.value, hash.value, quota), true);
      db := db';
      if !stored {
        return false;
      }
      for n := 0 to |SUBDIRS|
        invariant db == db' && old(tree) <= tree && (fails.Some? ==> n <= fails.value.0)
        invariant forall q :: q in tree && q !in old(tree) ==> ForMaildir(q, address)
        invariant forall k :: 0 <= k < n ==> Maildir(address) + SUBDIRS[k] in tree
      {
        var dir := Maildir(address) + SUBDIRS[n];
        SubdirIsForMaildir(address, n);
        if fails.Some? && fails.value.0 == n {
          tree := Made(tree, dir, Fails(fails.value.1));
          return false;
        }
        tree := Made(tree, dir, Done);
        assert dir[..|dir|] == dir;
      }
      assert forall e :: HasMaildir(old(tree), e) ==> HasMaildir(tree, e);
      ok := true;
    }

    /** Deleting an account touches no other account's row. A purge removes what is below the
        address's maildir, and no more if it fails; for a plain address that is nothing of
        another plain one. */
    method DeleteAccount(address: string, purgeMail: bool, exec: bool, disk: Disk) returns (ok: bool)
      requires Valid()
      modifies this
      ensures Valid()
      ensures ok <==> SplitAddress(address).Some? && exec && (purgeMail ==> disk == Done)
      ensures db == if SplitAddress(address).Some? && exec then old(db).(users := old(db.users) - {address})
                    else old(db)
      ensures !(SplitAddress(address).Some? && exec && purgeMail) ==> tree == old(tree)
      ensures SplitAddress(address).Some? ==> OnlyBelow(old(tree), tree, Maildir(address), ok && purgeMail)
      ensures PlainAddress(address) ==>
                forall other :: PlainAddress(other) && other != address ==> KeepsMaildir(old(tree), tree, other)
      ensures old(Provisioned()) && (PlainAddress(address) || tree == old(tree)) ==> Provisioned()
    {
      if SplitAddress(address) == None || !exec {
        return false;
      }
      db := DeleteUser(db, address);
      if purgeMail {
        tree := Purged(tree, Maildir(address), disk);
      }
      forall other | PlainAddress(address) && PlainAddress(other) && other != address
        ensures KeepsMaildir(old(tree), tree, other)
      {
        PurgedMaildirKeeps(old(tree), address, other);
      }
      forall e | old(Provisioned()) && (PlainAddress(address) || tree == old(tree)) && e in db.users
        ensures PlainAddress(e) && HasMaildir(tree, e)
      {
        assert HasMaildir(old(tree), e);
        assert forall n :: 0 <= n < |SUBDIRS| ==> Maildir(e) <= Maildir(e) + SUBDIRS[n];
      }
      ok := !purgeMail || disk == Done;
    }

    method CreateAlias(source: string, destination: string, row: int, lookup: bool, exec: bool) returns (ok: bool)
      requires Valid() && row !in db.aliases
      modifies this
      ensures Valid() && tree == old(tree)
      ensures ok <==> SplitAddress(source).Some? && lookup && exec
                      && SplitAddress(source).value.1 in old(db.domains.Values)
      ensures !ok ==> db == old(db)
      ensures ok ==> db.users == old(db.users) && db.domains == old(db.domains)
      ensures ok ==> db.aliases.Keys == old(db.aliases.Keys) + {row}
                     && db.aliases[row].source == source && db.aliases[row].destination == destination
                     && Refers(db, db.aliases[row].domainId, SplitAddress(source).value.1)
                     && forall a :: a in old(db.aliases) ==> db.aliases[a] == old(db.aliases)[a]
      ensures old(Provisioned()) ==> Provisioned()
    {
      var parts := SplitAddress(source);
      if parts == None {
        return false;
      }
      var id := FindDomain(parts.value.1, lookup);
      if id == None || !exec {
        return false;
      }
      db := InsertAlias(db, Alias(id.value, source, destination), row);
      ok := true;
    }

    method DeleteAlias(source: string, exec: bool) returns (ok: bool)
      requires Valid()
      modifies this
      ensures Valid() && tree == old(tree) && ok == exec
      ensures db.users == old(db.users) && db.domains == old(db.domains) && (!exec ==> db == old(db))
      ensures exec ==> forall a :: a in db.aliases <==> a in old(db.aliases) && old(db.aliases)[a].source != source
      ensures forall a :: a in db.aliases ==> db.aliases[a] == old(db.aliases)[a]
      ensures old(Provisioned()) ==> Provisioned()
    {
      if exec {
        db := DeleteAliases(db, source);
      }
      ok := exec;
    }
  }
}
