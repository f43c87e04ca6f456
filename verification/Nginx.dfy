/** nginx vhosts as ordered filesystem steps: a config file in sites-available and a link to
it in sites-enabled. Creating writes the file, replaces the link, tests, and on a failed
test removes both; deleting removes the link and then the file. */
module Vhosts {
  import opened Text
  import opened Paths

  /** A name without slashes names its own file (`FilesAreOwn`). */
  type Domain = d: string | '/' !in d

  /** Both directories, keyed by domain: `available` holds the files "<domain>.conf", and
      `enabled` records for each link of that name the domain whose file it targets. */
  datatype Sites = Sites(available: map<Domain, string>, enabled: map<Domain, Domain>)

  // ---------------------------------------------------------------- names

  const AVAILABLE: seq<string> := ["etc", "nginx", "sites-available"]
  const SITES_AVAILABLE := "/etc/nginx/sites-available"

  function ConfFile(domain: string): seq<string> { Elements(SITES_AVAILABLE, domain + ".conf") }

  lemma AvailableIsPlain()
    ensures Plain(AVAILABLE) && SITES_AVAILABLE == "/" + Join(AVAILABLE, '/')
  {
    AvailableJoins();
    assert PlainName("etc") && PlainName("nginx") && PlainName("sites-available");
  }

  lemma AvailableJoins()
    ensures SITES_AVAILABLE == "/" + Join(AVAILABLE, '/')
  {
    assert AVAILABLE[1..] == ["nginx", "sites-available"] && AVAILABLE[1..][1..] == ["sites-available"];
    assert Join(AVAILABLE[1..], '/') == "nginx" + "/" + "sites-available";
    assert "/" + ("etc" + "/" + ("nginx" + "/" + "sites-available")) == SITES_AVAILABLE;
  }

  /** A domain's config is the file of its own name exactly when it has no slash, and then
      different domains have different files. */
  lemma FilesAreOwn(a: string, b: Domain)
    ensures ConfFile(a) == AVAILABLE + [a + ".conf"] <==> '/' !in a
    ensures '/' !in a ==> (ConfFile(a) == ConfFile(b) <==> a == b)
  {
    AvailableIsPlain();
    OneBelow(AVAILABLE, a + ".conf");
    OneBelow(AVAILABLE, b + ".conf");
    ConfIsPlainIff(a);
    ConfIsPlainIff(b);
    assert (AVAILABLE + [a + ".conf"])[3] == a + ".conf" && (AVAILABLE + [b + ".conf"])[3] == b + ".conf";
    assert (a + ".conf")[..|a|] == a && (b + ".conf")[..|b|] == b;
  }

  lemma ConfIsPlainIff(a: string)
    ensures PlainName(a + ".conf") <==> '/' !in a
  {
    var s := a + ".conf";
    assert |s| >= 5;
    assert '/' in a ==> '/' in s;
    assert forall n :: |a| <= n < |s| ==> s[n] == ".conf"[n - |a|];
    assert '/' !in ".conf";
  }

  /** With a slash it can be another domain's. */
  lemma SlashedNameIsShared()
    ensures ConfFile("a/../b") == ConfFile("b")
  {
    hide Split, Clean, Join, Elements;
    AvailableIsPlain();
    ElementsBelow(AVAILABLE, "a/../b.conf");
    ElementsBelow(AVAILABLE, "b.conf");
    SlashedNameSplits();
    ParentUndoes("a", Split("b.conf", '/'), AVAILABLE);
    assert "a/../b" + ".conf" == "a/../b.conf" && "b" + ".conf" == "b.conf";
  }

  lemma SlashedNameSplits()
    ensures Split("a/../b.conf", '/') == ["a"] + ([".."] + Split("b.conf", '/'))
  {
    assert "a/../b.conf" == "a" + ['/'] + (".." + ['/'] + "b.conf");
    SplitOfConcat("a", ".." + ['/'] + "b.conf", '/');
    SplitOfConcat("..", "b.conf", '/');
    SplitOfPiece("a", '/');
    SplitOfPiece("..", '/');
  }

  // ---------------------------------------------------------------- operations step by step

  /** Where an operation on one domain stands: the next filesystem step it will take. */
  datatype Op =
    | WriteConf(conf: string)
    | DropStale
    | MakeLink
    | TestConf
    | RollbackLink
    | RollbackConf
    | DropLink
    | DropConf

  /** At most one operation runs on a domain at a time; different domains interleave. */
  datatype State = State(sites: Sites, ops: map<Domain, Op>)

  datatype Label =
    | BeginCreate(d: Domain, conf: string)
    | BeginDelete(d: Domain)
    | Advance(d: Domain, passes: bool)   // `passes` is the outcome of `nginx -t`
    | Stop(d: Domain)                    // the operation ends here: an error or a crash

  predicate Enabled(st: State, l: Label) {
    match l
    case BeginCreate(d, _) => d !in st.ops
    case BeginDelete(d) => d !in st.ops
    case Advance(d, _) => d in st.ops && (st.ops[d] == MakeLink ==> d !in st.sites.enabled)
    case Stop(d) => d in st.ops
  }

  function Next(op: Op, passes: bool): (ops: seq<Op>) {
    match op
    case WriteConf(_) => [DropStale]
    case DropStale => [MakeLink]
    case MakeLink => [TestConf]
    case TestConf => if passes then [] else [RollbackLink]
    case RollbackLink => [RollbackConf]
    case RollbackConf => []
    case DropLink => [DropConf]
    case DropConf => []
  }

  /** The filesystem effect of one step. */
  function Effect(s: Sites, d: Domain, op: Op): Sites {
    match op
    case WriteConf(conf) => s.(available := s.available[d := conf])
    case DropStale | RollbackLink | DropLink => s.(enabled := s.enabled - {d})
    case MakeLink => s.(enabled := s.enabled[d := d])
    case RollbackConf | DropConf => s.(available := s.available - {d})
    case TestConf => s
  }

  function Apply(st: State, l: Label): State
    requires Enabled(st, l)
  {
    match l
    case BeginCreate(d, conf) => st.(ops := st.ops[d := WriteConf(conf)])
    case BeginDelete(d) => st.(ops := st.ops[d := DropLink])
    case Advance(d, passes) =>
      var next := Next(st.ops[d], passes);
      State(Effect(st.sites, d, st.ops[d]), if next == [] then st.ops - {d} else st.ops[d := next[0]])
    case Stop(d) => st.(ops := st.ops - {d})
  }

  predicate CanRun(st: State, ls: seq<Label>)
    decreases |ls|
  {
    ls == [] || (Enabled(st, ls[0]) && CanRun(Apply(st, ls[0]), ls[1..]))
  }

  function After(st: State, ls: seq<Label>): State
    requires CanRun(st, ls)
    decreases |ls|
  {
    if ls == [] then st else After(Apply(st, ls[0]), ls[1..])
  }

  // ---------------------------------------------------------------- consistency at every point

  ghost predicate NoDangling(s: Sites) {
    forall d :: d in s.enabled ==> s.enabled[d] in s.available
  }

  /** A link of another name targets the domain's file. */
  ghost predicate Borrowed(s: Sites, d: Domain) {
    exists e :: e in s.enabled && e != d && s.enabled[e] == d
  }

  /** What each running operation relies on. */
  ghost predicate OpsOk(st: State) {
    forall d :: d in st.ops ==>
      match st.ops[d]
      case DropStale | MakeLink | TestConf | RollbackLink => d in st.sites.available
      case RollbackConf | DropConf => d !in st.sites.enabled
      case _ => true
  }

  /** The removal of a file that a link of another name targets: the last step of a delete,
      or of the rollback after a failed config test. */
  ghost predicate Cuts(st: State, l: Label) {
    l.Advance? && l.d in st.ops && (st.ops[l.d] == RollbackConf || st.ops[l.d] == DropConf) && Borrowed(st.sites, l.d)
  }

  lemma StepKeepsOpsOk(st: State, l: Label)
    requires OpsOk(st) && Enabled(st, l)
    ensures OpsOk(Apply(st, l))
  {
  }

  /** Of all steps, exactly these make a link dangle. */
  lemma StepDanglesIff(st: State, l: Label)
    requires NoDangling(st.sites) && OpsOk(st) && Enabled(st, l)
    ensures NoDangling(Apply(st, l).sites) <==> !Cuts(st, l)
  {
    if l.Advance? && (st.ops[l.d] == RollbackConf || st.ops[l.d] == DropConf) {
      RemovalDanglesIff(st.sites, l.d);
    }
  }

  lemma RemovalDanglesIff(s: Sites, d: Domain)
    requires NoDangling(s) && d !in s.enabled
    ensures NoDangling(s.(available := s.available - {d})) <==> !Borrowed(s, d)
  {
    var s' := s.(available := s.available - {d});
    assert forall e :: e in s'.enabled <==> e in s.enabled;
    if Borrowed(s, d) {
      var e :| e in s.enabled && e != d && s.enabled[e] == d;
      assert s'.enabled[e] !in s'.available;
    }
  }

  ghost predicate ConsistentThroughout(st: State, ls: seq<Label>)
    requires CanRun(st, ls)
    decreases |ls|
  {
    NoDangling(st.sites) && (ls == [] || ConsistentThroughout(Apply(st, ls[0]), ls[1..]))
  }

  ghost predicate NeverCuts(st: State, ls: seq<Label>)
    requires CanRun(st, ls)
    decreases |ls|
  {
    ls == [] || (!Cuts(st, ls[0]) && NeverCuts(Apply(st, ls[0]), ls[1..]))
  }

  /** From any state without dangling links, over every interleaving of creates and deletes,
      stopped or failing anywhere: each link targets an existing file at every point if and
      only if no file is removed while a link of another name targets it. */
  lemma {:induction false} EveryPointIsConsistentIff(st: State, ls: seq<Label>)
    requires NoDangling(st.sites) && OpsOk(st) && CanRun(st, ls)
    ensures ConsistentThroughout(st, ls) <==> NeverCuts(st, ls)
    decreases |ls|
  {
    if ls != [] {
      StepDanglesIff(st, ls[0]);
      if !Cuts(st, ls[0]) {
        StepKeepsOpsOk(st, ls[0]);
        EveryPointIsConsistentIff(Apply(st, ls[0]), ls[1..]);
      }
    }
  }

  // ---------------------------------------------------------------- which states are safe for ever

  /** Every link targets the file of its own name. */
  ghost predicate OwnLinks(s: Sites) { forall d :: d in s.enabled ==> s.enabled[d] == d }

  lemma StepKeepsOwnLinks(st: State, l: Label)
    requires OwnLinks(st.sites) && Enabled(st, l)
    ensures OwnLinks(Apply(st, l).sites)
  {
  }

  lemma {:induction false} OwnLinksStayConsistent(st: State, ls: seq<Label>)
    requires NoDangling(st.sites) && OwnLinks(st.sites) && OpsOk(st) && CanRun(st, ls)
    ensures NoDangling(After(st, ls).sites) && OwnLinks(After(st, ls).sites)
    decreases |ls|
  {
    if ls != [] {
      StepDanglesIff(st, ls[0]);
      StepKeepsOwnLinks(st, ls[0]);
      StepKeepsOpsOk(st, ls[0]);
      OwnLinksStayConsistent(Apply(st, ls[0]), ls[1..]);
    }
  }

  lemma RunsFrom(st: State, l: Label, rest: seq<Label>)
    requires Enabled(st, l) && CanRun(Apply(st, l), rest)
    ensures CanRun(st, [l] + rest) && After(st, [l] + rest) == After(Apply(st, l), rest)
  {
    assert ([l] + rest)[0] == l && ([l] + rest)[1..] == rest;
  }

  /** Deleting the domain a link of another name targets leaves that link dangling. */
  lemma DeleteCuts(st: State, d: Domain)
    requires NoDangling(st.sites) && Borrowed(st.sites, d) && d !in st.ops
    ensures
      var ls := [BeginDelete(d), Advance(d, true), Advance(d, true)];
      CanRun(st, ls) && !NoDangling(After(st, ls).sites)
  {
    var a := Apply(st, BeginDelete(d));
    var b := Apply(a, Advance(d, true));
    var c := Apply(b, Advance(d, true));
    RunsFrom(b, Advance(d, true), []);
    RunsFrom(a, Advance(d, true), [Advance(d, true)] + []);
    RunsFrom(st, BeginDelete(d), [Advance(d, true)] + ([Advance(d, true)] + []));
    assert [BeginDelete(d)] + ([Advance(d, true)] + ([Advance(d, true)] + []))
        == [BeginDelete(d), Advance(d, true), Advance(d, true)];
    assert After(c, []) == c;
    assert Borrowed(b.sites, d) by {
      var e :| e in st.sites.enabled && e != d && st.sites.enabled[e] == d;
      assert e in b.sites.enabled && b.sites.enabled[e] == d;
    }
    RemovalDanglesIff(b.sites, d);
  }

  ghost predicate EndsConsistent(st: State, ls: seq<Label>) { CanRun(st, ls) ==> NoDangling(After(st, ls).sites) }

  /** A state without dangling links stays so over every run if and only if every link in it
      targets the file of its own name, which is how the manager makes them. */
  lemma SafeForEverIff(st: State)
    requires NoDangling(st.sites) && OpsOk(st)
    ensures (forall ls :: EndsConsistent(st, ls)) <==> OwnLinks(st.sites)
  {
    if OwnLinks(st.sites) {
      forall ls ensures EndsConsistent(st, ls) {
        if CanRun(st, ls) {
          OwnLinksStayConsistent(st, ls);
        }
      }
    } else {
      var e :| e in st.sites.enabled && st.sites.enabled[e] != e;
      var d := st.sites.enabled[e];
      var ls := [BeginDelete(d), Advance(d, true), Advance(d, true)];
      if d in st.ops {
        var st' := Apply(st, Stop(d));
        DeleteCuts(st', d);
        assert ([Stop(d)] + ls)[1..] == ls;
        var bad := [Stop(d)] + ls;
        RunsFrom(st, Stop(d), ls);
        assert !EndsConsistent(st, bad);
      } else {
        DeleteCuts(st, d);
        assert !EndsConsistent(st, ls);
      }
    }
  }

  // ---------------------------------------------------------------- one domain among others

  /** The domain's link and file are the same in both. */
  ghost predicate SameSite(s: Sites, s': Sites, d: Domain) {
    && (d in s.available <==> d in s'.available) && (d in s.enabled <==> d in s'.enabled)
    && (d in s.available ==> s'.available[d] == s.available[d]) && (d in s.enabled ==> s'.enabled[d] == s.enabled[d])
  }

  /** Operations on other domains leave a domain's link and file alone. */
  lemma {:induction false} OthersDoNotTouch(st: State, ls: seq<Label>, d: Domain)
    requires CanRun(st, ls) && forall n :: 0 <= n < |ls| ==> ls[n].d != d
    ensures SameSite(st.sites, After(st, ls).sites, d)
    decreases |ls|
  {
    if ls != [] {
      assert forall n :: 0 <= n < |ls[1..]| ==> ls[1..][n] == ls[n + 1];
      OthersDoNotTouch(Apply(st, ls[0]), ls[1..], d);
    }
  }

  /** A rollback that runs to its end leaves the domain with neither link nor file. */
  lemma RollbackEndsAbsent(st: State, d: Domain, passes: bool)
    requires OpsOk(st) && d in st.ops && st.ops[d] == RollbackConf
    ensures
      var sites := Apply(st, Advance(d, passes)).sites;
      d !in sites.available && d !in sites.enabled
    ensures d !in Apply(st, Advance(d, passes)).ops
  {
  }

  lemma {:induction false} RunKeepsOpsOk(st: State, ls: seq<Label>)
    requires OpsOk(st) && CanRun(st, ls)
    ensures OpsOk(After(st, ls))
    decreases |ls|
  {
    if ls != [] {
      StepKeepsOpsOk(st, ls[0]);
      RunKeepsOpsOk(Apply(st, ls[0]), ls[1..]);
    }
  }

  /** Over every interleaving: once a failed config test has been rolled back, the domain's
      link and file are what they were before the create if and only if there was neither.
      A site that was already up is lost. */
  lemma RollbackRestoresIff(st: State, d: Domain, conf: string, during: seq<Label>, passes: bool, rest: seq<Label>)
    requires OpsOk(st) && Enabled(st, BeginCreate(d, conf))
    requires CanRun(Apply(st, BeginCreate(d, conf)), during)
    requires
      var mid := After(Apply(st, BeginCreate(d, conf)), during);
      d in mid.ops && mid.ops[d] == RollbackConf && CanRun(Apply(mid, Advance(d, passes)), rest)
    requires forall n :: 0 <= n < |rest| ==> rest[n].d != d
    ensures
      var mid := After(Apply(st, BeginCreate(d, conf)), during);
      var end := After(Apply(mid, Advance(d, passes)), rest);
      SameSite(st.sites, end.sites, d) <==> d !in st.sites.available && d !in st.sites.enabled
  {
    StepKeepsOpsOk(st, BeginCreate(d, conf));
    RunKeepsOpsOk(Apply(st, BeginCreate(d, conf)), during);
    var mid := After(Apply(st, BeginCreate(d, conf)), during);
    RollbackEndsAbsent(mid, d, passes);
    OthersDoNotTouch(Apply(mid, Advance(d, passes)), rest, d);
  }

  // ---------------------------------------------------------------- what an operation ends with

  /** A create of this config is under way: what its steps so far have made. */
  ghost predicate Creating(st: State, d: Domain, conf: string) {
    d in st.ops ==>
      match st.ops[d]
      case WriteConf(c) => c == conf
      case DropStale | MakeLink => d in st.sites.available && st.sites.available[d] == conf
      case TestConf =>
        && d in st.sites.available && st.sites.available[d] == conf
        && d in st.sites.enabled && st.sites.enabled[d] == d
      case _ => true
  }

  lemma {:induction false} RunKeepsCreating(st: State, ls: seq<Label>, d: Domain, conf: string)
    requires Creating(st, d, conf) && CanRun(st, ls)
    requires forall n :: 0 <= n < |ls| && ls[n].d == d ==> ls[n].Advance?
    ensures Creating(After(st, ls), d, conf)
    decreases |ls|
  {
    if ls != [] {
      assert forall n :: 0 <= n < |ls[1..]| ==> ls[1..][n] == ls[n + 1];
      RunKeepsCreating(Apply(st, ls[0]), ls[1..], d, conf);
    }
  }

  /** Over every interleaving: a create that is not stopped, and whose config test passes,
      leaves the domain with this config and a link to it, whatever other domains do. */
  lemma PassedCreateServes(st: State, d: Domain, conf: string, during: seq<Label>, rest: seq<Label>)
    requires Enabled(st, BeginCreate(d, conf)) && CanRun(Apply(st, BeginCreate(d, conf)), during)
    requires forall n :: 0 <= n < |during| && during[n].d == d ==> during[n].Advance?
    requires forall n :: 0 <= n < |rest| ==> rest[n].d != d
    requires
      var mid := After(Apply(st, BeginCreate(d, conf)), during);
      d in mid.ops && mid.ops[d] == TestConf && CanRun(Apply(mid, Advance(d, true)), rest)
    ensures
      var mid := After(Apply(st, BeginCreate(d, conf)), during);
      var end := After(Apply(mid, Advance(d, true)), rest);
      && d !in Apply(mid, Advance(d, true)).ops
      && d in end.sites.available && end.sites.available[d] == conf
      && d in end.sites.enabled && end.sites.enabled[d] == d
  {
    RunKeepsCreating(Apply(st, BeginCreate(d, conf)), during, d, conf);
    var mid := After(Apply(st, BeginCreate(d, conf)), during);
    OthersDoNotTouch(Apply(mid, Advance(d, true)), rest, d);
  }

  /** So many steps of an operation on the domain, every config test with this outcome. */
  function Advances(d: Domain, passes: bool, n: nat): seq<Label> {
    if n == 0 then [] else [Advance(d, passes)] + Advances(d, passes, n - 1)
  }

  lemma AdvanceRuns(st: State, d: Domain, passes: bool, n: nat)
    requires Enabled(st, Advance(d, passes)) && CanRun(Apply(st, Advance(d, passes)), Advances(d, passes, n))
    ensures CanRun(st, Advances(d, passes, n + 1))
    ensures After(st, Advances(d, passes, n + 1))
         == After(Apply(st, Advance(d, passes)), Advances(d, passes, n))
  {
    RunsFrom(st, Advance(d, passes), Advances(d, passes, n));
  }

  /** A create on its own makes both or, when the config test fails, ends with neither. */
  lemma CreateAlone(st: State, d: Domain, conf: string)
    requires d !in st.ops
    ensures
      var ls := [BeginCreate(d, conf)] + Advances(d, true, 4);
      && CanRun(st, ls)
      && After(st, ls) == State(Sites(st.sites.available[d := conf], st.sites.enabled[d := d]), st.ops)
    ensures
      var ls := [BeginCreate(d, conf)] + Advances(d, false, 6);
      && CanRun(st, ls)
      && After(st, ls) == State(Sites(st.sites.available - {d}, st.sites.enabled - {d}), st.ops)
  {
    PassedTest(st, d, conf);
    FailedTest(st, d, conf);
    CreateReachesTest(st, d, conf, true, 1);
    CreateReachesTest(st, d, conf, false, 3);
  }

  function Tested(st: State, d: Domain, conf: string): State {
    State(Sites(st.sites.available[d := conf], st.sites.enabled[d := d]), st.ops[d := TestConf])
  }

  lemma CreateReachesTest(st: State, d: Domain, conf: string, passes: bool, n: nat)
    requires d !in st.ops && CanRun(Tested(st, d, conf), Advances(d, passes, n))
    ensures
      var ls := [BeginCreate(d, conf)] + Advances(d, passes, n + 3);
      CanRun(st, ls) && After(st, ls) == After(Tested(st, d, conf), Advances(d, passes, n))
  {
    hide CanRun, After, Advances;
    var a := Apply(st, BeginCreate(d, conf));
    var b := Apply(a, Advance(d, passes));
    var c := Apply(b, Advance(d, passes));
    assert Apply(c, Advance(d, passes)) == Tested(st, d, conf);
    AdvanceRuns(c, d, passes, n);
    AdvanceRuns(b, d, passes, n + 1);
    AdvanceRuns(a, d, passes, n + 2);
    RunsFrom(st, BeginCreate(d, conf), Advances(d, passes, n + 3));
  }

  lemma PassedTest(st: State, d: Domain, conf: string)
    requires d !in st.ops
    ensures CanRun(Tested(st, d, conf), Advances(d, true, 1))
    ensures After(Tested(st, d, conf), Advances(d, true, 1))
         == State(Sites(st.sites.available[d := conf], st.sites.enabled[d := d]), st.ops)
  {
    AdvanceRuns(Tested(st, d, conf), d, true, 0);
    assert st.ops[d := TestConf] - {d} == st.ops;
  }

  lemma FailedTest(st: State, d: Domain, conf: string)
    requires d !in st.ops
    ensures CanRun(Tested(st, d, conf), Advances(d, false, 3))
    ensures After(Tested(st, d, conf), Advances(d, false, 3))
         == State(Sites(st.sites.available - {d}, st.sites.enabled - {d}), st.ops)
  {
    var t := Tested(st, d, conf);
    var a := Apply(t, Advance(d, false));
    var b := Apply(a, Advance(d, false));
    var c := Apply(b, Advance(d, false));
    AdvanceRuns(b, d, false, 0);
    AdvanceRuns(a, d, false, 1);
    AdvanceRuns(t, d, false, 2);
    assert st.ops[d := TestConf][d := RollbackLink][d := RollbackConf] - {d} == st.ops;
    assert c.sites.available == st.sites.available - {d} && c.sites.enabled == st.sites.enabled - {d};
  }

  /** A create stopped before the file is written, after it, or before the link is made. */
  lemma StoppedCreate(st: State, d: Domain, conf: string, n: nat)
    requires d !in st.ops && n <= 2
    ensures
      var ls := [BeginCreate(d, conf)] + (Advances(d, true, n) + [Stop(d)]);
      && CanRun(st, ls)
      && After(st, ls) == State(if n == 0 then st.sites
                                else Sites(st.sites.available[d := conf],
                                           if n == 1 then st.sites.enabled else st.sites.enabled - {d}), st.ops)
  {
    var s0 := Apply(st, BeginCreate(d, conf));
    var s1 := Apply(s0, Advance(d, true));
    var s2 := Apply(s1, Advance(d, true));
    assert st.ops[d := WriteConf(conf)] - {d} == st.ops && s1.ops - {d} == st.ops && s2.ops - {d} == st.ops;
    StopRuns(s0, d);
    StopRuns(s1, d);
    StopRuns(s2, d);
    if n >= 1 {
      AdvanceThenStops(if n == 1 then s0 else s1, d, 0);
    }
    if n == 2 {
      AdvanceThenStops(s0, d, 1);
    }
    RunsFrom(st, BeginCreate(d, conf), Advances(d, true, n) + [Stop(d)]);
  }

  lemma StopRuns(st: State, d: Domain)
    requires d in st.ops
    ensures CanRun(st, Advances(d, true, 0) + [Stop(d)])
    ensures After(st, Advances(d, true, 0) + [Stop(d)]) == st.(ops := st.ops - {d})
  {
    RunsFrom(st, Stop(d), []);
    assert [Stop(d)] + [] == [Stop(d)] && [] + [Stop(d)] == [Stop(d)];
  }

  lemma AdvanceThenStops(st: State, d: Domain, n: nat)
    requires Enabled(st, Advance(d, true))
    requires CanRun(Apply(st, Advance(d, true)), Advances(d, true, n) + [Stop(d)])
    ensures CanRun(st, Advances(d, true, n + 1) + [Stop(d)])
    ensures After(st, Advances(d, true, n + 1) + [Stop(d)])
         == After(Apply(st, Advance(d, true)), Advances(d, true, n) + [Stop(d)])
  {
    RunsFrom(st, Advance(d, true), Advances(d, true, n) + [Stop(d)]);
    assert [Advance(d, true)] + (Advances(d, true, n) + [Stop(d)]) == Advances(d, true, n + 1) + [Stop(d)];
  }

  /** A delete on its own leaves neither. */
  lemma DeleteAlone(st: State, d: Domain)
    requires d !in st.ops
    ensures
      var ls := [BeginDelete(d)] + Advances(d, true, 2);
      && CanRun(st, ls)
      && After(st, ls) == State(Sites(st.sites.available - {d}, st.sites.enabled - {d}), st.ops)
  {
    var a := Apply(st, BeginDelete(d));
    var b := Apply(a, Advance(d, true));
    AdvanceRuns(b, d, true, 0);
    AdvanceRuns(a, d, true, 1);
    RunsFrom(st, BeginDelete(d), Advances(d, true, 2));
    assert b.ops - {d} == st.ops;
  }

  /** The run in which a site that was up is lost: its config is replaced, the config test
      fails, and the rollback leaves neither file nor link. */
  lemma RollbackLosesSite(d: Domain, live: string, conf: string) returns (st: State, ls: seq<Label>)
    ensures st == State(Sites(map[d := live], map[d := d]), map[])
    ensures ls == [BeginCreate(d, conf)] + Advances(d, false, 6)
    ensures CanRun(st, ls) && After(st, ls) == State(Sites(map[], map[]), map[])
  {
    st, ls := State(Sites(map[d := live], map[d := d]), map[]), [BeginCreate(d, conf)] + Advances(d, false, 6);
    CreateAlone(st, d, conf);
    assert st.sites.available - {d} == map[] && st.sites.enabled - {d} == map[];
  }

  // ---------------------------------------------------------------- the two methods

  /** What writing the config file comes to: all of it, an error that left the file as it
      was, or an error that left some text in it. */
  datatype Write = Written | Unwritten | Partial(text: string)

  /** How far a create got. */
  datatype Outcome = NoDocroot | NotWritten | NotLinked | TestFailed | NotReloaded | Created

  /** The steps a create takes that ends like this. */
  function StepsOf(d: Domain, conf: string, write: Write, r: Outcome): seq<Label> {
    match r
    case NoDocroot => []
    case NotWritten =>
      if write.Partial? then [BeginCreate(d, write.text)] + (Advances(d, true, 1) + [Stop(d)])
      else [BeginCreate(d, conf)] + (Advances(d, true, 0) + [Stop(d)])
    case NotLinked => [BeginCreate(d, conf)] + (Advances(d, true, 2) + [Stop(d)])
    case TestFailed => [BeginCreate(d, conf)] + Advances(d, false, 6)
    case _ => [BeginCreate(d, conf)] + Advances(d, true, 4)
  }

  ghost predicate LeadsFrom(st: State, ls: seq<Label>, s': Sites) {
    CanRun(st, ls) && After(st, ls) == State(s', st.ops)
  }

  /** With nothing running on the domain, these steps lead from the one to the other. */
  ghost predicate Leads(s: Sites, d: Domain, ls: seq<Label>, s': Sites) {
    forall ops: map<Domain, Op> :: d !in ops ==> LeadsFrom(State(s, ops), ls, s')
  }

  function Left(s: Sites, d: Domain, conf: string, write: Write, r: Outcome): Sites {
    match r
    case NoDocroot => s
    case NotWritten => if write.Partial? then s.(available := s.available[d := write.text]) else s
    case NotLinked => Sites(s.available[d := conf], s.enabled - {d})
    case TestFailed => Sites(s.available - {d}, s.enabled - {d})
    case _ => Sites(s.available[d := conf], s.enabled[d := d])
  }

  lemma CreateLeadsFrom(st: State, d: Domain, conf: string, write: Write, r: Outcome)
    requires d !in st.ops
    ensures LeadsFrom(st, StepsOf(d, conf, write, r), Left(st.sites, d, conf, write, r))
  {
    match r
    case NoDocroot =>
    case NotWritten =>
      StoppedCreate(st, d, conf, 0);
      if write.Partial? {
        StoppedCreate(st, d, write.text, 1);
      }
    case NotLinked => StoppedCreate(st, d, conf, 2);
    case _ => CreateAlone(st, d, conf);
  }

  lemma CreateLeads(s: Sites, d: Domain, conf: string, write: Write, r: Outcome)
    ensures Leads(s, d, StepsOf(d, conf, write, r), Left(s, d, conf, write, r))
  {
    forall ops: map<Domain, Op> | d !in ops {
      CreateLeadsFrom(State(s, ops), d, conf, write, r);
    }
  }

  lemma DeleteLeads(s: Sites, d: Domain)
    ensures Leads(s, d, [BeginDelete(d)] + Advances(d, true, 2), Sites(s.available - {d}, s.enabled - {d}))
  {
    forall ops: map<Domain, Op> | d !in ops
      ensures LeadsFrom(State(s, ops), [BeginDelete(d)] + Advances(d, true, 2),
                        Sites(s.available - {d}, s.enabled - {d}))
    {
      DeleteAlone(State(s, ops), d);
    }
  }

  class Nginx {
    var sites: Sites

    constructor ()
      ensures sites == Sites(map[], map[])
    {
      sites := Sites(map[], map[]);
    }

    /** The flags are the outcomes of making the docroot, of the write, of the symlink, of the
        config test and of the reload. */
    method CreateVhost(d: Domain, conf: string, docroot: bool, write: Write, links: bool, passes: bool, reloads: bool)
      returns (r: Outcome)
      modifies this
      ensures r == if !docroot then NoDocroot else if write != Written then NotWritten else if !links then NotLinked
                   else if !passes then TestFailed else if !reloads then NotReloaded else Created
      ensures r == NoDocroot ==> sites == old(sites)
      ensures r == NotWritten ==>
                sites == if write == Unwritten then old(sites)
                         else old(sites).(available := old(sites).available[d := write.text])
      ensures r == NotLinked ==> sites == Sites(old(sites).available[d := conf], old(sites).enabled - {d})
      ensures r in {NotReloaded, Created} ==>
                sites == Sites(old(sites).available[d := conf], old(sites).enabled[d := d])
      ensures r == TestFailed ==> sites == Sites(old(sites).available - {d}, old(sites).enabled - {d})
      ensures old(NoDangling(sites)) ==> (NoDangling(sites) <==> !(r == TestFailed && old(Borrowed(sites, d))))
      ensures old(OwnLinks(sites)) ==> OwnLinks(sites)
      ensures Leads(old(sites), d, StepsOf(d, conf, write, r), sites)
    {
      forall o: Outcome { CreateLeads(sites, d, conf, write, o); }
      if !docroot {
        return NoDocroot;
      }
      if write.Partial? {
        sites := Effect(sites, d, WriteConf(write.text));
      }
      if write != Written {
        return NotWritten;
      }
      sites := Effect(sites, d, WriteConf(conf));
      sites := Effect(sites, d, DropStale);
      if !links {
        return NotLinked;
      }
      sites := Effect(sites, d, MakeLink);
      if !passes {
        sites := Effect(sites, d, RollbackLink);
        UnlinkedDanglesIff(old(sites), sites, d);
        sites := Effect(sites, d, RollbackConf);
        return TestFailed;
      }
      return if reloads then Created else NotReloaded;
    }

    method DeleteVhost(d: Domain, reloads: bool) returns (ok: bool)
      modifies this
      ensures ok == reloads
      ensures sites == Sites(old(sites).available - {d}, old(sites).enabled - {d})
      ensures old(NoDangling(sites)) ==> (NoDangling(sites) <==> !old(Borrowed(sites, d)))
      ensures old(OwnLinks(sites)) ==> OwnLinks(sites)
      ensures Leads(old(sites), d, [BeginDelete(d)] + Advances(d, true, 2), sites)
    {
      DeleteLeads(sites, d);
      sites := Effect(sites, d, DropLink);
      UnlinkedDanglesIff(old(sites), sites, d);
      sites := Effect(sites, d, DropConf);
      ok := reloads;
    }
  }

  /** With the domain's link gone, removing its file makes another link dangle exactly when
      one targeted it before the operation. */
  lemma UnlinkedDanglesIff(before: Sites, s: Sites, d: Domain)
    requires s.enabled == before.enabled - {d} && s.available - {d} == before.available - {d}
    requires d in before.available ==> d in s.available
    ensures NoDangling(before) ==> (NoDangling(s.(available := s.available - {d})) <==> !Borrowed(before, d))
  {
    assert forall e :: e in s.enabled <==> e in before.enabled && e != d;
    assert forall e :: e in before.available && e != d ==> e in before.available - {d};
    if NoDangling(before) {
      assert NoDangling(s);
      RemovalDanglesIff(s, d);
      if Borrowed(before, d) {
        var e :| e in before.enabled && e != d && before.enabled[e] == d;
        assert e in s.enabled && s.enabled[e] == d;
      }
    }
  }
}
