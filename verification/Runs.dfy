/**
  States that runs do reach: a deploy that nobody obstructs goes through, and
  from there the two situations in which the code disagrees with its comments.
 */
module Runs {
  import opened Wrappers
  import opened Paths
  import opened Trees
  import opened Plan
  import opened Desired
  import opened History
  import opened ConfigTree
  import opened Planner
  import opened Protocol

  ghost predicate Reachable(c: Cluster) {
    exists r, steps :: IsRun(r, steps) && r[|steps|] == c
  }

  lemma InitReachable(c: Cluster)
    requires Init(c)
    ensures Reachable(c)
  {
    hide Init;
    assert IsRun([c], []);
  }

  lemma StepReachable(c: Cluster, step: Step, c': Cluster)
    requires Reachable(c) && Graph(c) && NextBy(c, step, c')
    ensures Reachable(c')
  {
    hide Init, NextBy, Graph;
    var r, steps :| IsRun(r, steps) && r[|steps|] == c;
    var r', steps' := r + [c'], steps + [step];
    forall i | 0 <= i < |steps'| ensures Graph(r'[i]) && NextBy(r'[i], steps'[i], r'[i + 1]) {
      if i < |steps| {
        assert r'[i] == r[i] && r'[i + 1] == r[i + 1] && steps'[i] == steps[i];
      }
    }
    assert IsRun(r', steps');
    assert r'[|steps'|] == c';
  }

  lemma ReachableInv(c: Cluster)
    requires Reachable(c)
    ensures Inv(c) && Graph(c)
  {
    hide Init, NextBy, Inv;
    var r, steps :| IsRun(r, steps) && r[|steps|] == c;
    RunKeepsInv(r, steps, |steps|);
    InvGraph(c);
  }

  // ----- One session in a cluster -----

  /** The cluster with one session, its host and its driver as in `l`. */
  function With(c: Cluster, sid: SessionId, l: Local): Cluster {
    c.(sessions := c.sessions[sid := l.session], hosts := c.hosts[l.session.host := l.host],
       drivers := c.drivers[l.session.driver := l.driver])
  }

  /** A step of the session, from any cluster that has it. */
  lemma Advance(c: Cluster, sid: SessionId, step: Step, a: Local, b: Local)
    requires Reachable(With(c, sid, a)) && IsSessionStep(step) && step.sid == sid
    requires a.session.host == b.session.host && a.session.driver == b.session.driver
    requires c.dag.Acyclic() && LocalStep(c.dag, c.trees, Taken(With(c, sid, a), a.session.host), step, a, b)
    ensures Reachable(With(c, sid, b))
  {
    hide LocalStep, Taken, Reachable, Dag.Acyclic, NextBy, Inv;
    var x := With(c, sid, a);
    ReachableInv(x);
    assert LocalAt(x, sid) == a;
    assert Updated(x, sid, b) == With(c, sid, b);
    NextBySession(x, sid, step, b);
    StepReachable(x, step, With(c, sid, b));
  }

  lemma NextBySession(c: Cluster, sid: SessionId, step: Step, b: Local)
    requires Graph(c) && SessionAt(c, sid) && IsSessionStep(step) && step.sid == sid
    requires LocalStep(c.dag, c.trees, Taken(c, c.sessions[sid].host), step, LocalAt(c, sid), b)
    ensures NextBy(c, step, Updated(c, sid, b))
  {
    hide LocalStep, Taken, Dag.Acyclic;
  }

  // ----- A deploy -----

  /**
    The driver holds a plan for the host that expects its commit; nobody holds
    the lock, and the change can be read.
   */
  ghost predicate CanDeploy(c: Cluster, driver: DriverId, h: Name, plan: PlanRecord) {
    && driver in c.drivers && h in c.hosts && plan in c.drivers[driver].plans && h in plan.expected
    && c.hosts[h].current == plan.expected[h] && (forall o :: !LockedOn(c, o, h))
    && ReadableChange(AppsAt(c.trees, h, c.hosts[h].current), AppsAt(c.trees, h, Some(plan.commit)))
  }

  /** What the plan of a driver and the state of its host say. */
  lemma DeployFacts(c: Cluster, driver: DriverId, h: Name, plan: PlanRecord)
    requires Inv(c) && CanDeploy(c, driver, h, plan)
    ensures plan.commit in c.dag.parents && h in plan.safe
    ensures plan.expected[h].Some? ==> plan.expected[h].value in c.dag.parents
    ensures LockResult(c.trees, h, c.hosts[h], false, plan.expected[h]) == Granted
  {
    assert DriverInv(c.dag, c.trees, c.hosts, c.drivers[driver]);
    assert PlanInv(c.dag, c.trees, c.hosts, c.drivers[driver].store, plan);
    assert HostInv(c.dag, c.trees, h, c.hosts[h]);
    hide Inv, ReadableChange, AppsAt, SafeHostChange, Dag.Reaches;
    if c.hosts[h].current.Some? {
      assert HasEntry(c.trees, c.hosts[h].current.value, h);
    }
  }

  function Opened(c: Cluster, driver: DriverId, h: Name, command: Command, expected: Option<Oid>): Session
    requires h in c.hosts
  {
    Session(driver, h, command, expected, c.hosts[h].current, c.hosts[h].target, Connected)
  }

  lemma Connect(c: Cluster, sid: SessionId, driver: DriverId, h: Name, command: Command, expected: Option<Oid>)
    requires Reachable(c) && sid !in c.sessions && driver in c.drivers && h in c.hosts
    requires command.Deploy? ==>
               && command.plan in c.drivers[driver].plans && h in command.plan.expected
               && expected == command.plan.expected[h]
    requires !command.Deploy? ==> expected == RepoOf(c, c.drivers[driver]).ExpectedCurrent(h)
    requires command.Reapply? ==> expected.Some?
    ensures Reachable(With(c, sid, Local(Opened(c, driver, h, command, expected), c.hosts[h], c.drivers[driver])))
  {
    hide Reachable, Repo.ExpectedCurrent;
    var c' := With(c, sid, Local(Opened(c, driver, h, command, expected), c.hosts[h], c.drivers[driver]));
    ReachableInv(c);
    hide Inv, Graph;
    assert c'.hosts == c.hosts && c'.drivers == c.drivers;
    assert ConnectStep(c, sid, driver, h, command, c');
    StepReachable(c, Connects(sid, driver, h, command), c');
  }

  /** The host once the driver's packfile is in its store. */
  ghost function HostWithPack(c: Cluster, h: Name, plan: PlanRecord): Host
    requires c.dag.Acyclic() && h in c.hosts && h in plan.expected && plan.commit in c.dag.parents
    requires plan.expected[h].Some? ==> plan.expected[h].value in c.dag.parents
  {
    c.hosts[h].(store := c.hosts[h].store + PackOf(c.dag, plan.commit, plan.expected[h]))
  }

  lemma NotTaken(c: Cluster, sid: SessionId, l: Local)
    requires sid !in c.sessions && !l.session.HoldsLock() && forall o :: !LockedOn(c, o, l.session.host)
    ensures !Taken(With(c, sid, l), l.session.host)
  {
    hide Session.HoldsLock;
    forall o ensures !LockedOn(With(c, sid, l), o, l.session.host) {
      assert !LockedOn(c, o, l.session.host);
    }
  }

  /** Connect, lock, and receive the packfile. */
  lemma ConnectToReceived(c: Cluster, sid: SessionId, driver: DriverId, h: Name, plan: PlanRecord)
    requires Reachable(c) && sid !in c.sessions && CanDeploy(c, driver, h, plan)
    ensures c.dag.Acyclic() && plan.commit in c.dag.parents && h in plan.safe
    ensures plan.expected[h].Some? ==> plan.expected[h].value in c.dag.parents
    ensures var s := Opened(c, driver, h, Deploy(plan), plan.expected[h]);
            Reachable(With(c, sid, Local(s.(phase := Received), HostWithPack(c, h, plan), c.drivers[driver])))
  {
    hide Reachable, ReadableChange, LockResult, PackOf, Inv;
    ReachableInv(c);
    DeployFacts(c, driver, h, plan);
    var s := Opened(c, driver, h, Deploy(plan), plan.expected[h]);
    var a := Local(s, c.hosts[h], c.drivers[driver]);
    var b := a.(session := s.(phase := Locked));
    Connect(c, sid, driver, h, Deploy(plan), plan.expected[h]);
    NotTaken(c, sid, a);
    hide Taken, Dag.Acyclic;
    assert LockStep(c.trees, false, a, b);
    Advance(c, sid, Locks(sid), a, b);
    Advance(c, sid, ReceivesPack(sid), b, Local(s.(phase := Received), HostWithPack(c, h, plan), c.drivers[driver]));
  }

  /** The checks pass, and the target ref moves. */
  lemma ReceivedToPrepared(c: Cluster, sid: SessionId, driver: DriverId, h: Name, plan: PlanRecord, s: Session,
                           host: Host)
    requires s.driver == driver && s.host == h && s.command == Deploy(plan) && s.phase.Received? && h in plan.safe
    requires driver in c.drivers && h in c.hosts && Reachable(With(c, sid, Local(s, host, c.drivers[driver])))
    requires ReadableChange(AppsAt(c.trees, h, host.current), AppsAt(c.trees, h, Some(plan.commit)))
    ensures Reachable(With(c, sid, Local(s.(phase := Prepared), host.(target := Some(plan.commit)), c.drivers[driver])))
  {
    hide Reachable, ReadableChange, PrepareDeploy, Inv, Taken, LocalInv, Dag.Acyclic;
    var a := Local(s, host, c.drivers[driver]);
    var b := Local(s.(phase := Prepared), host.(target := Some(plan.commit)), c.drivers[driver]);
    var x := With(c, sid, a);
    ReachableInv(x);
    SessionLocal(x, sid);
    assert LocalAt(x, sid) == a;
    PrepareDeployAnswer(x, a);
    PrepareAccepts(x, a);
    assert PrepareDeployStep(c.dag, c.trees, a, b);
    Advance(c, sid, Prepares(sid), a, b);
  }

  lemma PrepareAccepts(c: Cluster, a: Local)
    requires Graph(c) && LocalInv(c, a) && a.session.phase.Received? && a.session.command.Deploy?
    requires a.session.host in a.session.command.plan.safe
    requires ReadableChange(AppsAt(c.trees, a.session.host, a.host.current),
                            AppsAt(c.trees, a.session.host, Some(a.session.command.plan.commit)))
    ensures !PrepareDeploy(c.dag, c.trees, a.session.host, a.host, a.session.command.plan.commit,
                           a.session.command.plan.safe[a.session.host]).Refused?
  {
    hide ReadableChange, SafeHostChange, AppsAt, Dag.Reaches, DriverInv;
  }

  /** Activation succeeds, the agent exits, and the driver tracks the commit. */
  lemma PreparedToTracked(c: Cluster, sid: SessionId, s: Session, host: Host, d: Driver)
    requires s.phase.Prepared? && s.command.Deploy? && c.dag.Acyclic() && Reachable(With(c, sid, Local(s, host, d)))
    ensures var commit := s.command.plan.commit;
            Reachable(With(c, sid, Local(
              s.(phase := Ended),
              host.(current := Some(commit), line := host.line + {commit}, past := host.past + {commit},
                    deployedName := Some(s.host)),
              d.(tracking := d.tracking[s.host := commit]))))
  {
    hide Reachable, Taken, Dag.Acyclic;
    var commit := s.command.plan.commit;
    var moved := host.(current := Some(commit), line := host.line + {commit}, past := host.past + {commit});
    var recorded := moved.(deployedName := Some(s.host));
    Advance(c, sid, MovesCurrent(sid), Local(s, host, d), Local(s.(phase := Moved), moved, d));
    Advance(c, sid, RecordsHostname(sid), Local(s.(phase := Moved), moved, d),
            Local(s.(phase := Recorded), recorded, d));
    Advance(c, sid, Completes(sid), Local(s.(phase := Recorded), recorded, d),
            Local(s.(phase := Completed), recorded, d));
    Advance(c, sid, Releases(sid), Local(s.(phase := Completed), recorded, d),
            Local(s.(phase := Released), recorded, d));
    Advance(c, sid, Tracks(sid), Local(s.(phase := Released), recorded, d),
            Local(s.(phase := Ended), recorded, d.(tracking := d.tracking[s.host := commit])));
  }

  lemma Leave(c: Cluster, sid: SessionId)
    requires Reachable(c) && sid in c.sessions
    ensures Reachable(c.(sessions := c.sessions - {sid}))
  {
    hide Reachable;
    ReachableInv(c);
    hide Inv, Graph;
    StepReachable(c, Disconnects(sid), c.(sessions := c.sessions - {sid}));
  }

  /** The cluster after an unobstructed deploy. */
  ghost function Deployed(c: Cluster, driver: DriverId, h: Name, plan: PlanRecord): Cluster
    requires c.dag.Acyclic() && CanDeploy(c, driver, h, plan) && plan.commit in c.dag.parents
    requires plan.expected[h].Some? ==> plan.expected[h].value in c.dag.parents
  {
    var d, host, commit := c.drivers[driver], HostWithPack(c, h, plan), plan.commit;
    c.(hosts := c.hosts[h := host.(current := Some(commit), target := Some(commit), deployedName := Some(h),
                                   line := host.line + {commit}, past := host.past + {commit})],
       drivers := c.drivers[driver := d.(tracking := d.tracking[h := commit])])
  }

  /**
    A plan whose host is at the expected commit and not locked can be deployed:
    no check or assertion is in the way.
   */
  lemma {:induction false} DeployGoesThrough(c: Cluster, driver: DriverId, h: Name, plan: PlanRecord, sid: SessionId)
    requires Reachable(c) && sid !in c.sessions && CanDeploy(c, driver, h, plan)
    ensures c.dag.Acyclic() && plan.commit in c.dag.parents
    ensures plan.expected[h].Some? ==> plan.expected[h].value in c.dag.parents
    ensures Reachable(Deployed(c, driver, h, plan))
  {
    hide Reachable, ReadableChange, PackOf, Dag.Acyclic, LockedOn;
    ConnectToReceived(c, sid, driver, h, plan);
    var s := Opened(c, driver, h, Deploy(plan), plan.expected[h]).(phase := Received);
    var host := HostWithPack(c, h, plan);
    ReceivedToPrepared(c, sid, driver, h, plan, s, host);
    var prepared := host.(target := Some(plan.commit));
    PreparedToTracked(c, sid, s.(phase := Prepared), prepared, c.drivers[driver]);
    var d := c.drivers[driver];
    var last := With(c, sid, Local(
      s.(phase := Ended),
      prepared.(current := Some(plan.commit), line := host.line + {plan.commit}, past := host.past + {plan.commit},
                deployedName := Some(h)),
      d.(tracking := d.tracking[h := plan.commit])));
    Leave(last, sid);
    assert last.(sessions := last.sessions - {sid}) == Deployed(c, driver, h, plan);
  }

  // ----- Planning for one host -----

  const HOST: Name := "web1"

  function OneHost(tree: Tree): Tree {
    Dir(map[HOST := tree])
  }

  function ParentsOf(expected: Option<Oid>): seq<Oid> {
    if expected.Some? then [expected.value] else []
  }

  function Draft(tree: Tree, hp: HostPlan): DraftPlan {
    DraftPlan(map[HOST := hp], OneHost(tree), ParentsOf(hp.expectedCurrent))
  }

  function WithCommit(g: Dag, commit: Oid, parents: seq<Oid>): Dag
    requires forall p :: p in parents ==> p in g.rank
  {
    Dag(g.parents[commit := Elements(parents)], g.rank[commit := if parents == [] then 0 else g.rank[parents[0]] + 1])
  }

  lemma WithCommitAcyclic(g: Dag, commit: Oid, expected: Option<Oid>)
    requires g.Acyclic() && commit !in g.parents && (expected.Some? ==> expected.value in g.parents)
    ensures WithCommit(g, commit, ParentsOf(expected)).Acyclic()
  {
  }

  /** The driver's cluster after planning `tree` for the host as a new commit. */
  function Planned(c: Cluster, driver: DriverId, tree: Tree, hp: HostPlan, commit: Oid): Cluster
    requires driver in c.drivers && forall p :: p in ParentsOf(hp.expectedCurrent) ==> p in c.dag.rank
  {
    var d := c.drivers[driver];
    c.(dag := WithCommit(c.dag, commit, ParentsOf(hp.expectedCurrent)), trees := c.trees[commit := OneHost(tree)],
       drivers := c.drivers[driver := d.(store := d.store + {commit},
                                         plans := d.plans + {FinalizedPlan(Draft(tree, hp), commit)})])
  }

  lemma DraftIsPlan(repo: Repo, tree: Tree, hp: HostPlan)
    requires repo.Valid() && tree.Dir? && NeedsDeploy(repo, HOST, tree) && IsHostPlan(repo, HOST, tree, hp)
    ensures IsPlan(repo, OneHost(tree), All, Draft(tree, hp))
    ensures hp.expectedCurrent.Some? ==> hp.expectedCurrent.value in repo.dag.parents
  {
    hide IsAppPlans, Dag.Reaches;
    var expected := repo.ExpectedCurrent(HOST);
    assert Selected(OneHost(tree), All) == map[HOST := tree];
    assert Draft(tree, hp).hosts.Keys == {HOST};
    if expected.Some? {
      assert ExpectedCommits(repo, {HOST}) == {expected.value};
      assert Maximal(repo.dag, {expected.value}) == {expected.value};
    } else {
      assert ExpectedCommits(repo, {HOST}) == {};
    }
  }

  lemma PlanReachable(c: Cluster, driver: DriverId, tree: Tree, hp: HostPlan, commit: Oid)
    requires Reachable(c) && driver in c.drivers && HOST in c.hosts && commit !in c.dag.parents
    requires tree.Dir? && ValidHost(TreeEntries(tree)) && IsBuilt(OneHost(tree))
    requires Graph(c) && NeedsDeploy(RepoOf(c, c.drivers[driver]), HOST, tree)
    requires IsHostPlan(RepoOf(c, c.drivers[driver]), HOST, tree, hp)
    ensures forall p :: p in ParentsOf(hp.expectedCurrent) ==> p in c.dag.rank
    ensures Reachable(Planned(c, driver, tree, hp, commit))
  {
    hide Reachable, IsHostPlan, NeedsDeploy, ValidHost, IsPlan, IsBuilt, Dag.Reaches, Repo.ExpectedCurrent;
    DraftIsPlan(RepoOf(c, c.drivers[driver]), tree, hp);
    WithCommitAcyclic(c.dag, commit, hp.expectedCurrent);
    assert ValidConfig(OneHost(tree)) by { assert GetHostApps(OneHost(tree), HOST) == TreeEntries(tree); }
    var c' := Planned(c, driver, tree, hp, commit);
    hide Dag.Acyclic, ValidConfig;
    assert PlanStep(c, driver, OneHost(tree), All, Draft(tree, hp), commit, c');
    StepReachable(c, Plans(driver, OneHost(tree), All, Draft(tree, hp), commit), c');
  }

  // ----- Two host trees -----

  /** A host without apps, and one with a single app of one file. */
  const BARE: Tree := Dir(map[])

  const APP: Tree := Dir(map["conf" := Blob(Content("", None))])

  const ONE_APP: Tree := Dir(map["nginx" := APP])

  const APP_SYSTEM: SystemDiff<string> :=
    SystemDiff(NO_CHANGES, NO_CHANGES, SymlinkChanges([], [], []), NO_CHANGES, NO_CHANGES, UnitActions([], [], []))

  lemma AppParts()
    ensures Readable(APP) && Readable(EMPTY_TREE) && Links(APP) == Links(EMPTY_TREE) == map[]
    ensures Enabled(APP) == Enabled(EMPTY_TREE) == {}
    ensures forall s :: s in SUBDIRS ==>
              Files(APP, s) == Files(EMPTY_TREE, s) == {} && SubtreeOid(APP, s) == SubtreeOid(EMPTY_TREE, s)
  {
  }

  lemma TreesValid()
    ensures TreeEntries(BARE) == map[] && TreeEntries(ONE_APP) == map["nginx" := APP]
    ensures ValidHost(TreeEntries(BARE)) && ValidHost(TreeEntries(ONE_APP))
    ensures IsBuilt(OneHost(BARE)) && IsBuilt(OneHost(ONE_APP))
  {
    AppParts();
    TreesBuilt();
    hide Readable, Links, Files, IsBuilt;
  }

  /** The config directories that they are built from. */
  lemma TreesBuilt()
    ensures IsBuilt(OneHost(BARE)) && IsBuilt(OneHost(ONE_APP))
  {
    var bare := Folder(map[]);
    var app := Folder(map["conf" := File(Content("", None))]);
    var one := Folder(map["nginx" := app]);
    assert Built(bare, 1) == BARE;
    assert Built(app, 2) == APP;
    assert APP != EMPTY_TREE by { assert "conf" in APP.entries; }
    assert Built(one, 1) == ONE_APP;
    assert Built(Folder(map[HOST := bare]), 0) == OneHost(BARE);
    assert Built(Folder(map[HOST := one]), 0) == OneHost(ONE_APP);
  }

  lemma AppSystem()
    ensures IsSystemDiff(APP_SYSTEM, EMPTY_TREE, APP) && APP_SYSTEM.IsRollbackSafe()
  {
    AppParts();
    hide Readable, Links, Files, Enabled, SubtreeOid;
    assert Created(map[], map[]) == {} && Changed(map[], map[]) == {} && Removed(map[], map[]) == {};
  }

  /** Plans from no apps, to either tree. */
  lemma FromBare(repo: Repo, tree: Tree) returns (hp: HostPlan)
    requires TrackedApps(repo, HOST) == map[] && (tree == BARE || tree == ONE_APP)
    ensures IsHostPlan(repo, HOST, tree, hp) && ReadableChange(map[], TreeEntries(tree))
  {
    TreesValid();
    AppParts();
    AppSystem();
    hide IsSystemDiff, Readable, SystemDiff.IsRollbackSafe, TrackedApps, TreeEntries, ValidHost;
    var apps := if tree == BARE then map[] else map["nginx" := AppPlan(Add(APP), APP_SYSTEM)];
    hp := HostPlan(apps, repo.ExpectedCurrent(HOST), true);
  }

  // ----- A first deploy -----

  const START: Cluster :=
    Cluster(Dag(map[], map[]), map[], map[HOST := FRESH_HOST], map[0 := FRESH_DRIVER, 1 := FRESH_DRIVER], map[])

  /** A host at commit 1, which has no apps, as driver 0 tracks it. */
  ghost predicate AtFirst(c: Cluster) {
    && Graph(c) && c.sessions == map[] && c.hosts.Keys == {HOST} && c.drivers.Keys == {0, 1}
    && c.dag.parents.Keys == {1} && c.trees == map[1 := OneHost(BARE)]
    && c.hosts[HOST].current == Some(1) && c.hosts[HOST].target == Some(1)
    && c.drivers[0].tracking == map[HOST := 1] && c.drivers[0].store == {1}
    && c.drivers[1] == FRESH_DRIVER
  }

  /** Driver 0 has planned a first commit without apps. */
  ghost predicate FirstPlanned(c: Cluster, plan: PlanRecord) {
    && Graph(c) && CanDeploy(c, 0, HOST, plan) && plan.commit == 1 && plan.expected == map[HOST := None]
    && c.sessions == map[] && c.hosts == map[HOST := FRESH_HOST] && c.drivers.Keys == {0, 1}
    && c.dag.parents.Keys == {1} && c.trees == map[1 := OneHost(BARE)]
    && c.drivers[0].tracking == map[] && c.drivers[0].store == {1} && c.drivers[1] == FRESH_DRIVER
  }

  lemma FirstPlan() returns (c: Cluster, plan: PlanRecord)
    ensures Reachable(c) && FirstPlanned(c, plan)
  {
    hide Reachable, IsHostPlan, ReadableChange, ValidHost, FirstPlanned;
    InitReachable(START);
    assert Graph(START);
    var repo := RepoOf(START, FRESH_DRIVER);
    TreesValid();
    var hp := FromBare(repo, BARE);
    assert hp.expectedCurrent == None by { Expects(repo, BARE, hp); }
    PlanReachable(START, 0, BARE, hp, 1);
    c, plan := Planned(START, 0, BARE, hp, 1), FinalizedPlan(Draft(BARE, hp), 1);
    ReachableInv(c);
    FirstFacts(hp);
  }

  lemma FirstFacts(hp: HostPlan)
    requires hp.expectedCurrent == None && Graph(Planned(START, 0, BARE, hp, 1))
    ensures FirstPlanned(Planned(START, 0, BARE, hp, 1), FinalizedPlan(Draft(BARE, hp), 1))
  {
    hide Dag.Acyclic;
    var c, plan := Planned(START, 0, BARE, hp, 1), FinalizedPlan(Draft(BARE, hp), 1);
    assert AppsAt(c.trees, HOST, Some(1)) == TreeEntries(BARE);
    assert plan.expected == map[HOST := None] && c.drivers[0].store == {1};
  }

  lemma FirstDeploy() returns (c: Cluster)
    ensures Reachable(c) && AtFirst(c)
  {
    var planned, plan := FirstPlan();
    hide Reachable, PackOf, CanDeploy, Dag.Acyclic;
    DeployGoesThrough(planned, 0, HOST, plan, 0);
    c := Deployed(planned, 0, HOST, plan);
  }

  lemma Expects(repo: Repo, tree: Tree, hp: HostPlan)
    requires IsHostPlan(repo, HOST, tree, hp)
    ensures hp.expectedCurrent == repo.ExpectedCurrent(HOST)
  {
  }

  // ----- A reapply that trips the agent's assertion -----

  /** A second commit planned by driver 0, with an app. */
  lemma SecondPlan(c: Cluster, driver: DriverId) returns (hp: HostPlan)
    requires Reachable(c) && Graph(c) && HOST in c.hosts && driver in c.drivers && 2 !in c.dag.parents
    requires var repo := RepoOf(c, c.drivers[driver]);
             TrackedApps(repo, HOST) == map[] && NeedsDeploy(repo, HOST, ONE_APP)
    ensures hp.expectedCurrent == RepoOf(c, c.drivers[driver]).ExpectedCurrent(HOST)
    ensures forall p :: p in ParentsOf(hp.expectedCurrent) ==> p in c.dag.rank
    ensures Reachable(Planned(c, driver, ONE_APP, hp, 2)) && ReadableChange(map[], TreeEntries(ONE_APP))
  {
    hide Reachable, IsHostPlan, ReadableChange, TrackedApps, NeedsDeploy, Repo.ExpectedCurrent, Dag.Acyclic;
    TreesValid();
    hp := FromBare(RepoOf(c, c.drivers[driver]), ONE_APP);
    Expects(RepoOf(c, c.drivers[driver]), ONE_APP, hp);
    PlanReachable(c, driver, ONE_APP, hp, 2);
  }

  /** A deploy of commit 2 has received its packfile, on a host at commit 1. */
  ghost predicate SecondReceived(c: Cluster, plan: PlanRecord) {
    && Graph(c) && c.sessions.Keys == {0} && HOST in c.hosts && 0 in c.drivers
    && c.hosts[HOST].current == Some(1) && c.hosts[HOST].target == Some(1) && HOST in plan.safe && plan.commit == 2
    && AppsAt(c.trees, HOST, Some(1)) == map[] && AppsAt(c.trees, HOST, Some(2)) == TreeEntries(ONE_APP)
    && RepoOf(c, c.drivers[0]).ExpectedCurrent(HOST) == Some(1)
    && var s := c.sessions[0]; s.host == HOST && s.driver == 0 && s.command == Deploy(plan) && s.phase.Received?
  }

  lemma ReceiveSecond() returns (c: Cluster, plan: PlanRecord)
    ensures Reachable(c) && SecondReceived(c, plan) && ReadableChange(map[], TreeEntries(ONE_APP))
  {
    hide Reachable, ReadableChange, PackOf, Dag.Acyclic, AppsAt, TreeEntries, TrackedApps, NeedsDeploy;
    hide Repo.ExpectedCurrent;
    var first := FirstDeploy();
    TracksBare(first);
    var hp := SecondPlan(first, 0);
    var c1 := Planned(first, 0, ONE_APP, hp, 2);
    plan := FinalizedPlan(Draft(ONE_APP, hp), 2);
    SecondApps(first.trees, c1.trees);
    assert CanDeploy(c1, 0, HOST, plan);
    ConnectToReceived(c1, 0, 0, HOST, plan);
    var s := Opened(c1, 0, HOST, Deploy(plan), plan.expected[HOST]).(phase := Received);
    c := With(c1, 0, Local(s, HostWithPack(c1, HOST, plan), c1.drivers[0]));
    StillTracked(first.trees, c, c1.drivers[0]);
    ReachableInv(c);
  }

  /** Then a reapply, whose greeting shows equal refs, connects; and the deploy sets its target. */
  lemma RaceReachable() returns (c: Cluster)
    ensures Reachable(c) && 0 in c.sessions && 1 in c.sessions && Graph(c)
    ensures ReapplyRaces(c, 1, 0)
  {
    hide Reachable, ReadableChange, Dag.Acyclic, AppsAt, TreeEntries, Repo.ExpectedCurrent, Inv;
    var c1, plan := ReceiveSecond();
    var s, host, d := c1.sessions[0], c1.hosts[HOST], c1.drivers[0];
    Connect(c1, 1, 0, HOST, Reapply, Some(1));
    var c2 := With(c1, 1, Local(Opened(c1, 0, HOST, Reapply, Some(1)), host, d));
    assert With(c2, 0, Local(s, host, d)) == c2;
    ReceivedToPrepared(c2, 0, 0, HOST, plan, s, host);
    c := With(c2, 0, Local(s.(phase := Prepared), host.(target := Some(2)), d));
    ReachableInv(c);
    EmptyReadable();
  }

  ghost predicate TrackedBare(c: Cluster)
    requires 0 in c.drivers
  {
    var repo := RepoOf(c, c.drivers[0]);
    TrackedApps(repo, HOST) == map[] && NeedsDeploy(repo, HOST, ONE_APP) && repo.ExpectedCurrent(HOST) == Some(1)
  }

  lemma TracksBare(c: Cluster)
    requires AtFirst(c)
    ensures TrackedBare(c)
  {
    assert BARE != ONE_APP by { assert "nginx" !in BARE.entries; }
  }

  lemma SecondApps(before: map<Oid, Tree>, trees: map<Oid, Tree>)
    requires before == map[1 := OneHost(BARE)] && trees == before[2 := OneHost(ONE_APP)]
    ensures AppsAt(trees, HOST, Some(2)) == TreeEntries(ONE_APP) && AppsAt(trees, HOST, Some(1)) == map[]
  {
  }

  lemma StillTracked(before: map<Oid, Tree>, c: Cluster, d: Driver)
    requires before == map[1 := OneHost(BARE)] && c.trees == before[2 := OneHost(ONE_APP)]
    requires d.tracking == map[HOST := 1]
    ensures RepoOf(c, d).ExpectedCurrent(HOST) == Some(1)
  {
  }

  lemma EmptyReadable()
    ensures ReadableChange(map[], map[])
  {
  }

  /** From empty stores there is a run in which the agent's assertion on a reapply's target ref fires. */
  lemma {:induction false} ReapplyAssertionFires() returns (c: Cluster, sid: SessionId)
    ensures Reachable(c) && sid in c.sessions && c.sessions[sid].phase == Panicked(ReapplyTarget)
  {
    hide Reachable, Graph, NextBy, ReapplyRaces, Inv;
    var race := RaceReachable();
    ReachableInv(race);
    var states, steps := ReapplyAssertionCanFire(race, 1, 0);
    StepReachable(states[0], steps[0], states[1]);
    StepReachable(states[1], steps[1], states[2]);
    StepReachable(states[2], steps[2], states[3]);
    StepReachable(states[3], steps[3], states[4]);
    c, sid := states[4], 1;
  }

  // ----- A fetch that is refused -----

  lemma Wipe(c: Cluster, h: Name)
    requires Reachable(c) && h in c.hosts && c.sessions == map[]
    ensures Reachable(c.(hosts := c.hosts[h := Host({}, None, None, None, {}, c.hosts[h].past)]))
  {
    hide Reachable;
    ReachableInv(c);
    hide Inv, Graph;
    StepReachable(c, Wipes(h), c.(hosts := c.hosts[h := Host({}, None, None, None, {}, c.hosts[h].past)]));
  }

  /** Driver 0 deployed commit 1; the host was wiped, and driver 1 deployed commit 2 to it. */
  ghost predicate Redeployed(c: Cluster) {
    && Graph(c) && c.sessions == map[] && HOST in c.hosts && 0 in c.drivers && 2 in c.dag.parents
    && c.drivers[0].store == {1} && c.drivers[0].tracking == map[HOST := 1]
    && c.hosts[HOST].current == Some(2) && 1 !in c.hosts[HOST].store
    && RepoOf(c, c.drivers[0]).ExpectedCurrent(HOST) == Some(1)
  }

  lemma PlanAfterWipe() returns (c: Cluster, hp: HostPlan)
    ensures Reachable(c) && Graph(c) && HOST in c.hosts
    ensures AtFirst(c.(hosts := c.hosts[HOST := c.hosts[HOST].(current := Some(1), target := Some(1))]))
    ensures c.hosts[HOST].current == None && c.hosts[HOST].store == {}
    ensures hp.expectedCurrent == None && Reachable(Planned(c, 1, ONE_APP, hp, 2))
    ensures ReadableChange(map[], TreeEntries(ONE_APP))
  {
    hide Reachable, ReadableChange;
    var first := FirstDeploy();
    Wipe(first, HOST);
    c := first.(hosts := first.hosts[HOST := Host({}, None, None, None, {}, first.hosts[HOST].past)]);
    var repo := RepoOf(c, FRESH_DRIVER);
    assert TrackedApps(repo, HOST) == map[] && NeedsDeploy(repo, HOST, ONE_APP) && repo.ExpectedCurrent(HOST) == None;
    hide TrackedApps, NeedsDeploy, Repo.ExpectedCurrent, Dag.Acyclic;
    hp := SecondPlan(c, 1);
  }

  lemma RedeployAfterWipe() returns (c: Cluster)
    ensures Reachable(c) && Redeployed(c)
  {
    hide Reachable, ReadableChange, PackOf, AppsAt, TreeEntries, Dag.Acyclic, Repo.ExpectedCurrent;
    var wiped, hp := PlanAfterWipe();
    var c1 := Planned(wiped, 1, ONE_APP, hp, 2);
    ReachableInv(c1);
    var plan := FinalizedPlan(Draft(ONE_APP, hp), 2);
    SecondApps(wiped.trees, c1.trees);
    NoApps(c1.trees);
    assert CanDeploy(c1, 1, HOST, plan);
    DeployGoesThrough(c1, 1, HOST, plan, 0);
    c := Deployed(c1, 1, HOST, plan);
    RootPack(c1.dag, 2);
    StillTracked(wiped.trees, c, c.drivers[0]);
    ReachableInv(c);
  }

  /** The sync of driver 0 finds the host stale. */
  lemma StaleAfterWipe() returns (c: Cluster)
    ensures Reachable(c) && Graph(c) && SessionAt(c, 0) && HOST in c.hosts && 0 in c.drivers
    ensures var s, h, d := c.sessions[0], c.hosts[HOST], c.drivers[0];
            && s.host == HOST && s.driver == 0 && s.phase == Stale(Some(2)) && s.expected == Some(1)
            && d.store == {1} && d.tracking == map[HOST := 1]
            && h.current == Some(2) && 1 !in h.store && 2 in c.dag.parents
  {
    hide Reachable, Taken, Repo.ExpectedCurrent, Inv, Dag.Acyclic;
    var c0 := RedeployAfterWipe();
    var d := c0.drivers[0];
    Connect(c0, 0, 0, HOST, Sync, Some(1));
    var s := Opened(c0, 0, HOST, Sync, Some(1));
    Advance(c0, 0, ReadsHello(0), Local(s, c0.hosts[HOST], d), Local(s.(phase := Stale(Some(2))), c0.hosts[HOST], d));
    c := With(c0, 0, Local(s.(phase := Stale(Some(2))), c0.hosts[HOST], d));
    ReachableInv(c);
  }

  lemma NoApps(trees: map<Oid, Tree>)
    ensures AppsAt(trees, HOST, None) == map[]
  {
  }

  lemma RootPack(g: Dag, c: Oid)
    requires g.Acyclic() && c in g.parents && g.parents[c] == {}
    ensures PackOf(g, c, None) == {c}
  {
    forall a ensures a in PackOf(g, c, None) <==> a == c {
      assert g.Reaches(c, a) <==> a == c;
    }
  }

  /**
    From empty stores there is a run in which a request for objects is refused
    and the tracking ref that causes it stays.
   */
  lemma {:induction false} FetchRefusalHappens() returns (c: Cluster, c': Cluster)
    ensures Reachable(c) && Graph(c) && NextBy(c, SendsPack(0), c') && Reachable(c')
    ensures SessionAt(c, 0) && c.sessions[0].host == HOST && c.hosts[HOST].current == Some(2)
    ensures 0 in c'.sessions && c'.sessions[0].phase.Ended? && c'.drivers == c.drivers && 0 in c.drivers
    ensures c.drivers[0].tracking == map[HOST := 1]
  {
    hide Reachable, Dag.Acyclic, Taken;
    c := StaleAfterWipe();
    var a := LocalAt(c, 0);
    var b := a.(session := a.session.(phase := Ended));
    assert SendStep(c.dag, a, b);
    NextBySession(c, 0, SendsPack(0), b);
    c' := Updated(c, 0, b);
    StepReachable(c, SendsPack(0), c');
    assert c'.drivers == c.drivers;
  }
}
