/**
  The cluster as a step machine: hosts with their agent sessions, and drivers
  with their stores. Steps of different sessions and drivers interleave freely,
  and a session can end after any step.
 */
module Protocol {
  import opened Wrappers
  import opened Paths
  import opened Trees
  import opened Plan
  import opened History
  import opened ConfigTree
  import opened Planner

  type DriverId = nat

  type SessionId = nat

  /**
    The refs and commits of a host. `line` and `past` record history: every
    commit that `current` has been at since the last wipe, and ever.
   */
  datatype Host = Host(store: set<Oid>, current: Option<Oid>, target: Option<Oid>, deployedName: Option<Name>,
                       line: set<Oid>, past: set<Oid>)

  /** A finalized plan: its commit, and per host the expected commit and the rollback verdict. */
  datatype PlanRecord = PlanRecord(commit: Oid, expected: map<Name, Option<Oid>>, safe: map<Name, bool>)

  datatype Driver = Driver(store: set<Oid>, tracking: map<Name, Oid>, plans: set<PlanRecord>)

  datatype Command = Deploy(plan: PlanRecord) | Sync | Reapply

  /** The run-time assertions of the agent. */
  datatype Panic = Descent | Safety | ReapplyCurrent | ReapplyTarget | NoCurrent

  datatype Phase =
    | Connected
    | Stale(actual: Option<Oid>)
    | Parted(actual: Option<Oid>)
    | Fetching(reported: Oid, pack: set<Oid>)
    | Fetched(reported: Oid)
    | Locked
    | Received
    | Prepared
    | RollingBack
    | Moved
    | Recorded
    | Completed
    | Released
    | Failed
    | Ended
    | Panicked(panic: Panic)

  /** The Hello is what the agent's refs were when the connection opened, before any lock. */
  datatype Session = Session(driver: DriverId, host: Name, command: Command, expected: Option<Oid>,
                             helloCurrent: Option<Oid>, helloTarget: Option<Oid>, phase: Phase) {
    predicate HoldsLock() {
      phase.Locked? || phase.Received? || phase.Prepared? || phase.RollingBack? || phase.Moved? || phase.Recorded?
      || phase.Completed? || phase.Failed?
    }

    /**
      The agent's process is there: it may hold the lock, or still has to
      answer. In the other phases it may have exited, and only the driver goes on.
     */
    predicate AgentOpen() {
      phase.Connected? || phase.Stale? || HoldsLock()
    }

    /** The commit that an apply in this session is for. */
    function Commit(): Option<Oid> {
      if command.Deploy? then Some(command.plan.commit) else expected
    }
  }

  datatype Cluster = Cluster(dag: Dag, trees: map<Oid, Tree>, hosts: map<Name, Host>, drivers: map<DriverId, Driver>,
                             sessions: map<SessionId, Session>)

  // ----- The agent's handling of requests -----

  datatype LockAnswer = Busy | HostnameChanged(deployedAs: Option<Name>) | LockStale(actual: Option<Oid>) | Granted

  function CheckDeployedHostname(trees: map<Oid, Tree>, name: Name, current: Option<Oid>, deployedName: Option<Name>)
    : Option<LockAnswer>
  {
    match current
    case None => None
    case Some(commit) =>
      match deployedName
      case Some(n) => if n != name then Some(HostnameChanged(Some(n))) else None
      case None =>
        if commit in trees && SubtreeOid(trees[commit], name).Some? then None else Some(HostnameChanged(None))
  }

  function LockResult(trees: map<Oid, Tree>, name: Name, host: Host, busy: bool, expected: Option<Oid>): LockAnswer {
    if busy then Busy
    else
      match CheckDeployedHostname(trees, name, host.current, host.deployedName)
      case Some(refusal) => refusal
      case None => if host.current != expected then LockStale(host.current) else Granted
  }

  datatype PrepareAnswer = Refused | Panics(panic: Panic) | Ready

  function AppsAt(trees: map<Oid, Tree>, name: Name, commit: Option<Oid>): Apps {
    if commit.Some? && commit.value in trees then GetHostApps(trees[commit.value], name) else map[]
  }

  /** `prepare_apply` for a deploy: the diff, the descendant check, the rollback verdict. */
  ghost function PrepareDeploy(dag: Dag, trees: map<Oid, Tree>, name: Name, host: Host, target: Oid,
                               safe: bool): PrepareAnswer
    requires dag.Acyclic()
  {
    var current, after := AppsAt(trees, name, host.current), AppsAt(trees, name, Some(target));
    if target !in host.store || target !in dag.parents || !ReadableChange(current, after) then Refused
    else if host.current.Some? && !dag.DescendantOf(target, host.current.value) then Panics(Descent)
    else if SafeHostChange(current, after) != safe then Panics(Safety)
    else Ready
  }

  /** `prepare_apply` for a reapply: both refs have to be at the commit already. */
  ghost function PrepareReapply(trees: map<Oid, Tree>, name: Name, host: Host, target: Oid): PrepareAnswer {
    if target !in host.store || !ReadableChange(map[], AppsAt(trees, name, Some(target))) then Refused
    else if host.current != Some(target) then Panics(ReapplyCurrent)
    else if host.target != Some(target) then Panics(ReapplyTarget)
    else Ready
  }

  /** `create_pack`: what `want` reaches and `have` does not. */
  ghost function PackOf(dag: Dag, want: Oid, have: Option<Oid>): set<Oid>
    requires dag.Acyclic() && want in dag.parents && (have.Some? ==> have.value in dag.parents)
  {
    set a | a in Ancestry(dag, want) && !(have.Some? && dag.Reaches(have.value, a))
  }

  // ----- Steps -----

  datatype Step =
    | Plans(driver: DriverId, config: Tree, filter: HostFilter, draft: DraftPlan, commit: Oid)
    | Connects(sid: SessionId, driver: DriverId, host: Name, command: Command)
    | Locks(sid: SessionId)
    | ReadsHello(sid: SessionId)
    | ReceivesPack(sid: SessionId)
    | Prepares(sid: SessionId)
    | FailsApply(sid: SessionId)
    | StartsRollback(sid: SessionId)
    | FinishesRollback(sid: SessionId)
    | FailsRollback(sid: SessionId)
    | MovesCurrent(sid: SessionId)
    | RecordsHostname(sid: SessionId)
    | Completes(sid: SessionId)
    | Releases(sid: SessionId)
    | Parts(sid: SessionId)
    | Tracks(sid: SessionId)
    | DropsRef(sid: SessionId)
    | KnowsStale(sid: SessionId)
    | SendsPack(sid: SessionId)
    | WritesPack(sid: SessionId)
    | TracksStale(sid: SessionId)
    | Disconnects(sid: SessionId)
    | Wipes(host: Name)

  /** Steps of one session, on the session, its host and its driver. */
  datatype Local = Local(session: Session, host: Host, driver: Driver)

  function AfterLock(answer: LockAnswer): Phase {
    match answer
    case Busy => Ended
    case HostnameChanged(_) => Ended
    case LockStale(actual) => Stale(actual)
    case Granted => Locked
  }

  function AfterPrepare(answer: PrepareAnswer): Phase {
    match answer
    case Refused => Failed
    case Panics(p) => Panicked(p)
    case Ready => Prepared
  }

  /** `handle_lock`, for a deploy or a reapply. */
  ghost predicate LockStep(trees: map<Oid, Tree>, busy: bool, a: Local, b: Local) {
    var s := a.session;
    && s.phase.Connected? && !s.command.Sync?
    && b == a.(session := s.(phase := AfterLock(LockResult(trees, s.host, a.host, busy, s.expected))))
  }

  /** `run_sync` takes no lock: it goes by the Hello. */
  ghost predicate HelloStep(a: Local, b: Local) {
    var s := a.session;
    && s.phase.Connected? && s.command.Sync?
    && b == a.(session := s.(phase := if s.helloCurrent == s.expected then Ended else Stale(s.helloCurrent)))
  }

  /**
    The driver packs its commit for the expected base, the agent writes it. The
    driver waits until all hosts of the plan are locked; leaving that out only
    adds runs.
   */
  ghost predicate ReceiveStep(dag: Dag, a: Local, b: Local)
    requires dag.Acyclic()
  {
    var s := a.session;
    && s.phase.Locked? && s.command.Deploy?
    && s.command.plan.commit in dag.parents && (s.expected.Some? ==> s.expected.value in dag.parents)
    && b == Local(s.(phase := Received),
                  a.host.(store := a.host.store + PackOf(dag, s.command.plan.commit, s.expected)), a.driver)
  }

  ghost predicate PrepareDeployStep(dag: Dag, trees: map<Oid, Tree>, a: Local, b: Local)
    requires dag.Acyclic()
  {
    var s := a.session;
    && s.phase.Received? && s.command.Deploy? && s.host in s.command.plan.safe
    && var answer := PrepareDeploy(dag, trees, s.host, a.host, s.command.plan.commit, s.command.plan.safe[s.host]);
       b == Local(s.(phase := AfterPrepare(answer)),
                  if answer.Ready? then a.host.(target := Some(s.command.plan.commit)) else a.host, a.driver)
  }

  /** The driver refuses by the Hello, which it read before the lock; the agent checks its own refs. */
  ghost predicate PrepareReapplyStep(trees: map<Oid, Tree>, a: Local, b: Local) {
    var s := a.session;
    && s.phase.Locked? && s.command.Reapply? && s.expected.Some? && s.helloTarget == s.helloCurrent
    && b == a.(session := s.(phase := AfterPrepare(PrepareReapply(trees, s.host, a.host, s.expected.value))))
  }

  ghost predicate FailStep(a: Local, b: Local) {
    a.session.phase.Prepared? && b == a.(session := a.session.(phase := Failed))
  }

  ghost predicate StartRollbackStep(a: Local, b: Local) {
    var s := a.session;
    && s.phase.Prepared? && s.command.Deploy? && s.host in s.command.plan.safe && s.command.plan.safe[s.host]
    && b == a.(session := s.(phase := RollingBack))
  }

  ghost predicate FinishRollbackStep(a: Local, b: Local) {
    && a.session.phase.RollingBack?
    && b == Local(a.session.(phase := Failed),
                  if a.host.current.Some? then a.host.(target := a.host.current) else a.host, a.driver)
  }

  ghost predicate FailRollbackStep(a: Local, b: Local) {
    a.session.phase.RollingBack? && b == a.(session := a.session.(phase := Failed))
  }

  ghost predicate MoveStep(a: Local, b: Local) {
    && a.session.phase.Prepared? && a.session.Commit().Some?
    && var c := a.session.Commit().value;
       b == Local(a.session.(phase := Moved),
                  a.host.(current := Some(c), line := a.host.line + {c}, past := a.host.past + {c}), a.driver)
  }

  /** Recording the hostname can fail, after `current` has moved. */
  ghost predicate RecordStep(a: Local, b: Local) {
    && a.session.phase.Moved?
    && (|| b == a.(session := a.session.(phase := Failed))
        || b == Local(a.session.(phase := Recorded), a.host.(deployedName := Some(a.session.host)), a.driver))
  }

  ghost predicate CompleteStep(a: Local, b: Local) {
    a.session.phase.Recorded? && b == a.(session := a.session.(phase := Completed))
  }

  /** The driver has no more requests: the agent exits, and drops the lock before its output ends. */
  ghost predicate ReleaseStep(a: Local, b: Local) {
    && (a.session.phase.Completed? || a.session.phase.Failed?)
    && b == a.(session := a.session.(phase := if a.session.phase.Completed? then Released else Ended))
  }

  /** The agent of a stale host exits before the driver has seen to the tracking ref. */
  ghost predicate PartStep(a: Local, b: Local) {
    a.session.phase.Stale? && b == a.(session := a.session.(phase := Parted(a.session.phase.actual)))
  }

  /** The driver has read the agent's output to its end; by then others may hold the lock, or have wiped the host. */
  ghost predicate TrackStep(a: Local, b: Local) {
    var s, d := a.session, a.driver;
    && s.phase.Released? && s.command.Deploy?
    && b == Local(s.(phase := Ended), a.host, d.(tracking := d.tracking[s.host := s.command.plan.commit]))
  }

  ghost predicate DropStep(a: Local, b: Local) {
    var s, d := a.session, a.driver;
    && (s.phase == Stale(None) || s.phase == Parted(None))
    && b == Local(s.(phase := Ended), a.host, d.(tracking := d.tracking - {s.host}))
  }

  ghost predicate KnowStep(a: Local, b: Local) {
    var s := a.session;
    && (s.phase.Stale? || s.phase.Parted?) && s.phase.actual.Some? && s.phase.actual.value in a.driver.store
    && b == a.(session := s.(phase := Fetched(s.phase.actual.value)))
  }

  /** What the agent answers to `RequestObjects`: it packs its newest commit, whatever it reported. */
  ghost function SendPhase(dag: Dag, h: Host, reported: Oid, have: Option<Oid>): Phase
    requires dag.Acyclic()
  {
    if h.current.None? then Panicked(NoCurrent)
    else if h.current.value !in dag.parents
      || (have.Some? && (have.value !in h.store || have.value !in dag.parents)) then Ended
    else Fetching(reported, PackOf(dag, h.current.value, have))
  }

  ghost predicate SendStep(dag: Dag, a: Local, b: Local)
    requires dag.Acyclic()
  {
    var s := a.session;
    && s.phase.Stale? && s.phase.actual.Some? && s.phase.actual.value !in a.driver.store
    && b == a.(session := s.(phase := SendPhase(dag, a.host, s.phase.actual.value, s.expected)))
  }

  ghost predicate WriteStep(a: Local, b: Local) {
    var s, d := a.session, a.driver;
    && s.phase.Fetching?
    && b == Local(s.(phase := Fetched(s.phase.reported)), a.host, d.(store := d.store + s.phase.pack))
  }

  ghost predicate TrackStaleStep(a: Local, b: Local) {
    var s, d := a.session, a.driver;
    && s.phase.Fetched?
    && b == Local(s.(phase := Ended), a.host, d.(tracking := d.tracking[s.host := s.phase.reported]))
  }

  ghost predicate LocalStep(dag: Dag, trees: map<Oid, Tree>, busy: bool, step: Step, a: Local, b: Local)
    requires dag.Acyclic()
  {
    match step
    case Locks(_) => LockStep(trees, busy, a, b)
    case ReadsHello(_) => HelloStep(a, b)
    case ReceivesPack(_) => ReceiveStep(dag, a, b)
    case Prepares(_) => PrepareDeployStep(dag, trees, a, b) || PrepareReapplyStep(trees, a, b)
    case FailsApply(_) => FailStep(a, b)
    case StartsRollback(_) => StartRollbackStep(a, b)
    case FinishesRollback(_) => FinishRollbackStep(a, b)
    case FailsRollback(_) => FailRollbackStep(a, b)
    case MovesCurrent(_) => MoveStep(a, b)
    case RecordsHostname(_) => RecordStep(a, b)
    case Completes(_) => CompleteStep(a, b)
    case Releases(_) => ReleaseStep(a, b)
    case Parts(_) => PartStep(a, b)
    case Tracks(_) => TrackStep(a, b)
    case DropsRef(_) => DropStep(a, b)
    case KnowsStale(_) => KnowStep(a, b)
    case SendsPack(_) => SendStep(dag, a, b)
    case WritesPack(_) => WriteStep(a, b)
    case TracksStale(_) => TrackStaleStep(a, b)
    case _ => false
  }

  predicate LockedOn(c: Cluster, o: SessionId, h: Name) {
    o in c.sessions && c.sessions[o].host == h && c.sessions[o].HoldsLock()
  }

  ghost predicate Taken(c: Cluster, host: Name) {
    exists o :: LockedOn(c, o, host)
  }

  function RepoOf(c: Cluster, d: Driver): Repo {
    Repo(c.dag, c.trees, d.tracking)
  }

  function FinalizedPlan(draft: DraftPlan, commit: Oid): PlanRecord {
    PlanRecord(commit,
               map h | h in draft.hosts :: draft.hosts[h].expectedCurrent,
               map h | h in draft.hosts :: draft.hosts[h].isRollbackSafe)
  }

  ghost predicate Graph(c: Cluster) {
    c.dag.Acyclic() && c.trees.Keys == c.dag.parents.Keys
  }

  /** `make_plan` and `finalize`: a fresh commit on top of the frontier of the expected commits. */
  ghost predicate PlanStep(c: Cluster, driver: DriverId, config: Tree, filter: HostFilter, draft: DraftPlan,
                           commit: Oid, c': Cluster)
    requires Graph(c)
  {
    && driver in c.drivers
    && var d := c.drivers[driver];
    && config.Dir? && IsBuilt(config) && ValidConfig(config) && IsPlan(RepoOf(c, d), config, filter, draft)
    && (forall h :: h in draft.hosts ==> h in c.hosts)
    && commit !in c.dag.parents
    && c'.dag.Acyclic()
    && c'.dag.parents == c.dag.parents[commit := Elements(draft.parents)]
    && c' == c.(dag := c'.dag, trees := c.trees[commit := config],
                drivers := c.drivers[driver := d.(store := d.store + {commit},
                                                  plans := d.plans + {FinalizedPlan(draft, commit)})])
  }

  ghost predicate ConnectStep(c: Cluster, sid: SessionId, driver: DriverId, host: Name, command: Command, c': Cluster) {
    && sid !in c.sessions && driver in c.drivers && host in c.hosts
    && var d := c.drivers[driver];
    && (command.Deploy? ==> command.plan in d.plans && host in command.plan.expected)
    && (command.Reapply? ==> RepoOf(c, d).ExpectedCurrent(host).Some?)
    && var expected := if command.Deploy? then command.plan.expected[host] else RepoOf(c, d).ExpectedCurrent(host);
       c' == c.(sessions := c.sessions[sid :=
         Session(driver, host, command, expected, c.hosts[host].current, c.hosts[host].target, Connected)])
  }

  ghost predicate DisconnectStep(c: Cluster, sid: SessionId, c': Cluster) {
    sid in c.sessions && c' == c.(sessions := c.sessions - {sid})
  }

  ghost predicate WipeStep(c: Cluster, host: Name, c': Cluster) {
    && host in c.hosts && (forall o :: o in c.sessions && c.sessions[o].host == host ==> !c.sessions[o].AgentOpen())
    && c' == c.(hosts := c.hosts[host := Host({}, None, None, None, {}, c.hosts[host].past)])
  }

  ghost predicate SessionAt(c: Cluster, sid: SessionId) {
    sid in c.sessions && c.sessions[sid].host in c.hosts && c.sessions[sid].driver in c.drivers
  }

  function LocalAt(c: Cluster, sid: SessionId): Local
    requires sid in c.sessions && c.sessions[sid].host in c.hosts && c.sessions[sid].driver in c.drivers
  {
    var s := c.sessions[sid];
    Local(s, c.hosts[s.host], c.drivers[s.driver])
  }

  function Updated(c: Cluster, sid: SessionId, b: Local): Cluster
    requires sid in c.sessions
  {
    var s := c.sessions[sid];
    c.(sessions := c.sessions[sid := b.session], hosts := c.hosts[s.host := b.host],
       drivers := c.drivers[s.driver := b.driver])
  }

  ghost predicate IsSessionStep(step: Step) {
    !step.Plans? && !step.Connects? && !step.Disconnects? && !step.Wipes?
  }

  ghost predicate NextBy(c: Cluster, step: Step, c': Cluster)
    requires Graph(c)
  {
    match step
    case Plans(driver, config, filter, draft, commit) => PlanStep(c, driver, config, filter, draft, commit, c')
    case Connects(sid, driver, host, command) => ConnectStep(c, sid, driver, host, command, c')
    case Disconnects(sid) => DisconnectStep(c, sid, c')
    case Wipes(host) => WipeStep(c, host, c')
    case _ =>
      && SessionAt(c, step.sid)
      && exists b: Local ::
           && LocalStep(c.dag, c.trees, Taken(c, c.sessions[step.sid].host), step, LocalAt(c, step.sid), b)
           && c' == Updated(c, step.sid, b)
  }

  // ----- The run invariant -----

  ghost predicate HasEntry(trees: map<Oid, Tree>, commit: Oid, name: Name) {
    commit in trees && SubtreeOid(trees[commit], name).Some?
  }

  ghost predicate HostInv(dag: Dag, trees: map<Oid, Tree>, name: Name, h: Host)
    requires dag.Acyclic()
  {
    && Closed(dag, h.store)
    && h.line <= h.store && h.line <= h.past
    && (forall y :: y in h.past ==> y in dag.parents && HasEntry(trees, y, name))
    && (h.current.None? ==> h.line == {})
    && (h.target.Some? ==> h.target.value in h.store)
    && (h.current.Some? ==>
          && h.current.value in h.line
          && (forall y :: y in h.line ==> dag.Reaches(h.current.value, y))
          && h.target.Some? && dag.Reaches(h.target.value, h.current.value))
    && (h.deployedName.Some? ==> h.deployedName.value == name)
  }

  ghost predicate PlanInv(dag: Dag, trees: map<Oid, Tree>, hosts: map<Name, Host>, store: set<Oid>, p: PlanRecord)
    requires dag.Acyclic() && store <= dag.parents.Keys
  {
    && p.commit in store && p.safe.Keys == p.expected.Keys
    && forall h :: h in p.expected ==>
         && h in hosts && HasEntry(trees, p.commit, h)
         && (p.expected[h].Some? ==>
               && p.expected[h].value in store && p.expected[h].value in hosts[h].past
               && dag.DescendantOf(p.commit, p.expected[h].value))
         && (p.safe[h] <==> SafeHostChange(AppsAt(trees, h, p.expected[h]), AppsAt(trees, h, Some(p.commit))))
  }

  ghost predicate DriverInv(dag: Dag, trees: map<Oid, Tree>, hosts: map<Name, Host>, d: Driver)
    requires dag.Acyclic()
  {
    && Closed(dag, d.store)
    && (forall h :: h in d.tracking ==> h in hosts && d.tracking[h] in d.store && d.tracking[h] in hosts[h].past)
    && (forall p :: p in d.plans ==> PlanInv(dag, trees, hosts, d.store, p))
  }

  /** What holds of a session whatever other sessions do. */
  ghost predicate SessionInv(dag: Dag, h: Host, d: Driver, s: Session)
  {
    && (s.expected.Some? ==> s.expected.value in d.store && s.expected.value in h.past)
    && (s.command.Deploy? ==>
          && s.command.plan in d.plans && s.host in s.command.plan.expected
          && s.expected == s.command.plan.expected[s.host])
    && (s.command.Reapply? ==> s.expected.Some?)
    && (s.helloCurrent.Some? && s.phase.Connected? ==> s.helloCurrent.value in h.line)
    && (s.HoldsLock() ==> !s.command.Sync?)
    && match s.phase
       case Stale(actual) => actual.Some? ==> actual.value in h.line
       case Parted(actual) => actual.Some? ==> actual.value in h.past
       case Fetching(reported, pack) =>
         && reported in h.past && reported in d.store + pack && pack <= dag.parents.Keys
         && (forall x :: x in pack ==> dag.parents[x] <= d.store + pack)
       case Fetched(reported) => reported in h.past && reported in d.store
       case Released => s.Commit().Some? && s.Commit().value in h.past
       case Panicked(p) => p == ReapplyTarget && s.command.Reapply?
       case _ => true
  }

  /** What the lock protects: the host's refs, as the session that holds it left them. */
  ghost predicate LockInv(h: Host, s: Session) {
    && (s.phase.Locked? || s.phase.Received? || s.phase.Prepared? || s.phase.RollingBack? ==> h.current == s.expected)
    && (s.phase.Received? || s.phase.RollingBack? ==> s.command.Deploy?)
    && (s.phase.Received? ==> s.Commit().Some? && s.Commit().value in h.store)
    && (s.phase.Prepared? || s.phase.RollingBack? ==>
          s.Commit().Some? && h.target == s.Commit() && s.Commit().value in h.store)
    && (s.phase.Moved? || s.phase.Recorded? || s.phase.Completed? ==>
          s.Commit().Some? && h.current == s.Commit() && h.target == s.Commit())
  }

  ghost predicate Exclusive(sessions: map<SessionId, Session>) {
    forall o, p ::
      && o in sessions && p in sessions && sessions[o].host == sessions[p].host
      && sessions[o].HoldsLock() && sessions[p].HoldsLock()
      ==> o == p
  }

  ghost predicate HostsInv(c: Cluster)
    requires Graph(c)
  {
    forall h :: h in c.hosts ==> HostInv(c.dag, c.trees, h, c.hosts[h])
  }

  ghost predicate DriversInv(c: Cluster)
    requires Graph(c)
  {
    forall d :: d in c.drivers ==> DriverInv(c.dag, c.trees, c.hosts, c.drivers[d])
  }

  ghost predicate SessionOk(c: Cluster, s: Session)
    requires Graph(c)
  {
    && s.host in c.hosts && s.driver in c.drivers
    && SessionInv(c.dag, c.hosts[s.host], c.drivers[s.driver], s)
    && LockInv(c.hosts[s.host], s)
  }

  ghost predicate SessionsInv(c: Cluster)
    requires Graph(c)
  {
    forall o :: o in c.sessions ==> SessionOk(c, c.sessions[o])
  }

  ghost predicate Inv(c: Cluster) {
    Graph(c) && HostsInv(c) && DriversInv(c) && SessionsInv(c) && Exclusive(c.sessions)
  }

  // ----- Every step keeps the invariant -----

  /** Everything known about one session, with its host and driver. */
  ghost predicate LocalInv(c: Cluster, a: Local)
    requires Graph(c)
  {
    && a.session.host in c.hosts && c.hosts[a.session.host] == a.host
    && HostInv(c.dag, c.trees, a.session.host, a.host)
    && DriverInv(c.dag, c.trees, c.hosts, a.driver)
    && SessionInv(c.dag, a.host, a.driver, a.session)
    && LockInv(a.host, a.session)
  }

  /** The commits and plans only grow, and without the lock the refs stay as they are. */
  ghost predicate Advances(busy: bool, a: Local, b: Local) {
    && b.session.host == a.session.host && b.session.driver == a.session.driver
    && a.host.store <= b.host.store && a.host.line <= b.host.line && a.host.past <= b.host.past
    && a.driver.store <= b.driver.store && a.driver.plans <= b.driver.plans
    && (!a.session.HoldsLock() ==> b.host == a.host)
    && (b.session.HoldsLock() ==> a.session.HoldsLock() || !busy)
  }

  /** What a step has to establish locally. */
  ghost predicate Established(c: Cluster, b: Local)
    requires Graph(c)
  {
    && HostInv(c.dag, c.trees, b.session.host, b.host)
    && DriverInv(c.dag, c.trees, c.hosts[b.session.host := b.host], b.driver)
    && SessionInv(c.dag, b.host, b.driver, b.session)
    && LockInv(b.host, b.session)
  }

  lemma DriverMonotone(dag: Dag, trees: map<Oid, Tree>, hosts: map<Name, Host>, hosts': map<Name, Host>, d: Driver)
    requires dag.Acyclic() && DriverInv(dag, trees, hosts, d)
    requires forall h :: h in hosts ==> h in hosts' && hosts[h].past <= hosts'[h].past
    ensures DriverInv(dag, trees, hosts', d)
  {
  }

  lemma SamePlace(c: Cluster, a: Local, b: Local)
    requires Graph(c) && LocalInv(c, a)
    requires b.host == a.host && b.session.host == a.session.host
    ensures c.hosts[b.session.host := b.host] == c.hosts
  {
  }

  lemma LockStepKeeps(c: Cluster, busy: bool, a: Local, b: Local)
    requires Graph(c) && LocalInv(c, a)
    requires LockStep(c.trees, busy, a, b) || HelloStep(a, b)
    ensures Advances(busy, a, b) && Established(c, b)
  {
    hide HostInv, DriverInv;
    SamePlace(c, a, b);
    if LockStep(c.trees, busy, a, b) && b.session.phase.Stale? {
      CurrentOnLine(c, a);
    }
  }

  lemma CurrentOnLine(c: Cluster, a: Local)
    requires Graph(c) && LocalInv(c, a)
    ensures a.host.current.Some? ==> a.host.current.value in a.host.line
    ensures a.host.line <= a.host.store && a.host.line <= a.host.past
    ensures a.host.current.None? ==> a.host.line == {}
    ensures a.host.current.Some? ==> a.host.current.value in c.dag.parents
  {
  }

  lemma PlanOf(c: Cluster, a: Local)
    requires Graph(c) && LocalInv(c, a) && a.session.command.Deploy?
    ensures a.driver.store <= c.dag.parents.Keys
    ensures PlanInv(c.dag, c.trees, c.hosts, a.driver.store, a.session.command.plan)
  {
  }

  lemma QuietStepKeeps(c: Cluster, busy: bool, a: Local, b: Local)
    requires Graph(c) && LocalInv(c, a)
    requires FailStep(a, b) || StartRollbackStep(a, b) || FailRollbackStep(a, b) || CompleteStep(a, b)
             || ReleaseStep(a, b) || PartStep(a, b) || KnowStep(a, b)
    ensures Advances(busy, a, b) && Established(c, b)
  {
    hide HostInv, DriverInv, Dag.Acyclic, Closed;
    SamePlace(c, a, b);
    CurrentOnLine(c, a);
  }

  lemma ReceiveKeeps(c: Cluster, busy: bool, a: Local, b: Local)
    requires Graph(c) && LocalInv(c, a) && ReceiveStep(c.dag, a, b)
    ensures Advances(busy, a, b) && Established(c, b)
  {
    hide DriverInv, PlanInv, HasEntry, SafeHostChange, AppsAt;
    var s, h := a.session, a.host;
    var pack := PackOf(c.dag, s.command.plan.commit, s.expected);
    CurrentOnLine(c, a);
    PackCompletes(c.dag, h.store, s.command.plan.commit, pack, if s.expected.Some? then {s.expected.value} else {});
    DriverMonotone(c.dag, c.trees, c.hosts, c.hosts[s.host := b.host], a.driver);
    hide PackOf, Dag.Reaches, DriverInv;
    assert s.command.plan.commit in Ancestry(c.dag, s.command.plan.commit)
      by { SelfAncestry(c.dag, s.command.plan.commit); }
  }

  lemma SelfAncestry(g: Dag, c: Oid)
    requires g.Acyclic() && c in g.parents
    ensures c in Ancestry(g, c)
  {
  }

  /** With a finalized plan and the lock, neither assertion of `prepare_apply` fires. */
  lemma {:induction false} PrepareDeployAnswer(c: Cluster, a: Local)
    requires Graph(c) && LocalInv(c, a)
    requires a.session.phase.Received? && a.session.command.Deploy? && a.session.host in a.session.command.plan.safe
    ensures !PrepareDeploy(c.dag, c.trees, a.session.host, a.host, a.session.command.plan.commit,
                           a.session.command.plan.safe[a.session.host]).Panics?
  {
  }

  lemma PrepareDeployKeeps(c: Cluster, busy: bool, a: Local, b: Local)
    requires Graph(c) && LocalInv(c, a) && PrepareDeployStep(c.dag, c.trees, a, b)
    ensures Advances(busy, a, b) && Established(c, b)
  {
    hide HostInv, DriverInv, PrepareDeploy, Dag.Reaches;
    var s, commit := a.session, a.session.command.plan.commit;
    PrepareDeployAnswer(c, a);
    DriverMonotone(c.dag, c.trees, c.hosts, c.hosts[s.host := b.host], a.driver);
    if b.host.target != a.host.target {
      PlanReaches(c, a);
      TargetSet(c, s.host, a.host, commit);
    }
  }

  /** The plan's commit descends from the commit that the lock pins. */
  lemma PlanReaches(c: Cluster, a: Local)
    requires Graph(c) && LocalInv(c, a) && a.session.phase.Received? && a.session.command.Deploy?
    ensures a.session.command.plan.commit in c.dag.parents
    ensures a.host.current.Some? ==> c.dag.Reaches(a.session.command.plan.commit, a.host.current.value)
  {
  }

  lemma TargetSet(c: Cluster, name: Name, h: Host, t: Oid)
    requires Graph(c) && HostInv(c.dag, c.trees, name, h) && t in h.store
    requires h.current.Some? ==> c.dag.Reaches(t, h.current.value)
    ensures HostInv(c.dag, c.trees, name, h.(target := Some(t)))
  {
  }

  lemma PrepareReapplyKeeps(c: Cluster, busy: bool, a: Local, b: Local)
    requires Graph(c) && LocalInv(c, a) && PrepareReapplyStep(c.trees, a, b)
    ensures Advances(busy, a, b) && Established(c, b)
  {
    hide DriverInv, ReadableChange, AppsAt;
    SamePlace(c, a, b);
    CurrentOnLine(c, a);
    hide HostInv;
  }

  lemma FinishRollbackKeeps(c: Cluster, busy: bool, a: Local, b: Local)
    requires Graph(c) && LocalInv(c, a) && FinishRollbackStep(a, b)
    ensures Advances(busy, a, b) && Established(c, b)
  {
    DriverMonotone(c.dag, c.trees, c.hosts, c.hosts[a.session.host := b.host], a.driver);
    CurrentOnLine(c, a);
    hide HostInv, DriverInv;
    if a.host.current.Some? {
      SelfAncestry(c.dag, a.host.current.value);
      TargetSet(c, a.session.host, a.host, a.host.current.value);
    }
  }

  lemma MoveKeeps(c: Cluster, busy: bool, a: Local, b: Local)
    requires Graph(c) && LocalInv(c, a) && MoveStep(a, b)
    ensures Advances(busy, a, b) && Established(c, b)
  {
    var s, h, commit := a.session, a.host, a.session.Commit().value;
    DriverMonotone(c.dag, c.trees, c.hosts, c.hosts[s.host := b.host], a.driver);
    CurrentOnLine(c, a);
    SelfAncestry(c.dag, commit);
    if s.command.Deploy? {
      PlanOf(c, a);
    }
    assert HasEntry(c.trees, commit, s.host);
    forall y | y in h.line ensures c.dag.Reaches(commit, y) {
      ReachesTransitive(c.dag, commit, h.current.value, y);
    }
    hide DriverInv, Dag.Reaches, HasEntry;
  }

  lemma RecordKeeps(c: Cluster, busy: bool, a: Local, b: Local)
    requires Graph(c) && LocalInv(c, a) && RecordStep(a, b)
    ensures Advances(busy, a, b) && Established(c, b)
  {
    hide DriverInv, Dag.Reaches, Closed, HasEntry;
    DriverMonotone(c.dag, c.trees, c.hosts, c.hosts[a.session.host := b.host], a.driver);
  }

  lemma TrackKeeps(c: Cluster, busy: bool, a: Local, b: Local)
    requires Graph(c) && LocalInv(c, a) && (TrackStep(a, b) || DropStep(a, b) || TrackStaleStep(a, b))
    ensures Advances(busy, a, b) && Established(c, b)
  {
    hide Dag.Reaches, HasEntry, PlanInv, HostInv, Closed;
    SamePlace(c, a, b);
    if TrackStep(a, b) {
      PlanCommit(c, a);
    }
  }

  lemma PlanCommit(c: Cluster, a: Local)
    requires Graph(c) && LocalInv(c, a) && a.session.command.Deploy?
    ensures a.session.command.plan.commit in a.driver.store
  {
    PlanOf(c, a);
  }

  lemma PlanMonotone(dag: Dag, trees: map<Oid, Tree>, hosts: map<Name, Host>, store: set<Oid>, store': set<Oid>,
                     p: PlanRecord)
    requires dag.Acyclic() && store <= store' <= dag.parents.Keys && PlanInv(dag, trees, hosts, store, p)
    ensures PlanInv(dag, trees, hosts, store', p)
  {
  }

  /**
    A packfile of the host's newest commit completes the driver's store, and the
    reported commit is in it, however far the host has advanced since.
   */
  lemma {:induction false} SendKeeps(c: Cluster, busy: bool, a: Local, b: Local)
    requires Graph(c) && LocalInv(c, a) && SendStep(c.dag, a, b)
    ensures Advances(busy, a, b) && Established(c, b)
    ensures !b.session.phase.Panicked?
    ensures a.session.expected.Some? && a.session.expected.value in a.host.line ==> b.session.phase.Fetching?
    ensures a.session.expected.None? ==> b.session.phase.Fetching?
  {
    var s, h, d := a.session, a.host, a.driver;
    SamePlace(c, a, b);
    CurrentOnLine(c, a);
    var want, reported := h.current.value, s.phase.actual.value;
    assert d.store <= c.dag.parents.Keys;
    if b.session.phase.Fetching? {
      var pack := b.session.phase.pack;
      PackCompletes(c.dag, d.store, want, pack, if s.expected.Some? then {s.expected.value} else {});
      assert c.dag.Reaches(want, reported);
      hide DriverInv, Dag.Reaches;
      assert reported in Ancestry(c.dag, want);
      forall x | x in pack ensures c.dag.parents[x] <= d.store + pack {
        assert x in d.store + pack;
      }
    } else {
      hide DriverInv, Dag.Reaches;
    }
  }

  lemma WriteKeeps(c: Cluster, busy: bool, a: Local, b: Local)
    requires Graph(c) && LocalInv(c, a) && WriteStep(a, b)
    ensures Advances(busy, a, b) && Established(c, b)
  {
    hide Dag.Reaches, HasEntry;
    SamePlace(c, a, b);
    forall p | p in b.driver.plans ensures PlanInv(c.dag, c.trees, c.hosts, b.driver.store, p) {
      PlanMonotone(c.dag, c.trees, c.hosts, a.driver.store, b.driver.store, p);
    }
    hide PlanInv;
  }

  lemma LocalStepKeeps(c: Cluster, busy: bool, step: Step, a: Local, b: Local)
    requires Graph(c) && LocalInv(c, a) && LocalStep(c.dag, c.trees, busy, step, a, b)
    ensures Advances(busy, a, b) && Established(c, b)
  {
    hide LocalInv, Advances, Established;
    hide LockStep, HelloStep, ReceiveStep, PrepareDeployStep, PrepareReapplyStep, FailStep, StartRollbackStep;
    hide FinishRollbackStep, FailRollbackStep, MoveStep, RecordStep, CompleteStep, TrackStep, DropStep, KnowStep;
    hide SendStep, WriteStep, TrackStaleStep, ReleaseStep, PartStep;
    match step
    case Locks(_) => LockStepKeeps(c, busy, a, b);
    case ReadsHello(_) => LockStepKeeps(c, busy, a, b);
    case ReceivesPack(_) => ReceiveKeeps(c, busy, a, b);
    case Prepares(_) =>
      if PrepareDeployStep(c.dag, c.trees, a, b) {
        PrepareDeployKeeps(c, busy, a, b);
      } else {
        PrepareReapplyKeeps(c, busy, a, b);
      }
    case FinishesRollback(_) => FinishRollbackKeeps(c, busy, a, b);
    case MovesCurrent(_) => MoveKeeps(c, busy, a, b);
    case RecordsHostname(_) => RecordKeeps(c, busy, a, b);
    case Tracks(_) => TrackKeeps(c, busy, a, b);
    case DropsRef(_) => TrackKeeps(c, busy, a, b);
    case TracksStale(_) => TrackKeeps(c, busy, a, b);
    case SendsPack(_) => SendKeeps(c, busy, a, b);
    case WritesPack(_) => WriteKeeps(c, busy, a, b);
    case FailsApply(_) => QuietStepKeeps(c, busy, a, b);
    case StartsRollback(_) => QuietStepKeeps(c, busy, a, b);
    case FailsRollback(_) => QuietStepKeeps(c, busy, a, b);
    case Completes(_) => QuietStepKeeps(c, busy, a, b);
    case Releases(_) => QuietStepKeeps(c, busy, a, b);
    case Parts(_) => QuietStepKeeps(c, busy, a, b);
    case KnowsStale(_) => QuietStepKeeps(c, busy, a, b);
    case _ =>
  }

  lemma DriversKept(c: Cluster, sid: SessionId, b: Local)
    requires Graph(c) && DriversInv(c)
    requires SessionAt(c, sid) && Advances(Taken(c, c.sessions[sid].host), LocalAt(c, sid), b) && Established(c, b)
    ensures DriversInv(Updated(c, sid, b))
  {
    var c' := Updated(c, sid, b);
    hide HostInv, DriverInv, SessionInv, LockInv, Taken;
    forall d | d in c'.drivers ensures DriverInv(c'.dag, c'.trees, c'.hosts, c'.drivers[d]) {
      if d != c.sessions[sid].driver {
        DriverMonotone(c.dag, c.trees, c.hosts, c'.hosts, c.drivers[d]);
      }
    }
  }

  lemma OtherSessionKept(c: Cluster, sid: SessionId, b: Local, o: SessionId)
    requires Graph(c) && SessionAt(c, sid) && Advances(Taken(c, c.sessions[sid].host), LocalAt(c, sid), b)
    requires o in c.sessions && o != sid && SessionOk(c, c.sessions[o]) && Exclusive(c.sessions)
    ensures SessionOk(Updated(c, sid, b), c.sessions[o])
  {
  }

  lemma SessionsKept(c: Cluster, sid: SessionId, b: Local)
    requires Graph(c) && SessionsInv(c) && Exclusive(c.sessions)
    requires SessionAt(c, sid) && Advances(Taken(c, c.sessions[sid].host), LocalAt(c, sid), b) && Established(c, b)
    ensures SessionsInv(Updated(c, sid, b)) && Exclusive(Updated(c, sid, b).sessions)
  {
    var c', s := Updated(c, sid, b), c.sessions[sid];
    hide HostInv, DriverInv, SessionInv, LockInv, Taken, Exclusive, Dag.Acyclic, Session.HoldsLock;
    ExclusiveKept(c, sid, b.session);
    assert SessionOk(c', b.session);
    forall o | o in c'.sessions ensures SessionOk(c', c'.sessions[o]) {
      if o != sid {
        hide SessionOk;
        OtherSessionKept(c, sid, b, o);
      }
    }
  }

  lemma {:induction false} SessionStepKeeps(c: Cluster, sid: SessionId, step: Step, b: Local)
    requires Inv(c) && SessionAt(c, sid)
    requires LocalStep(c.dag, c.trees, Taken(c, c.sessions[sid].host), step, LocalAt(c, sid), b)
    ensures Inv(Updated(c, sid, b))
  {
    var c', s := Updated(c, sid, b), c.sessions[sid];
    assert LocalInv(c, LocalAt(c, sid))
      by { hide HostInv, DriverInv, SessionInv, LockInv, LocalStep, Taken; SessionLocal(c, sid); }
    hide LocalInv, LocalStep, Taken, SessionsInv, DriversInv, Exclusive, Advances;
    LocalStepKeeps(c, Taken(c, s.host), step, LocalAt(c, sid), b);
    DriversKept(c, sid, b);
    SessionsKept(c, sid, b);
    hide HostInv, DriverInv, SessionInv, LockInv;
  }

  lemma SessionLocal(c: Cluster, sid: SessionId)
    requires Inv(c) && SessionAt(c, sid)
    ensures LocalInv(c, LocalAt(c, sid))
  {
  }

  lemma ExclusiveKept(c: Cluster, sid: SessionId, s': Session)
    requires Exclusive(c.sessions) && sid in c.sessions && s'.host == c.sessions[sid].host
    requires s'.HoldsLock() ==> c.sessions[sid].HoldsLock() || !Taken(c, s'.host)
    ensures Exclusive(c.sessions[sid := s'])
  {
    hide Session.HoldsLock;
    forall o | o in c.sessions && c.sessions[o].host == s'.host && c.sessions[o].HoldsLock()
      ensures LockedOn(c, o, s'.host)
    {}
  }

  lemma ConnectedOk(c: Cluster, sid: SessionId, driver: DriverId, host: Name, command: Command, c': Cluster)
    requires Inv(c) && ConnectStep(c, sid, driver, host, command, c')
    ensures SessionInv(c.dag, c.hosts[host], c.drivers[driver], c'.sessions[sid])
    ensures LockInv(c.hosts[host], c'.sessions[sid])
  {
  }

  lemma ConnectKeeps(c: Cluster, sid: SessionId, driver: DriverId, host: Name, command: Command, c': Cluster)
    requires Inv(c) && ConnectStep(c, sid, driver, host, command, c')
    ensures Inv(c')
  {
    ConnectedOk(c, sid, driver, host, command, c');
    hide HostInv, DriverInv, SessionInv, LockInv, Dag.Acyclic, SessionsInv, Exclusive;
    ConnectedSessions(c, sid, c'.sessions[sid], c');
  }

  lemma ConnectedSessions(c: Cluster, sid: SessionId, s: Session, c': Cluster)
    requires Graph(c) && SessionsInv(c) && SessionOk(c, s) && Exclusive(c.sessions) && s.phase.Connected?
    requires sid !in c.sessions
    requires c' == c.(sessions := c.sessions[sid := s])
    ensures SessionsInv(c') && Exclusive(c'.sessions)
  {
    hide SessionInv, LockInv, Dag.Acyclic;
    forall o | o in c'.sessions ensures SessionOk(c', c'.sessions[o]) {
      assert o == sid || SessionOk(c, c.sessions[o]);
    }
  }

  lemma HostLine(c: Cluster, name: Name)
    requires Inv(c) && name in c.hosts
    ensures c.hosts[name].current.Some? ==> c.hosts[name].current.value in c.hosts[name].line
  {
  }

  lemma DisconnectKeeps(c: Cluster, sid: SessionId, c': Cluster)
    requires Inv(c) && DisconnectStep(c, sid, c')
    ensures Inv(c')
  {
  }

  lemma WipedHost(c: Cluster, name: Name)
    requires Inv(c) && name in c.hosts
    ensures HostInv(c.dag, c.trees, name, Host({}, None, None, None, {}, c.hosts[name].past))
  {
  }

  /** What is left of a session without its agent does not depend on the host's store or refs. */
  lemma SessionOutlivesWipe(dag: Dag, h: Host, d: Driver, s: Session)
    requires SessionInv(dag, h, d, s) && !s.AgentOpen()
    ensures SessionInv(dag, Host({}, None, None, None, {}, h.past), d, s)
    ensures LockInv(Host({}, None, None, None, {}, h.past), s)
  {
  }

  lemma WipeKeeps(c: Cluster, name: Name, c': Cluster)
    requires Inv(c) && WipeStep(c, name, c')
    ensures Inv(c')
  {
    hide HostInv, DriverInv, SessionInv, LockInv, Dag.Acyclic, Session.AgentOpen;
    WipedHost(c, name);
    forall d | d in c'.drivers ensures DriverInv(c'.dag, c'.trees, c'.hosts, c'.drivers[d]) {
      DriverMonotone(c.dag, c.trees, c.hosts, c'.hosts, c.drivers[d]);
    }
    forall o | o in c'.sessions ensures SessionOk(c', c'.sessions[o]) {
      var s := c.sessions[o];
      assert SessionOk(c, s);
      if s.host == name {
        SessionOutlivesWipe(c.dag, c.hosts[name], c.drivers[s.driver], s);
      }
    }
  }

  // ----- Planning extends the graph -----

  ghost predicate Extends(g: Dag, trees: map<Oid, Tree>, g': Dag, trees': map<Oid, Tree>) {
    && g.Acyclic() && g'.Acyclic() && trees.Keys == g.parents.Keys && trees'.Keys == g'.parents.Keys
    && (forall x :: x in g.parents ==> x in g'.parents && g'.parents[x] == g.parents[x])
    && (forall x :: x in trees ==> x in trees' && trees'[x] == trees[x])
  }

  lemma HostExtends(g: Dag, trees: map<Oid, Tree>, g': Dag, trees': map<Oid, Tree>, name: Name, h: Host)
    requires Extends(g, trees, g', trees') && HostInv(g, trees, name, h)
    ensures HostInv(g', trees', name, h)
  {
    if h.current.Some? {
      forall y | y in h.line ensures g'.Reaches(h.current.value, y) {
        ReachesStable(g, g', h.current.value, y);
      }
      ReachesStable(g, g', h.target.value, h.current.value);
    }
    hide Dag.Reaches;
  }

  lemma PlanExtends(g: Dag, trees: map<Oid, Tree>, g': Dag, trees': map<Oid, Tree>, hosts: map<Name, Host>,
                    store: set<Oid>, p: PlanRecord)
    requires Extends(g, trees, g', trees') && store <= g.parents.Keys && PlanInv(g, trees, hosts, store, p)
    ensures PlanInv(g', trees', hosts, store, p)
  {
    hide SafeHostChange;
    forall h | h in p.expected && p.expected[h].Some? ensures g'.DescendantOf(p.commit, p.expected[h].value) {
      ReachesStable(g, g', p.commit, p.expected[h].value);
    }
    hide Dag.Reaches;
  }

  lemma DriverExtends(g: Dag, trees: map<Oid, Tree>, g': Dag, trees': map<Oid, Tree>, hosts: map<Name, Host>, d: Driver)
    requires Extends(g, trees, g', trees') && DriverInv(g, trees, hosts, d)
    ensures DriverInv(g', trees', hosts, d)
  {
    forall p | p in d.plans ensures PlanInv(g', trees', hosts, d.store, p) {
      PlanExtends(g, trees, g', trees', hosts, d.store, p);
    }
    hide PlanInv;
  }

  /** What a plan says of one host. */
  lemma PlannedHost(repo: Repo, config: Tree, filter: HostFilter, draft: DraftPlan, h: Name)
    requires repo.Valid() && config.Dir? && IsPlan(repo, config, filter, draft) && h in draft.hosts
    ensures h in config.entries && config.entries[h].Dir?
    ensures draft.hosts[h].expectedCurrent == repo.ExpectedCurrent(h)
    ensures draft.hosts[h].isRollbackSafe <==> SafeHostChange(TrackedApps(repo, h), TreeEntries(config.entries[h]))
    ensures repo.ExpectedCurrent(h).Some? ==> repo.ExpectedCurrent(h).value in ExpectedCommits(repo, draft.hosts.Keys)
  {
    hide IsAppPlans, SafeHostChange, Maximal, Dag.Reaches;
    var target := Selected(config, filter)[h];
    assert IsHostPlan(repo, h, target, draft.hosts[h]);
    PlansVerdict(TrackedApps(repo, h), TreeEntries(target), draft.hosts[h].apps);
  }

  lemma PlanParents(repo: Repo, config: Tree, filter: HostFilter, draft: DraftPlan, e: Oid) returns (p: Oid)
    requires repo.Valid() && IsPlan(repo, config, filter, draft) && e in ExpectedCommits(repo, draft.hosts.Keys)
    ensures p in Elements(draft.parents) && p in repo.dag.parents && repo.dag.Reaches(p, e)
  {
    hide IsHostPlan, Dag.Reaches, ExpectedCommits;
    var commits := ExpectedCommits(repo, draft.hosts.Keys);
    FrontierCovers(repo.dag, commits);
    hide Maximal;
    p :| p in Maximal(repo.dag, commits) && repo.dag.Reaches(p, e);
  }

  lemma ParentsExpected(repo: Repo, config: Tree, filter: HostFilter, draft: DraftPlan)
    requires repo.Valid() && IsPlan(repo, config, filter, draft)
    ensures Elements(draft.parents) <= ExpectedCommits(repo, draft.hosts.Keys)
  {
  }

  /** The frontier parents make the plan's commit a descendant of every expected commit. */
  lemma {:induction false} PlanCommitDescends(c: Cluster, driver: DriverId, config: Tree, filter: HostFilter,
                                              draft: DraftPlan, commit: Oid, c': Cluster, h: Name)
    requires Graph(c) && PlanStep(c, driver, config, filter, draft, commit, c') && h in draft.hosts
    ensures var e := draft.hosts[h].expectedCurrent;
            e.Some? ==> e.value in c.dag.parents && c'.dag.DescendantOf(commit, e.value)
  {
    hide IsPlan, ValidConfig, SafeHostChange, ExpectedCommits, Dag.Reaches;
    var repo := RepoOf(c, c.drivers[driver]);
    PlannedHost(repo, config, filter, draft, h);
    if draft.hosts[h].expectedCurrent.Some? {
      var e := repo.ExpectedCurrent(h).value;
      var p := PlanParents(repo, config, filter, draft, e);
      DescendsByParent(c.dag, c'.dag, commit, p, e);
    }
  }

  lemma DescendsByParent(g: Dag, g': Dag, commit: Oid, p: Oid, e: Oid)
    requires g.Acyclic() && g'.Acyclic() && p in g.parents && g.Reaches(p, e)
    requires forall x :: x in g.parents ==> x in g'.parents && g'.parents[x] == g.parents[x]
    requires commit !in g.parents && commit in g'.parents && p in g'.parents[commit]
    ensures e in g.parents && g'.DescendantOf(commit, e)
  {
    ReachesStable(g, g', p, e);
    ReachesKnown(g, p, e);
  }

  lemma PlanVerdictAt(c: Cluster, driver: DriverId, config: Tree, filter: HostFilter, draft: DraftPlan,
                      commit: Oid, c': Cluster, h: Name)
    requires Graph(c) && PlanStep(c, driver, config, filter, draft, commit, c') && h in draft.hosts
    ensures HasEntry(c'.trees, commit, h)
    ensures draft.hosts[h].isRollbackSafe <==>
              SafeHostChange(AppsAt(c'.trees, h, draft.hosts[h].expectedCurrent), AppsAt(c'.trees, h, Some(commit)))
  {
    hide IsPlan, ValidConfig, SafeHostChange, ExpectedCommits, Dag.Reaches, Dag.Acyclic, TreeEntries;
    var repo := RepoOf(c, c.drivers[driver]);
    PlannedHost(repo, config, filter, draft, h);
    assert AppsAt(c'.trees, h, Some(commit)) == TreeEntries(config.entries[h]);
    assert AppsAt(c'.trees, h, repo.ExpectedCurrent(h)) == TrackedApps(repo, h);
  }

  lemma NewPlan(c: Cluster, driver: DriverId, config: Tree, filter: HostFilter, draft: DraftPlan, commit: Oid,
                c': Cluster)
    requires Inv(c) && PlanStep(c, driver, config, filter, draft, commit, c')
    ensures var d' := c'.drivers[driver];
            Closed(c'.dag, d'.store) && PlanInv(c'.dag, c'.trees, c.hosts, d'.store, FinalizedPlan(draft, commit))
  {
    var d, d', repo := c.drivers[driver], c'.drivers[driver], RepoOf(c, c.drivers[driver]);
    var p := FinalizedPlan(draft, commit);
    hide IsPlan, ValidConfig, SafeHostChange, ExpectedCommits, HostInv, SessionInv, LockInv, Exclusive, PlanInv;
    hide Dag.Reaches;
    assert DriverInv(c.dag, c.trees, c.hosts, d);
    ParentsExpected(repo, config, filter, draft);
    assert Elements(draft.parents) <= d.store by { ExpectedInStore(c, d, draft.hosts.Keys); }
    forall h | h in p.expected
      ensures && h in c.hosts && HasEntry(c'.trees, commit, h)
              && (p.expected[h].Some? ==>
                    && p.expected[h].value in d'.store && p.expected[h].value in c.hosts[h].past
                    && c'.dag.DescendantOf(p.commit, p.expected[h].value))
              && (p.safe[h] <==>
                  SafeHostChange(AppsAt(c'.trees, h, p.expected[h]), AppsAt(c'.trees, h, Some(p.commit))))
    {
      PlanCommitDescends(c, driver, config, filter, draft, commit, c', h);
      PlanVerdictAt(c, driver, config, filter, draft, commit, c', h);
      PlannedHost(repo, config, filter, draft, h);
      hide AppsAt, HasEntry, Inv;
    }
    hide AppsAt, HasEntry, Inv;
    PlanIntro(c'.dag, c'.trees, c.hosts, d'.store, p);
  }

  lemma PlanIntro(dag: Dag, trees: map<Oid, Tree>, hosts: map<Name, Host>, store: set<Oid>, p: PlanRecord)
    requires dag.Acyclic() && store <= dag.parents.Keys && p.commit in store && p.safe.Keys == p.expected.Keys
    requires forall h :: h in p.expected ==>
         && h in hosts && HasEntry(trees, p.commit, h)
         && (p.expected[h].Some? ==>
               && p.expected[h].value in store && p.expected[h].value in hosts[h].past
               && dag.DescendantOf(p.commit, p.expected[h].value))
         && (p.safe[h] <==> SafeHostChange(AppsAt(trees, h, p.expected[h]), AppsAt(trees, h, Some(p.commit))))
    ensures PlanInv(dag, trees, hosts, store, p)
  {
  }

  lemma ExpectedInStore(c: Cluster, d: Driver, hs: set<Name>)
    requires Graph(c) && DriverInv(c.dag, c.trees, c.hosts, d)
    ensures ExpectedCommits(RepoOf(c, d), hs) <= d.store
  {
  }

  lemma HostsExtend(c: Cluster, c': Cluster)
    requires Graph(c) && HostsInv(c) && Extends(c.dag, c.trees, c'.dag, c'.trees) && c'.hosts == c.hosts
    ensures HostsInv(c')
  {
    hide HostInv, Extends;
    assert Graph(c') by { ExtendedGraph(c, c'); }
    forall h | h in c'.hosts ensures HostInv(c'.dag, c'.trees, h, c'.hosts[h]) {
      HostExtends(c.dag, c.trees, c'.dag, c'.trees, h, c.hosts[h]);
    }
  }

  lemma ExtendedGraph(c: Cluster, c': Cluster)
    requires Extends(c.dag, c.trees, c'.dag, c'.trees)
    ensures Graph(c')
  {
  }

  lemma SessionsExtend(c: Cluster, c': Cluster, driver: DriverId)
    requires Graph(c) && SessionsInv(c) && Extends(c.dag, c.trees, c'.dag, c'.trees)
    requires c'.hosts == c.hosts && c'.sessions == c.sessions && driver in c.drivers
    requires driver in c'.drivers && c'.drivers == c.drivers[driver := c'.drivers[driver]]
    requires c.drivers[driver].store <= c'.drivers[driver].store
    requires c.drivers[driver].plans <= c'.drivers[driver].plans
    ensures SessionsInv(c')
  {
  }

  lemma {:induction false} PlanKeeps(c: Cluster, driver: DriverId, config: Tree, filter: HostFilter, draft: DraftPlan,
                                     commit: Oid, c': Cluster)
    requires Inv(c) && PlanStep(c, driver, config, filter, draft, commit, c')
    ensures Inv(c')
  {
    hide IsPlan, ValidConfig, HostInv, DriverInv, SessionInv, LockInv, PlanInv, Dag.Reaches, Exclusive, Closed, AppsAt;
    hide SafeHostChange;
    hide HasEntry, ExpectedCommits, Extends, IsBuilt;
    NewPlan(c, driver, config, filter, draft, commit, c');
    PlanStepExtends(c, driver, config, filter, draft, commit, c');
    HostsExtend(c, c');
    SessionsExtend(c, c', driver);
    forall x | x in c'.drivers ensures DriverInv(c'.dag, c'.trees, c'.hosts, c'.drivers[x]) {
      hide HostsInv, SessionsInv, Extends;
      DriverExtends(c.dag, c.trees, c'.dag, c'.trees, c.hosts, c.drivers[x]);
      if x == driver {
        PlannerKept(c'.dag, c'.trees, c.hosts, c.drivers[x], c'.drivers[x], FinalizedPlan(draft, commit));
      }
    }
  }

  lemma PlanStepExtends(c: Cluster, driver: DriverId, config: Tree, filter: HostFilter, draft: DraftPlan, commit: Oid,
                        c': Cluster)
    requires Graph(c) && PlanStep(c, driver, config, filter, draft, commit, c')
    ensures Extends(c.dag, c.trees, c'.dag, c'.trees)
  {
    hide IsPlan, ValidConfig, IsBuilt, Dag.Acyclic;
  }

  lemma PlannerKept(dag: Dag, trees: map<Oid, Tree>, hosts: map<Name, Host>, d: Driver, d': Driver, p: PlanRecord)
    requires dag.Acyclic() && DriverInv(dag, trees, hosts, d) && d.store <= d'.store && Closed(dag, d'.store)
    requires d'.tracking == d.tracking && d'.plans == d.plans + {p} && PlanInv(dag, trees, hosts, d'.store, p)
    ensures DriverInv(dag, trees, hosts, d')
  {
  }

  lemma {:induction false} StepKeepsInv(c: Cluster, step: Step, c': Cluster)
    requires Inv(c) && NextBy(c, step, c')
    ensures Inv(c')
  {
    hide HostsInv, DriversInv, SessionsInv, Exclusive, Dag.Acyclic;
    hide PlanStep, ConnectStep, DisconnectStep, WipeStep, LocalStep, Taken;
    match step
    case Plans(driver, config, filter, draft, commit) => PlanKeeps(c, driver, config, filter, draft, commit, c');
    case Connects(sid, driver, host, command) => ConnectKeeps(c, sid, driver, host, command, c');
    case Disconnects(sid) => DisconnectKeeps(c, sid, c');
    case Wipes(host) => WipeKeeps(c, host, c');
    case _ =>
      var b :| && LocalStep(c.dag, c.trees, Taken(c, c.sessions[step.sid].host), step, LocalAt(c, step.sid), b)
               && c' == Updated(c, step.sid, b);
      SessionStepKeeps(c, step.sid, step, b);
  }

  // ----- Runs -----

  const FRESH_HOST := Host({}, None, None, None, {}, {})

  const FRESH_DRIVER := Driver({}, map[], {})

  ghost predicate Init(c: Cluster) {
    && c.dag == Dag(map[], map[]) && c.trees == map[] && c.sessions == map[]
    && (forall h :: h in c.hosts ==> c.hosts[h] == FRESH_HOST)
    && (forall d :: d in c.drivers ==> c.drivers[d] == FRESH_DRIVER)
  }

  /** `r[i]` goes to `r[i + 1]` by `steps[i]`. */
  ghost predicate IsRun(r: seq<Cluster>, steps: seq<Step>) {
    && |r| == |steps| + 1 && Init(r[0])
    && forall i :: 0 <= i < |steps| ==> Graph(r[i]) && NextBy(r[i], steps[i], r[i + 1])
  }

  lemma InitInv(c: Cluster)
    requires Init(c)
    ensures Inv(c)
  {
  }

  /** The invariant holds in every state of every run. */
  lemma {:induction false} RunKeepsInv(r: seq<Cluster>, steps: seq<Step>, i: nat)
    requires IsRun(r, steps) && i < |r|
    ensures Inv(r[i])
  {
    hide Inv, Init, NextBy;
    if i == 0 {
      InitInv(r[0]);
    } else {
      RunKeepsInv(r, steps, i - 1);
      StepKeepsInv(r[i - 1], steps[i - 1], r[i]);
    }
  }

  /** A step of a session grows its host's history, changes its refs only under the lock, and touches no other host. */
  lemma SessionStepHost(c: Cluster, step: Step, c': Cluster, h: Name)
    requires Inv(c) && NextBy(c, step, c') && IsSessionStep(step) && h in c.hosts
    ensures h in c'.hosts && c.hosts[h].past <= c'.hosts[h].past && c.hosts[h].line <= c'.hosts[h].line
    ensures c'.hosts[h] != c.hosts[h] ==>
              step.sid in c.sessions && c.sessions[step.sid].host == h && c.sessions[step.sid].HoldsLock()
  {
    hide Inv, LocalStep, Taken, Advances, LocalInv, Established, Session.HoldsLock, Dag.Acyclic;
    assert Graph(c) by { InvGraph(c); }
    var b := TakeStep(c, step, c');
    var busy := Taken(c, c.sessions[step.sid].host);
    SessionLocal(c, step.sid);
    LocalStepKeeps(c, busy, step, LocalAt(c, step.sid), b);
    Advanced(busy, LocalAt(c, step.sid), b);
  }

  /** The other steps leave hosts alone, but for a wipe, which needs every agent on the host gone. */
  lemma OtherStepHost(c: Cluster, step: Step, c': Cluster, h: Name)
    requires Graph(c) && NextBy(c, step, c') && !IsSessionStep(step) && h in c.hosts
    ensures h in c'.hosts && c.hosts[h].past == c'.hosts[h].past
    ensures step.Wipes? && step.host == h ==>
              c'.hosts[h].current.None? && forall o :: o in c.sessions && c.sessions[o].host == h ==>
                !c.sessions[o].AgentOpen()
    ensures !(step.Wipes? && step.host == h) ==> c'.hosts[h] == c.hosts[h]
  {
    hide PlanStep, Session.AgentOpen;
    if step.Plans? {
      PlanStepHosts(c, step.driver, step.config, step.filter, step.draft, step.commit, c');
    }
  }

  /** What a step does to one host: its history grows, or it is wiped while no agent runs on it. */
  lemma HostStep(c: Cluster, step: Step, c': Cluster, h: Name)
    requires Inv(c) && NextBy(c, step, c') && h in c.hosts
    ensures h in c'.hosts && c.hosts[h].past <= c'.hosts[h].past
    ensures !step.Wipes? ==> c.hosts[h].line <= c'.hosts[h].line
    ensures step.Wipes? && step.host == h ==>
              c'.hosts[h].current.None? && forall o :: o in c.sessions && c.sessions[o].host == h ==>
                !c.sessions[o].AgentOpen()
    ensures step.Wipes? && step.host != h ==> c'.hosts[h] == c.hosts[h]
    ensures c'.hosts[h] != c.hosts[h] && !step.Wipes? ==>
              && IsSessionStep(step) && step.sid in c.sessions && c.sessions[step.sid].host == h
              && c.sessions[step.sid].HoldsLock()
  {
    hide Inv, NextBy, Session.AgentOpen, Session.HoldsLock, Dag.Acyclic;
    InvGraph(c);
    if IsSessionStep(step) {
      SessionStepHost(c, step, c', h);
    } else {
      OtherStepHost(c, step, c', h);
    }
  }

  lemma InvGraph(c: Cluster)
    requires Inv(c)
    ensures Graph(c)
  {
  }

  lemma PlanStepHosts(c: Cluster, driver: DriverId, config: Tree, filter: HostFilter, draft: DraftPlan, commit: Oid,
                      c': Cluster)
    requires Graph(c) && PlanStep(c, driver, config, filter, draft, commit, c')
    ensures c'.hosts == c.hosts && c'.sessions == c.sessions
  {
  }

  lemma Advanced(busy: bool, a: Local, b: Local)
    requires Advances(busy, a, b)
    ensures b.session.host == a.session.host
    ensures a.host.line <= b.host.line && a.host.past <= b.host.past
    ensures !a.session.HoldsLock() ==> b.host == a.host
  {
  }

  /** At most one session per host is locked, and only that session's steps move the host's refs. */
  lemma {:induction false} OnlyTheLockMovesRefs(r: seq<Cluster>, steps: seq<Step>, i: nat, h: Name)
    requires IsRun(r, steps) && i < |steps| && h in r[i].hosts
    requires !(steps[i].Wipes? && steps[i].host == h)
    ensures h in r[i + 1].hosts
    ensures forall o, p :: LockedOn(r[i], o, h) && LockedOn(r[i], p, h) ==> o == p
    ensures r[i + 1].hosts[h] != r[i].hosts[h] ==>
              && IsSessionStep(steps[i]) && steps[i].sid in r[i].sessions
              && r[i].sessions[steps[i].sid].host == h && r[i].sessions[steps[i].sid].HoldsLock()
  {
    RunKeepsInv(r, steps, i);
    HostStep(r[i], steps[i], r[i + 1], h);
    hide NextBy, HostsInv, DriversInv, SessionsInv;
  }

  lemma {:induction false} LineGrows(r: seq<Cluster>, steps: seq<Step>, i: nat, j: nat, h: Name)
    requires IsRun(r, steps) && i <= j < |r| && h in r[i].hosts
    requires forall k :: i <= k < j ==> !(steps[k].Wipes? && steps[k].host == h)
    ensures h in r[j].hosts && r[i].hosts[h].line <= r[j].hosts[h].line
    decreases j
  {
    hide NextBy, Inv;
    if i < j {
      LineGrows(r, steps, i, j - 1, h);
      RunKeepsInv(r, steps, j - 1);
      HostStep(r[j - 1], steps[j - 1], r[j], h);
    }
  }

  /** Between wipes, `current` stays where it is or moves to strict descendants of itself. */
  lemma {:induction false} CurrentOnlyDescends(r: seq<Cluster>, steps: seq<Step>, i: nat, j: nat, h: Name)
    requires IsRun(r, steps) && i <= j < |r| && h in r[i].hosts
    requires forall k :: i <= k < j ==> !(steps[k].Wipes? && steps[k].host == h)
    requires r[i].hosts[h].current.Some?
    ensures h in r[j].hosts && r[j].hosts[h].current.Some? && Graph(r[j])
    ensures var x, y := r[i].hosts[h].current.value, r[j].hosts[h].current.value;
            y in r[j].dag.parents && (x == y || r[j].dag.DescendantOf(y, x))
  {
    RunKeepsInv(r, steps, i);
    RunKeepsInv(r, steps, j);
    LineGrows(r, steps, i, j, h);
    assert HostInv(r[i].dag, r[i].trees, h, r[i].hosts[h]);
    assert HostInv(r[j].dag, r[j].trees, h, r[j].hosts[h]);
    hide NextBy, Inv, Dag.Reaches;
  }

  lemma NewPastIsCurrent(c: Cluster, step: Step, c': Cluster, h: Name, x: Oid)
    requires Inv(c) && NextBy(c, step, c') && h in c.hosts && h in c'.hosts
    requires x in c'.hosts[h].past && x !in c.hosts[h].past
    ensures c'.hosts[h].current == Some(x)
  {
    hide Inv, PlanStep, Taken;
    assert Graph(c) by { InvGraph(c); }
    if step.Plans? {
      PlanStepHosts(c, step.driver, step.config, step.filter, step.draft, step.commit, c');
    } else if IsSessionStep(step) {
      var b :| && LocalStep(c.dag, c.trees, Taken(c, c.sessions[step.sid].host), step, LocalAt(c, step.sid), b)
               && c' == Updated(c, step.sid, b);
      hide PrepareDeploy, PrepareReapply, PackOf, Dag.Reaches;
    }
  }

  lemma {:induction false} PastWasCurrent(r: seq<Cluster>, steps: seq<Step>, i: nat, h: Name, x: Oid) returns (j: nat)
    requires IsRun(r, steps) && i < |r| && h in r[i].hosts && x in r[i].hosts[h].past
    ensures j <= i && h in r[j].hosts && r[j].hosts[h].current == Some(x)
    decreases i
  {
    hide NextBy, Inv;
    if i > 0 {
      RunKeepsInv(r, steps, i - 1);
      HostsStay(r[i - 1], steps[i - 1], r[i]);
    }
    if i > 0 && x in r[i - 1].hosts[h].past {
      j := PastWasCurrent(r, steps, i - 1, h, x);
    } else {
      if i > 0 {
        NewPastIsCurrent(r[i - 1], steps[i - 1], r[i], h, x);
      }
      j := i;
    }
  }

  lemma HostsStay(c: Cluster, step: Step, c': Cluster)
    requires Inv(c) && NextBy(c, step, c')
    ensures c'.hosts.Keys == c.hosts.Keys
  {
    hide Inv, NextBy, Graph;
    InvGraph(c);
    if IsSessionStep(step) {
      var b := TakeStep(c, step, c');
    } else {
      OtherStepKeys(c, step, c');
    }
  }

  lemma OtherStepKeys(c: Cluster, step: Step, c': Cluster)
    requires Graph(c) && NextBy(c, step, c') && !IsSessionStep(step)
    ensures c'.hosts.Keys == c.hosts.Keys
  {
    hide PlanStep, Session.AgentOpen, Dag.Acyclic;
    if step.Plans? {
      PlanStepHosts(c, step.driver, step.config, step.filter, step.draft, step.commit, c');
    }
  }

  /**
    A tracking ref never dangles: the driver has its commit and everything that
    commit reaches. And it is a commit that the host's `current` was at, at some
    earlier point of the run.
   */
  lemma {:induction false} TrackingRefsAreHonest(r: seq<Cluster>, steps: seq<Step>, i: nat, driver: DriverId, h: Name)
    returns (j: nat)
    requires IsRun(r, steps) && i < |r| && driver in r[i].drivers && h in r[i].drivers[driver].tracking
    ensures var commit := r[i].drivers[driver].tracking[h];
            && Graph(r[i]) && commit in r[i].dag.parents
            && Ancestry(r[i].dag, commit) <= r[i].drivers[driver].store
            && j <= i && h in r[j].hosts && r[j].hosts[h].current == Some(commit)
  {
    RunKeepsInv(r, steps, i);
    hide NextBy;
    var d := r[i].drivers[driver];
    assert DriverInv(r[i].dag, r[i].trees, r[i].hosts, d);
    forall a | a in Ancestry(r[i].dag, d.tracking[h]) ensures a in d.store {
      ClosedHolds(r[i].dag, d.store, d.tracking[h], a);
    }
    j := PastWasCurrent(r, steps, i, h, d.tracking[h]);
  }

  // ----- Assertions -----

  /** In no run does an assertion of the agent fire, except the one about a reapply's target ref. */
  lemma {:induction false} AssertionsHold(r: seq<Cluster>, steps: seq<Step>, i: nat, sid: SessionId)
    requires IsRun(r, steps) && i < |r| && sid in r[i].sessions && r[i].sessions[sid].phase.Panicked?
    ensures r[i].sessions[sid].phase.panic == ReapplyTarget && r[i].sessions[sid].command.Reapply?
  {
    RunKeepsInv(r, steps, i);
    assert SessionOk(r[i], r[i].sessions[sid]);
  }

  /** Exactly when it does fire: the host's target ref has diverged, whatever the Hello said. */
  lemma {:induction false} ReapplyAnswer(c: Cluster, sid: SessionId)
    requires Inv(c) && sid in c.sessions && c.sessions[sid].phase.Locked? && c.sessions[sid].command.Reapply?
    ensures SessionAt(c, sid) && c.sessions[sid].expected.Some?
    ensures var s := c.sessions[sid]; var h := c.hosts[s.host];
            var answer := PrepareReapply(c.trees, s.host, h, s.expected.value);
            && (answer == Panics(ReapplyTarget) <==>
                  ReadableChange(map[], AppsAt(c.trees, s.host, s.expected)) && h.target != h.current)
            && (answer.Panics? ==> answer == Panics(ReapplyTarget))
            && (answer.Ready? ==> h.current == s.expected && h.target == s.expected)
  {
  }

  /**
    And it can fire: a reapply that connected while a deploy was in flight. The
    Hello shows equal refs; the deploy then sets `target`, fails and lets go of
    the lock; the reapply locks, passes the driver's check, and trips the agent's.
   */
  lemma {:induction false} ReapplyAssertionCanFire(c: Cluster, a: SessionId, b: SessionId)
    returns (states: seq<Cluster>, steps: seq<Step>)
    requires Inv(c) && ReapplyRaces(c, a, b)
    ensures |states| == 5 && |steps| == 4 && states[0] == c
    ensures forall i :: 0 <= i < 4 ==> Graph(states[i]) && NextBy(states[i], steps[i], states[i + 1])
    ensures a in states[4].sessions && states[4].sessions[a].phase == Panicked(ReapplyTarget)
  {
    hide Inv, Graph, NextBy, ReapplyRaces, ReapplyWaits, Session.HoldsLock;
    RaceFacts(c, a, b);
    var c1, c2 := FailAndLeave(c, b);
    var c3, c4 := LockAndPanic(c2, a);
    states, steps := [c, c1, c2, c3, c4], [FailsApply(b), Disconnects(b), Locks(a), Prepares(a)];
    forall i | 0 <= i < 4 ensures Graph(states[i]) && NextBy(states[i], steps[i], states[i + 1]) {
      assert i == 0 || i == 1 || i == 2 || i == 3;
    }
  }

  /** `a` has connected for a reapply, with equal refs in its Hello, and `b` is applying a deploy on the same host. */
  ghost predicate ReapplyRaces(c: Cluster, a: SessionId, b: SessionId) {
    && a in c.sessions && b in c.sessions && a != b
    && var s := c.sessions[a];
       && s.phase.Connected? && s.command.Reapply? && s.helloTarget == s.helloCurrent == s.expected
       && ReadableChange(map[], AppsAt(c.trees, s.host, s.expected))
       && c.sessions[b].host == s.host && c.sessions[b].phase.Prepared? && c.sessions[b].command.Deploy?
       && s.host in c.hosts && c.hosts[s.host].current == s.expected
  }

  ghost predicate ReapplyWaits(c: Cluster, a: SessionId)
    requires Graph(c)
  {
    && SessionAt(c, a)
    && (forall o :: !LockedOn(c, o, c.sessions[a].host))
    && var s := c.sessions[a]; var h := c.hosts[s.host];
       && s.phase.Connected? && s.command.Reapply? && s.helloTarget == s.helloCurrent && s.expected.Some?
       && LockResult(c.trees, s.host, h, false, s.expected) == Granted
       && PrepareReapply(c.trees, s.host, h, s.expected.value) == Panics(ReapplyTarget)
  }

  lemma RaceFacts(c: Cluster, a: SessionId, b: SessionId)
    requires Inv(c) && ReapplyRaces(c, a, b)
    ensures Graph(c) && SessionAt(c, b) && c.sessions[b].phase.Prepared?
    ensures ReapplyWaits(c.(sessions := c.sessions - {b}), a)
  {
  }

  lemma FailAndLeave(c: Cluster, b: SessionId) returns (c1: Cluster, c2: Cluster)
    requires Graph(c) && SessionAt(c, b) && c.sessions[b].phase.Prepared?
    ensures Graph(c1) && Graph(c2) && NextBy(c, FailsApply(b), c1) && NextBy(c1, Disconnects(b), c2)
    ensures c2 == c.(sessions := c.sessions - {b})
  {
    hide Dag.Acyclic, Taken;
    var t := c.sessions[b];
    var failed := Local(t.(phase := Failed), c.hosts[t.host], c.drivers[t.driver]);
    c1 := Updated(c, b, failed);
    ByFail(c, b, failed);
    c2 := c1.(sessions := c1.sessions - {b});
    assert c1.hosts == c.hosts && c1.drivers == c.drivers && c1.sessions - {b} == c.sessions - {b};
  }

  lemma LockAndPanic(c: Cluster, a: SessionId) returns (c1: Cluster, c2: Cluster)
    requires Graph(c) && ReapplyWaits(c, a)
    ensures Graph(c1) && NextBy(c, Locks(a), c1) && NextBy(c1, Prepares(a), c2)
    ensures a in c2.sessions && c2.sessions[a].phase == Panicked(ReapplyTarget)
  {
    var s, h := c.sessions[a], c.hosts[c.sessions[a].host];
    assert !Taken(c, s.host);
    hide Dag.Acyclic, Taken, LockResult, PrepareReapply;
    var locked := Local(s.(phase := Locked), h, c.drivers[s.driver]);
    c1 := Updated(c, a, locked);
    ByLock(c, a, locked);
    assert c1.hosts == c.hosts && c1.drivers == c.drivers;
    var panicked := Local(s.(phase := Panicked(ReapplyTarget)), h, c.drivers[s.driver]);
    c2 := Updated(c1, a, panicked);
    ByPrepare(c1, a, panicked);
  }

  lemma ByFail(c: Cluster, sid: SessionId, b: Local)
    requires Graph(c) && SessionAt(c, sid) && FailStep(LocalAt(c, sid), b)
    ensures LocalStep(c.dag, c.trees, Taken(c, c.sessions[sid].host), FailsApply(sid), LocalAt(c, sid), b)
  {
  }

  lemma ByLock(c: Cluster, sid: SessionId, b: Local)
    requires Graph(c) && SessionAt(c, sid) && LockStep(c.trees, false, LocalAt(c, sid), b)
    ensures LocalStep(c.dag, c.trees, false, Locks(sid), LocalAt(c, sid), b)
  {
  }

  lemma ByPrepare(c: Cluster, sid: SessionId, b: Local)
    requires Graph(c) && SessionAt(c, sid) && PrepareReapplyStep(c.trees, LocalAt(c, sid), b)
    ensures LocalStep(c.dag, c.trees, Taken(c, c.sessions[sid].host), Prepares(sid), LocalAt(c, sid), b)
  {
  }

  // ----- Refs -----

  /** Wherever `current` is set, `target` is set, to the same commit or to a strict descendant. */
  lemma {:induction false} RefDiscipline(r: seq<Cluster>, steps: seq<Step>, i: nat, h: Name)
    requires IsRun(r, steps) && i < |r| && h in r[i].hosts && r[i].hosts[h].current.Some?
    ensures Graph(r[i]) && r[i].hosts[h].target.Some?
    ensures var current, target := r[i].hosts[h].current.value, r[i].hosts[h].target.value;
            target in r[i].dag.parents && (target == current || r[i].dag.DescendantOf(target, current))
  {
    RunKeepsInv(r, steps, i);
    assert HostInv(r[i].dag, r[i].trees, h, r[i].hosts[h]);
  }

  /** When `ApplyComplete` is sent both refs are at the deployed commit, and a reapply past its checks moves neither. */
  lemma {:induction false} ApplyRefs(r: seq<Cluster>, steps: seq<Step>, i: nat, sid: SessionId)
    requires IsRun(r, steps) && i < |r| && sid in r[i].sessions
    ensures SessionAt(r[i], sid)
    ensures var s, h := r[i].sessions[sid], r[i].hosts[r[i].sessions[sid].host];
            && (s.phase.Completed? ==> s.Commit().Some? && h.current == s.Commit() && h.target == s.Commit())
            && (s.phase.Prepared? && s.command.Reapply? ==>
                  && s.Commit() == s.expected && h.current == s.expected && h.target == s.expected
                  && forall b :: MoveStep(LocalAt(r[i], sid), b) ==>
                      b.host.current == h.current && b.host.target == h.target)
  {
    RunKeepsInv(r, steps, i);
    assert SessionOk(r[i], r[i].sessions[sid]);
    hide Inv, SessionInv;
  }

  // ----- Stale hosts -----

  /** Without wipes a host's line is its whole past. */
  lemma {:induction false} NoWipesLine(r: seq<Cluster>, steps: seq<Step>, i: nat, h: Name)
    requires IsRun(r, steps) && i < |r| && h in r[i].hosts
    requires forall k :: 0 <= k < i ==> !(steps[k].Wipes? && steps[k].host == h)
    ensures r[i].hosts[h].line == r[i].hosts[h].past
    decreases i
  {
    hide NextBy, Inv;
    if i > 0 {
      RunKeepsInv(r, steps, i - 1);
      HostsStay(r[i - 1], steps[i - 1], r[i]);
      NoWipesLine(r, steps, i - 1, h);
      HostStep(r[i - 1], steps[i - 1], r[i], h);
      RunKeepsInv(r, steps, i);
      forall x | x in r[i].hosts[h].past ensures x in r[i].hosts[h].line {
        if x !in r[i - 1].hosts[h].past {
          NewPastIsCurrent(r[i - 1], steps[i - 1], r[i], h, x);
          HostLine(r[i], h);
        }
      }
      assert r[i].hosts[h].line <= r[i].hosts[h].past by { LineInPast(r[i], h); }
    }
  }

  lemma LineInPast(c: Cluster, h: Name)
    requires Inv(c) && h in c.hosts
    ensures c.hosts[h].line <= c.hosts[h].past
  {
  }

  /**
    The session's request for objects is answered: the host has the `have`
    commit, and the driver's store with what is sent holds the reported commit
    and is closed under ancestry.
   */
  ghost predicate FetchAnswered(c: Cluster, sid: SessionId, s': Session)
    requires Graph(c) && SessionAt(c, sid)
  {
    var s := c.sessions[sid];
    var d := c.drivers[s.driver];
    && (s.expected.Some? ==> s.expected.value in c.hosts[s.host].store)
    && s'.phase.Fetching? && s.phase.Stale? && s.phase.actual == Some(s'.phase.reported)
    && s'.phase.reported in d.store + s'.phase.pack
    && Closed(c.dag, d.store + s'.phase.pack)
  }

  lemma AnsweredAt(c: Cluster, sid: SessionId, busy: bool, b: Local)
    requires Graph(c) && SessionAt(c, sid) && LocalInv(c, LocalAt(c, sid)) && SendStep(c.dag, LocalAt(c, sid), b)
    requires var s := c.sessions[sid]; s.expected.Some? ==> s.expected.value in c.hosts[s.host].line
    ensures FetchAnswered(c, sid, b.session)
  {
    var a := LocalAt(c, sid);
    SendKeeps(c, busy, a, b);
    SendCloses(c, a, b);
    FetchReports(c, a, b);
    hide LocalInv, Established, SendStep, Closed;
  }

  lemma FetchReports(c: Cluster, a: Local, b: Local)
    requires Graph(c) && LocalInv(c, a) && SendStep(c.dag, a, b) && Established(c, b)
    ensures a.session.phase.Stale?
    ensures b.session.phase.Fetching? ==> a.session.phase.actual == Some(b.session.phase.reported)
    ensures b.session.phase.Fetching? ==> b.session.phase.reported in a.driver.store + b.session.phase.pack
    ensures b.host == a.host && b.driver == a.driver && b.session.host == a.session.host
  {
    hide HostInv, DriverInv, LockInv, PackOf, Dag.Acyclic;
  }

  /**
    If the driver's `have` commit was on the host's line at some state, and the
    host was not wiped since, a request for objects is answered with a pack.
    Whatever the host's `current` has become since it was reported, the driver's
    store with that pack holds the reported commit and is closed under ancestry.
   */
  lemma {:induction false} StaleFetchCompletes(r: seq<Cluster>, steps: seq<Step>, i: nat, j: nat)
    requires IsRun(r, steps) && j <= i < |steps| && steps[i].SendsPack? && steps[i].sid in r[i].sessions
    requires var s := r[i].sessions[steps[i].sid];
             && s.host in r[j].hosts && (s.expected.Some? ==> s.expected.value in r[j].hosts[s.host].line)
             && forall k :: j <= k < i ==> !(steps[k].Wipes? && steps[k].host == s.host)
    ensures var sid := steps[i].sid;
            && SessionAt(r[i], sid) && sid in r[i + 1].sessions && FetchAnswered(r[i], sid, r[i + 1].sessions[sid])
  {
    hide Inv, NextBy, Taken, LocalInv, Closed, FetchAnswered, Init, PackOf, Dag.Reaches;
    RunKeepsInv(r, steps, i);
    var c, sid := r[i], steps[i].sid;
    InvGraph(c);
    var b := TakeStep(c, steps[i], r[i + 1]);
    LineGrows(r, steps, j, i, c.sessions[sid].host);
    SessionLocal(c, sid);
    AnsweredAt(c, sid, Taken(c, c.sessions[sid].host), b);
  }

  /** So on a host that was never wiped, every request for objects is answered. */
  lemma {:induction false} UnwipedFetchCompletes(r: seq<Cluster>, steps: seq<Step>, i: nat)
    requires IsRun(r, steps) && i < |steps| && steps[i].SendsPack? && steps[i].sid in r[i].sessions
    requires forall k :: 0 <= k < i ==> !(steps[k].Wipes? && steps[k].host == r[i].sessions[steps[i].sid].host)
    ensures steps[i].sid in r[i + 1].sessions && r[i + 1].sessions[steps[i].sid].phase.Fetching?
  {
    RunKeepsInv(r, steps, i);
    hide NextBy, Taken, LocalStep, Init, DriversInv, HostsInv;
    var b := TakeStep(r[i], steps[i], r[i + 1]);
    var s := r[i].sessions[steps[i].sid];
    assert SessionOk(r[i], s);
    NoWipesLine(r, steps, i, s.host);
    StaleFetchCompletes(r, steps, i, i);
  }

  /** A session's step, by what it does to its session, host and driver. */
  lemma TakeStep(c: Cluster, step: Step, c': Cluster) returns (b: Local)
    requires Graph(c) && NextBy(c, step, c') && IsSessionStep(step)
    ensures SessionAt(c, step.sid) && c' == Updated(c, step.sid, b)
    ensures LocalStep(c.dag, c.trees, Taken(c, c.sessions[step.sid].host), step, LocalAt(c, step.sid), b)
  {
    hide LocalStep, Taken;
    b :| && LocalStep(c.dag, c.trees, Taken(c, c.sessions[step.sid].host), step, LocalAt(c, step.sid), b)
         && c' == Updated(c, step.sid, b);
  }

  lemma SendCloses(c: Cluster, a: Local, b: Local)
    requires Graph(c) && LocalInv(c, a) && Established(c, b) && b.host == a.host && b.driver == a.driver
    requires b.session.host == a.session.host && a.session.expected.Some? ==> a.session.expected.value in a.host.past
    ensures a.session.expected.Some? ==> a.session.expected.value in a.host.past
    ensures a.host.line <= a.host.store
    ensures b.session.phase.Fetching? ==> Closed(c.dag, a.driver.store + b.session.phase.pack)
  {
  }

  /** What a driver last learned of a host: its tracking ref is at the reported commit, or gone for a wiped host. */
  ghost predicate Learned(d: Driver, h: Name, reported: Option<Oid>) {
    match reported
    case None => h !in d.tracking
    case Some(commit) => h in d.tracking && d.tracking[h] == commit
  }

  /** A stale fetch that succeeds leaves the tracking ref at what the host reported. */
  lemma {:induction false} StaleFetchTeaches(r: seq<Cluster>, steps: seq<Step>, i: nat)
    requires IsRun(r, steps) && i < |steps| && (steps[i].TracksStale? || steps[i].DropsRef?)
    ensures SessionAt(r[i], steps[i].sid)
    ensures var s := r[i].sessions[steps[i].sid];
            && s.driver in r[i + 1].drivers
            && Learned(r[i + 1].drivers[s.driver], s.host,
                       if s.phase.Fetched? then Some(s.phase.reported) else None)
            && (s.phase.Fetched? ==> HasEntry(r[i].trees, s.phase.reported, s.host))
  {
    hide NextBy, Init, Inv, Taken, LocalInv, LocalStep, Learned, Dag.Acyclic;
    RunKeepsInv(r, steps, i);
    InvGraph(r[i]);
    var b := TakeStep(r[i], steps[i], r[i + 1]);
    SessionLocal(r[i], steps[i].sid);
    StaleTaught(r[i], Taken(r[i], r[i].sessions[steps[i].sid].host), steps[i], LocalAt(r[i], steps[i].sid), b);
  }

  lemma StaleTaught(c: Cluster, busy: bool, step: Step, a: Local, b: Local)
    requires Graph(c) && LocalInv(c, a) && (step.TracksStale? || step.DropsRef?)
    requires LocalStep(c.dag, c.trees, busy, step, a, b)
    ensures Learned(b.driver, a.session.host, if a.session.phase.Fetched? then Some(a.session.phase.reported) else None)
    ensures a.session.phase.Fetched? ==> HasEntry(c.trees, a.session.phase.reported, a.session.host)
  {
    hide DriverInv, Closed, Dag.Reaches, HasEntry;
  }

  /**
    Forward progress: once a driver has learned what a host reported, its next
    plan leaves the host out, because it is up to date, or expects exactly the
    reported commit. The lock then finds the host stale only if its `current`
    has moved since; otherwise it is granted, or somebody else holds it.
   */
  lemma {:induction false} NextPlanExpectsReported(r: seq<Cluster>, steps: seq<Step>, i: nat, j: nat, driver: DriverId,
                                                   h: Name, reported: Option<Oid>, config: Tree, filter: HostFilter,
                                                   draft: DraftPlan, busy: bool)
    requires IsRun(r, steps) && i < |r| && j < |r| && driver in r[i].drivers && h in r[j].hosts
    requires h in Selected(config, filter)
    requires Graph(r[i]) && config.Dir?
    requires Learned(r[i].drivers[driver], h, reported)
    requires IsPlan(RepoOf(r[i], r[i].drivers[driver]), config, filter, draft)
    ensures h in draft.hosts ==> draft.hosts[h].expectedCurrent == reported
    ensures h !in draft.hosts ==>
              reported.Some? && !NeedsDeploy(RepoOf(r[i], r[i].drivers[driver]), h, Selected(config, filter)[h])
    ensures var answer := LockResult(r[j].trees, h, r[j].hosts[h], busy, reported);
            && !answer.HostnameChanged?
            && (answer.LockStale? <==> !busy && r[j].hosts[h].current != reported)
            && (answer.Granted? <==> !busy && r[j].hosts[h].current == reported)
  {
    RunKeepsInv(r, steps, i);
    RunKeepsInv(r, steps, j);
    var d := r[i].drivers[driver];
    assert DriverInv(r[i].dag, r[i].trees, r[i].hosts, d);
    assert HostInv(r[j].dag, r[j].trees, h, r[j].hosts[h]);
    if reported.Some? {
      assert HostInv(r[i].dag, r[i].trees, h, r[i].hosts[h]);
      assert HasEntry(r[i].trees, reported.value, h);
    }
    hide Inv, IsRun, Dag.Acyclic, Dag.Reaches, IsAppPlans, Maximal, PlanInv;
    if h in draft.hosts {
      assert IsHostPlan(RepoOf(r[i], d), h, Selected(config, filter)[h], draft.hosts[h]);
    }
  }

  /**
    Exactly when a request for objects cannot be met: the host does not have the
    driver's tracked commit, which takes a wipe. The driver is left as it was.
   */
  lemma {:induction false} FetchRefused(c: Cluster, sid: SessionId, b: Local)
    requires Inv(c) && SessionAt(c, sid) && SendStep(c.dag, LocalAt(c, sid), b)
    ensures var s, h := c.sessions[sid], c.hosts[c.sessions[sid].host];
            && (b.session.phase.Fetching? <==> s.expected.None? || s.expected.value in h.store)
            && (!b.session.phase.Fetching? ==>
                  && b.session.phase.Ended? && b.driver == c.drivers[s.driver]
                  && s.expected.value in h.past && s.expected.value !in h.line)
  {
  }

  /** A step that may move what a driver tracks of a host: one of its own sessions on that host comes to its end. */
  ghost predicate MovesTracking(c: Cluster, step: Step, driver: DriverId, h: Name) {
    && (step.Tracks? || step.TracksStale? || step.DropsRef?)
    && step.sid in c.sessions && c.sessions[step.sid].driver == driver && c.sessions[step.sid].host == h
  }

  lemma TrackingStays(c: Cluster, step: Step, c': Cluster, driver: DriverId, h: Name)
    requires Graph(c) && NextBy(c, step, c') && driver in c.drivers && !MovesTracking(c, step, driver, h)
    ensures driver in c'.drivers
    ensures h in c'.drivers[driver].tracking <==> h in c.drivers[driver].tracking
    ensures h in c.drivers[driver].tracking ==> c'.drivers[driver].tracking[h] == c.drivers[driver].tracking[h]
  {
    hide Taken, Dag.Acyclic, LocalStep, IsPlan, ValidConfig;
    if IsSessionStep(step) {
      hide NextBy;
      var b := TakeStep(c, step, c');
      LocalTracking(c.dag, c.trees, Taken(c, c.sessions[step.sid].host), step, LocalAt(c, step.sid), b);
    }
  }

  /** Only three kinds of steps move a tracking ref, and only that of their host. */
  lemma LocalTracking(dag: Dag, trees: map<Oid, Tree>, busy: bool, step: Step, a: Local, b: Local)
    requires dag.Acyclic() && LocalStep(dag, trees, busy, step, a, b)
    ensures !step.Tracks? && !step.DropsRef? && !step.TracksStale? ==> b.driver.tracking == a.driver.tracking
    ensures forall h :: h != a.session.host ==>
              (h in b.driver.tracking <==> h in a.driver.tracking)
              && (h in a.driver.tracking ==> b.driver.tracking[h] == a.driver.tracking[h])
  {
    hide Dag.Acyclic, PackOf, PrepareDeploy, PrepareReapply, LockResult;
  }

  /**
    As long as none of the driver's sessions on the host moves it, the tracking
    ref stays; every plan and every connection then expects that commit of the
    host, and every request for objects relative to it is refused again while
    the host's store lacks it.
   */
  lemma {:induction false} RefusedAgain(r: seq<Cluster>, steps: seq<Step>, i: nat, k: nat, driver: DriverId, h: Name)
    requires IsRun(r, steps) && i <= k < |steps| && driver in r[i].drivers && h in r[i].drivers[driver].tracking
    requires forall m :: i <= m < k ==> !MovesTracking(r[m], steps[m], driver, h)
    ensures driver in r[k].drivers && h in r[k].drivers[driver].tracking
    ensures var x := r[i].drivers[driver].tracking[h];
            && r[k].drivers[driver].tracking[h] == x
            && (steps[k].Plans? && steps[k].driver == driver && h in steps[k].draft.hosts ==>
                  steps[k].draft.hosts[h].expectedCurrent == Some(x))
            && (steps[k].Connects? && steps[k].driver == driver && steps[k].host == h && !steps[k].command.Deploy? ==>
                  steps[k].sid in r[k + 1].sessions && r[k + 1].sessions[steps[k].sid].expected == Some(x))
            && (steps[k].SendsPack? && LocalFor(r[k], steps[k].sid, driver, h, x) && x !in r[k].hosts[h].store ==>
                  && steps[k].sid in r[k + 1].sessions && r[k + 1].sessions[steps[k].sid].phase.Ended?
                  && driver in r[k + 1].drivers && r[k + 1].drivers[driver] == r[k].drivers[driver])
  {
    hide Inv, Init, NextBy, LocalStep, Taken, MovesTracking, Graph;
    RunKeepsInv(r, steps, k);
    RefusedBefore(r, steps, i, k, driver, h);
    if steps[k].Plans? || steps[k].Connects? {
      TrackedIsExpected(r[k], steps[k], r[k + 1], driver, h);
    }
    if steps[k].SendsPack? {
      RefusedNow(r[k], steps[k], r[k + 1]);
    }
  }

  /** A plan and a connection expect the tracked commit. */
  lemma TrackedIsExpected(c: Cluster, step: Step, c': Cluster, driver: DriverId, h: Name)
    requires Inv(c) && Graph(c) && NextBy(c, step, c') && driver in c.drivers && h in c.drivers[driver].tracking
    ensures step.Plans? && step.driver == driver && h in step.draft.hosts ==>
              step.draft.hosts[h].expectedCurrent == Some(c.drivers[driver].tracking[h])
    ensures step.Connects? && step.driver == driver && step.host == h && !step.command.Deploy? ==>
              step.sid in c'.sessions && c'.sessions[step.sid].expected == Some(c.drivers[driver].tracking[h])
  {
    hide Inv, IsPlan, ValidConfig, Repo.ExpectedCurrent;
    TrackedEntry(c, driver, h);
    if step.Plans? && step.driver == driver && h in step.draft.hosts {
      PlannedHost(RepoOf(c, c.drivers[driver]), step.config, step.filter, step.draft, h);
    }
  }

  /** A session of the driver on the host that expects `x`. */
  ghost predicate LocalFor(c: Cluster, sid: SessionId, driver: DriverId, h: Name, x: Oid) {
    && SessionAt(c, sid) && c.sessions[sid].driver == driver && c.sessions[sid].host == h
    && c.sessions[sid].expected == Some(x)
  }

  lemma {:induction false} RefusedBefore(r: seq<Cluster>, steps: seq<Step>, i: nat, k: nat, driver: DriverId, h: Name)
    requires IsRun(r, steps) && i <= k < |r| && driver in r[i].drivers && h in r[i].drivers[driver].tracking
    requires forall m :: i <= m < k ==> !MovesTracking(r[m], steps[m], driver, h)
    ensures driver in r[k].drivers && h in r[k].drivers[driver].tracking
    ensures r[k].drivers[driver].tracking[h] == r[i].drivers[driver].tracking[h]
    decreases k
  {
    hide NextBy, Init, MovesTracking, Graph;
    if i < k {
      RefusedBefore(r, steps, i, k - 1, driver, h);
      TrackingStays(r[k - 1], steps[k - 1], r[k], driver, h);
    }
  }

  /** A tracked commit is one that a plan and a connection will expect. */
  lemma TrackedEntry(c: Cluster, driver: DriverId, h: Name)
    requires Inv(c) && driver in c.drivers && h in c.drivers[driver].tracking
    ensures RepoOf(c, c.drivers[driver]).ExpectedCurrent(h) == Some(c.drivers[driver].tracking[h])
  {
    var d := c.drivers[driver];
    assert DriverInv(c.dag, c.trees, c.hosts, d);
    assert HostInv(c.dag, c.trees, h, c.hosts[h]);
    hide Inv, PlanInv, Dag.Reaches;
    assert HasEntry(c.trees, d.tracking[h], h);
  }

  lemma RefusedNow(c: Cluster, step: Step, c': Cluster)
    requires Inv(c) && Graph(c) && NextBy(c, step, c') && step.SendsPack?
    ensures SessionAt(c, step.sid) && step.sid in c'.sessions
    ensures var s := c.sessions[step.sid];
            s.expected.Some? && s.expected.value !in c.hosts[s.host].store ==>
              && c'.sessions[step.sid].phase.Ended? && s.driver in c'.drivers
              && c'.drivers[s.driver] == c.drivers[s.driver]
  {
    hide Inv, Taken, SendStep, Dag.Acyclic;
    var b := TakeStep(c, step, c');
    FetchRefused(c, step.sid, b);
    SamePlaces(c, step, b);
  }

  lemma SamePlaces(c: Cluster, step: Step, b: Local)
    requires Inv(c) && Graph(c) && step.SendsPack? && SessionAt(c, step.sid) && SendStep(c.dag, LocalAt(c, step.sid), b)
    ensures b.session.driver == c.sessions[step.sid].driver && b.session.host == c.sessions[step.sid].host
  {
    hide Inv, SendPhase, Dag.Acyclic;
  }

  // ----- Trees built from directories -----

  lemma StepTrees(c: Cluster, step: Step, c': Cluster)
    requires Graph(c) && NextBy(c, step, c')
    ensures c'.trees == if step.Plans? then c.trees[step.commit := step.config] else c.trees
    ensures step.Plans? ==> IsBuilt(step.config)
  {
    hide LocalStep, Taken, IsPlan, ValidConfig, Dag.Acyclic, IsBuilt, Session.AgentOpen;
    if IsSessionStep(step) {
      hide NextBy;
      var b := TakeStep(c, step, c');
    }
  }

  /** In every run all committed trees were built from config directories. */
  lemma {:induction false} TreesAreBuilt(r: seq<Cluster>, steps: seq<Step>, i: nat, commit: Oid)
    requires IsRun(r, steps) && i < |r| && commit in r[i].trees
    ensures IsBuilt(r[i].trees[commit])
  {
    hide NextBy, Graph, IsBuilt;
    if i > 0 {
      StepTrees(r[i - 1], steps[i - 1], r[i]);
      if commit in r[i - 1].trees {
        TreesAreBuilt(r, steps, i - 1, commit);
        assert steps[i - 1].Plans? ==>
          r[i].trees[commit] == steps[i - 1].config || r[i].trees[commit] == r[i - 1].trees[commit];
      }
    }
  }

  /**
    So in every run all three commands of a driver pick the same hosts: the
    tracked entries that they compare with are canonical.
   */
  lemma {:induction false} CommandsAgreeInRuns(r: seq<Cluster>, steps: seq<Step>, i: nat, driver: DriverId, d: Disk,
                                               h: Name)
    requires IsRun(r, steps) && i < |r| && driver in r[i].drivers && d.Folder? && h in Built(d, 0).entries
    ensures var repo, target := RepoOf(r[i], r[i].drivers[driver]), Built(d, 0).entries[h];
            && (NeedsDeploy(repo, h, target) <==>
                !(repo.Tracked(h).Some? && TrackedApps(repo, h) == TreeEntries(target)))
            && (NeedsDeploy(repo, h, target) && repo.Tracked(h).Some? ==>
                  exists a :: Differs(TrackedApps(repo, h), TreeEntries(target), a))
  {
    hide NextBy, Graph, Init;
    var repo := RepoOf(r[i], r[i].drivers[driver]);
    if repo.Tracked(h).Some? {
      TreesAreBuilt(r, steps, i, repo.tracking[h]);
      var built: Disk :| built.Folder? && repo.trees[repo.tracking[h]] == Built(built, 0);
      BuiltHostsCanonical(built, h);
    }
    CommandsAgree(repo, d, h);
  }
}
