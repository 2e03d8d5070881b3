/**
  The agent's side of a session: the lock, receiving a pack, and applying a
  commit to the host with its rollback. Every change to the refs is a step of
  the cluster protocol, recorded in `trace`.
 */
module Agent {
  import opened Wrappers
  import opened Paths
  import opened Trees
  import opened Plan
  import opened Desired
  import opened History
  import opened Commands
  import opened Filesystem
  import opened ManagedLinks
  import opened ManifestLinks
  import opened Checkout
  import opened HostState
  import opened HostApply
  import opened Recovery
  import opened Obstacles
  import opened Protocol

  datatype ApplyMode = DeployMode(isRollbackSafe: bool) | ReapplyMode

  datatype ApplyOutcome =
    | PreApplyError
    | AssertionFailed(panic: Panic)
    | ApplyComplete
    | ApplyFailed
    | RolledBack
    | RollbackFailed

  datatype Event = Event(busy: bool, step: Step)

  /** The steps that an agent takes part in. */
  predicate IsAgentStep(step: Step) {
    step.Locks? || step.ReceivesPack? || step.Prepares? || step.FailsApply? || step.StartsRollback?
      || step.FinishesRollback?
    || step.FailsRollback? || step.MovesCurrent? || step.RecordsHostname? || step.Completes? || step.Releases?
  }

  /** The `i`-th step of a session on its host: first it asks for the lock, and then it holds it. */
  ghost predicate AgentMove(dag: Dag, trees: map<Oid, Tree>, sid: SessionId, i: nat, e: Event, a: Local, b: Local)
    requires dag.Acyclic()
  {
    && IsAgentStep(e.step) && e.step.sid == sid && (e.step.Locks? <==> i == 0) && (i > 0 ==> a.session.HoldsLock())
    && a.host.store <= dag.parents.Keys && (a.host.current.Some? ==> a.host.current.value in a.host.store)
    && LocalStep(dag, trees, e.busy, e.step, a, b)
  }

  /** A run of one session, from its lock request on. */
  ghost predicate AgentRun(dag: Dag, trees: map<Oid, Tree>, sid: SessionId, ls: seq<Local>, es: seq<Event>)
    requires dag.Acyclic()
  {
    && |ls| == |es| + 1
    && forall i :: 0 <= i < |es| ==> AgentMove(dag, trees, sid, i, es[i], ls[i], ls[i + 1])
  }

  lemma RunExtends(dag: Dag, trees: map<Oid, Tree>, sid: SessionId, ls: seq<Local>, es: seq<Event>, e: Event, b: Local)
    requires dag.Acyclic() && AgentRun(dag, trees, sid, ls, es) && AgentMove(dag, trees, sid, |es|, e, ls[|ls| - 1], b)
    ensures AgentRun(dag, trees, sid, ls + [b], es + [e])
  {
    hide AgentMove, Dag.Acyclic;
    var ls', es' := ls + [b], es + [e];
    forall i | 0 <= i < |es'| ensures AgentMove(dag, trees, sid, i, es'[i], ls'[i], ls'[i + 1]) {
      if i < |es| {
        assert ls'[i] == ls[i] && ls'[i + 1] == ls[i + 1] && es'[i] == es[i];
      }
    }
  }

  /** The session's request is the one its driver's command is about. */
  ghost predicate Serves(s: Session, target: Oid, mode: ApplyMode) {
    match mode
    case DeployMode(safe) =>
      && s.phase.Received? && s.command.Deploy? && s.command.plan.commit == target
      && s.host in s.command.plan.safe && s.command.plan.safe[s.host] == safe
    case ReapplyMode =>
      s.phase.Locked? && s.command.Reapply? && s.expected == Some(target) && s.helloTarget == s.helloCurrent
  }

  /**
    What is deployed on the host is its own: there is nothing, or it was
    deployed under the host's name, or, if that was never recorded, the current
    commit has an entry for the host.
   */
  ghost predicate OwnState(trees: map<Oid, Tree>, name: Name, host: Host) {
    || host.current.None? || host.deployedName == Some(name)
    || (host.deployedName.None? && host.current.value in trees && SubtreeOid(trees[host.current.value], name).Some?)
  }

  /** The answer to a lock request, in terms of the host's state. */
  ghost predicate LockMeans(trees: map<Oid, Tree>, name: Name, host: Host, busy: bool, expected: Option<Oid>,
                            answer: LockAnswer) {
    match answer
    case Busy => busy
    case HostnameChanged(deployedAs) => !busy && !OwnState(trees, name, host) && deployedAs == host.deployedName
    case LockStale(actual) =>
      !busy && OwnState(trees, name, host) && actual == host.current && host.current != expected
    case Granted => !busy && OwnState(trees, name, host) && host.current == expected
  }

  lemma OneState(dag: Dag, trees: map<Oid, Tree>, sid: SessionId, ls: seq<Local>, es: seq<Event>)
    requires dag.Acyclic() && AgentRun(dag, trees, sid, ls, es) && es == [] && ls[0].session.phase.Connected?
    ensures |ls| == 1 && !ls[|ls| - 1].session.HoldsLock()
  {
  }

  lemma LockMeaning(trees: map<Oid, Tree>, name: Name, host: Host, busy: bool, expected: Option<Oid>)
    ensures LockMeans(trees, name, host, busy, expected, LockResult(trees, name, host, busy, expected))
  {
  }

  /** What an apply is a change from. A reapply starts from nothing, to repair drift. */
  function DiffBase(mode: ApplyMode, current: Option<Oid>): Option<Oid> {
    if mode.DeployMode? then current else None
  }

  /** The version that a rollback checks apps out at; without a current commit it only removes apps. */
  function RollbackPrefix(current: Option<Oid>, target: Oid): (p: Prefix)
    ensures current.Some? ==> p == OidPrefix(current.value)
  {
    if current.Some? then OidPrefix(current.value) else OidPrefix(target) + 1
  }

  /** What `prepare_apply` answers, if no primitive fails. */
  ghost function PrepareResult(dag: Dag, trees: map<Oid, Tree>, name: Name, host: Host, target: Oid,
                               mode: ApplyMode): PrepareAnswer
    requires dag.Acyclic()
  {
    match mode
    case DeployMode(safe) => PrepareDeploy(dag, trees, name, host, target, safe)
    case ReapplyMode => PrepareReapply(trees, name, host, target)
  }

  /** What an apply leaves on disk, by its outcome; `sound` if collecting garbage could read all version links. */
  ghost predicate OnDisk(outcome: ApplyOutcome, sound: bool, x: Snapshot, y: Snapshot, place: Place, oldApps: Apps,
                         newApps: Apps, p: Prefix, q: Prefix, ch: Change) {
    && IsChange(ch, place, oldApps, newApps)
    && match outcome
       case ApplyComplete =>
         && ForeignKept(x.tree, y.tree, place.appsDir, place.roots, ch.links)
         && exists d :: IsDesiredState(d, place.appsDir, newApps) && Applied(x, y, place, ch, p, d, sound)
       case RolledBack =>
         && Attempted(x, y, place, ch) && ch.links.IsRollbackSafe()
         && exists m, back, d ::
              && IsChange(back, place, newApps, oldApps) && IsDesiredState(d, place.appsDir, oldApps)
              && Reverted(x, m, y, place, ch, back, p, q, d)
       case _ => Attempted(x, y, place, ch)
  }

  /**
    Without faults a deploy completes or is rolled back. If nothing was in its
    way, a single fault does not keep it from being rolled back either.
   */
  ghost predicate Rescued(outcome: ApplyOutcome, faults: int, unhindered: bool) {
    && (faults == 0 ==> outcome.ApplyComplete? || outcome.RolledBack?)
    && (unhindered && faults <= 1 ==> !outcome.RollbackFailed?)
  }

  /** The actions of all activations on a host, and the number of its waits for units. */
  datatype Journal = Journal(ran: seq<Ran>, watched: nat)

  /** An activation for `apps` after the diffs ran its actions, with `ok` whether none failed that may not. */
  ghost predicate Activated(fs: HostFs, place: Place, diffs: map<Name, AppDiff>, apps: Apps, restart: bool,
                            before: Journal, after: Journal, ok: bool) {
    exists sys, d :: ActivatedFor(fs, place, diffs, apps, restart, before, after, ok, sys, d)
  }

  ghost predicate ActivatedFor(fs: HostFs, place: Place, diffs: map<Name, AppDiff>, apps: Apps, restart: bool,
                               before: Journal, after: Journal, ok: bool, sys: SystemDiff<Path>, d: DesiredState) {
    && IsAggregate(sys, place.appsDir, diffs) && IsDesiredState(d, place.appsDir, apps)
    && Performs(before.ran, after.ran, [LinkManifests] + ManagedPlan(restart, d, sys), ok)
    && UnitsWaited(fs.watches, before.watched, after.watched, sys.unitActions.Touched(), ok)
  }

  lemma ActivatedWith(fs: HostFs, place: Place, diffs: map<Name, AppDiff>, apps: Apps, restart: bool,
                      before: Journal, after: Journal, ok: bool, sys: SystemDiff<Path>, d: DesiredState)
    requires ActivatedFor(fs, place, diffs, apps, restart, before, after, ok, sys, d)
    ensures Activated(fs, place, diffs, apps, restart, before, after, ok)
  {
  }

  /** A rollback that completed: the activation of the way back, without a failed action. */
  ghost predicate RanBack(fs: HostFs, place: Place, oldApps: Apps, newApps: Apps, before: Journal, after: Journal) {
    exists back ::
      && IsChange(back, place, newApps, oldApps)
      && Activated(fs, place, back.diffs, oldApps, true, before, after, true)
  }

  /** What an apply ran: one activation, and for a deploy that was rolled back a second one. */
  ghost predicate Carried(outcome: ApplyOutcome, fs: HostFs, place: Place, mode: ApplyMode, oldApps: Apps,
                          newApps: Apps,
                          ch: Change, before: Journal, after: Journal) {
    && (outcome.ApplyComplete? ==>
          Activated(fs, place, ch.diffs, newApps, mode.DeployMode?, before, after, true))
    && (outcome.RolledBack? ==>
          exists mid ::
            && Activated(fs, place, ch.diffs, newApps, true, before, mid, false)
            && RanBack(fs, place, oldApps, newApps, mid, after))
  }

  /** The outcomes in terms of the commits that the host stands at. */
  lemma OutcomeAtCommit(outcome: ApplyOutcome, sound: bool, x: Snapshot, y: Snapshot, place: Place, mode: ApplyMode,
                        oldApps: Apps, newApps: Apps, p: Prefix, q: Prefix, ch: Change)
    requires OnDisk(outcome, sound, x, y, place, oldApps, newApps, p, q, ch)
    requires mode.ReapplyMode? ==> oldApps == map[]
    ensures outcome.RolledBack? && RollbackReady(x, place, oldApps, p, q) ==>
              FullyAt(y, place, oldApps) && ManagedAreaOnly(x.tree, y.tree, place.roots)
    ensures outcome.ApplyComplete? && sound && AtCommit(x, place, oldApps)
            && LinksPlaced(place, newApps) && NoneIsStranded(oldApps, newApps) ==>
              FullyAt(y, place, newApps)
    ensures mode.ReapplyMode? && outcome.ApplyComplete? && sound && LinksPlaced(place, newApps) ==>
              && RestoredTo(y, place, newApps)
              && (x.apps.Keys == newApps.Keys ==> FullyAt(y, place, newApps))
    ensures ForeignKept(x.tree, y.tree, place.appsDir, place.roots, ch.links)
  {
    hide OnDisk, RollbackReady, FullyAt, AtCommit, LinksPlaced, NoneIsStranded, ManagedAreaOnly, RestoredTo;
    hide ForeignKept;
    if outcome.RolledBack? && RollbackReady(x, place, oldApps, p, q) {
      RolledBackAtCommit(sound, x, y, place, oldApps, newApps, p, q, ch);
    }
    if outcome.ApplyComplete? && sound && LinksPlaced(place, newApps) {
      if AtCommit(x, place, oldApps) && NoneIsStranded(oldApps, newApps) {
        CompleteAtCommit(x, y, place, oldApps, newApps, p, q, ch);
      }
      if mode.ReapplyMode? {
        ReapplyAtCommit(x, y, place, newApps, p, q, ch);
      }
    }
    DiskKeepsForeign(outcome, sound, x, y, place, oldApps, newApps, p, q, ch);
  }

  /** Exactly the enabled units of the changed apps were waited for, and all of them came up. */
  ghost predicate UnitsUp(fs: HostFs, diffs: map<Name, AppDiff>, before: nat, after: nat) {
    exists units: seq<string> ::
      && (forall u :: u in units <==> exists a :: a in diffs && u in Enabled(diffs[a].After()))
      && (if units == [] then after == before
          else after == before + 1 && Activation.CameUp(|units|, fs.watches(before).polls))
  }

  /** An activation that failed no action has all units of its apps up. */
  lemma {:induction false} ActivatedUnits(fs: HostFs, place: Place, diffs: map<Name, AppDiff>, apps: Apps,
                                          restart: bool,
                                          before: Journal, after: Journal)
    requires Activated(fs, place, diffs, apps, restart, before, after, true)
    ensures UnitsUp(fs, diffs, before.watched, after.watched)
  {
    hide IsDesiredState, Performs, Activation.CameUp, Enabled;
    var sys, d :| ActivatedFor(fs, place, diffs, apps, restart, before, after, true, sys, d);
    var units, actions := sys.unitActions.Touched(), sys.unitActions;
    assert forall u :: u in units <==> u in SetOf(actions.enable) || u in SetOf(actions.restart);
    forall u ensures u in units <==> exists a :: a in diffs && u in Enabled(diffs[a].After()) {
      if a :| a in diffs && u in Enabled(diffs[a].After()) {
        assert u in Enabled(diffs[a].After()) - Enabled(diffs[a].Before())
               || u in Enabled(diffs[a].After()) * Enabled(diffs[a].Before());
      }
    }
  }

  lemma CarriedUnits(outcome: ApplyOutcome, fs: HostFs, place: Place, mode: ApplyMode, oldApps: Apps, newApps: Apps,
                     ch: Change, before: Journal, after: Journal)
    requires Carried(outcome, fs, place, mode, oldApps, newApps, ch, before, after)
    ensures outcome.ApplyComplete? ==> UnitsUp(fs, ch.diffs, before.watched, after.watched)
  {
    hide Activated, UnitsUp, RanBack;
    if outcome.ApplyComplete? {
      ActivatedUnits(fs, place, ch.diffs, newApps, mode.DeployMode?, before, after);
    }
  }

  lemma NothingCarried(outcome: ApplyOutcome, fs: HostFs, place: Place, mode: ApplyMode, oldApps: Apps, newApps: Apps,
                       ch: Change, before: Journal, after: Journal)
    requires outcome.PreApplyError? || outcome.AssertionFailed?
    ensures Carried(outcome, fs, place, mode, oldApps, newApps, ch, before, after)
  {
  }

  /** A completed apply: all is done, and then versions were removed, of the named ones none if collecting was sound. */
  ghost predicate Applied(x: Snapshot, y: Snapshot, place: Place, ch: Change, p: Prefix, d: DesiredState, sound: bool) {
    && (exists m :: AppsDone(x.apps, m, ch.diffs, p, Fresh) && OnlyRemoved(m, y.apps))
    && TreeDone(x.tree, y.tree, place.appsDir, place.roots, ch.links, d)
    && (sound ==> Deployed(x, y, place, ch, p, d))
  }

  /** All that a rollback relies on: the host was at the old commit, and the versions that it may reuse are complete. */
  ghost predicate RollbackReady(x: Snapshot, place: Place, oldApps: Apps, p: Prefix, q: Prefix) {
    && AtCommit(x, place, oldApps) && LinksPlaced(place, oldApps)
    && p != q && VersionsComplete(x.apps, oldApps, q)
  }

  /** Apps, managed links and manifest links are those of a commit. */
  ghost predicate FullyAt(y: Snapshot, place: Place, apps: Apps) {
    && AtCommit(y, place, apps)
    && exists d :: IsDesiredState(d, place.appsDir, apps) && ManagedAre(y.tree, place.appsDir, place.roots, d)
  }

  lemma DiskKeepsForeign(outcome: ApplyOutcome, sound: bool, x: Snapshot, y: Snapshot, place: Place, oldApps: Apps,
                         newApps: Apps, p: Prefix, q: Prefix, ch: Change)
    requires OnDisk(outcome, sound, x, y, place, oldApps, newApps, p, q, ch)
    ensures ForeignKept(x.tree, y.tree, place.appsDir, place.roots, ch.links)
  {
    hide IsChange, IsDesiredState, Reverted, Applied, AppsPartly, TreePartly, ForeignKept;
  }

  lemma AttemptKeepsForeign(x: Snapshot, y: Snapshot, place: Place, ch: Change)
    requires Attempted(x, y, place, ch)
    ensures ForeignKept(x.tree, y.tree, place.appsDir, place.roots, ch.links)
  {
    hide AppsPartly, TreePartly, ForeignKept;
  }

  lemma RolledBackAtCommit(sound: bool, x: Snapshot, y: Snapshot, place: Place, oldApps: Apps, newApps: Apps,
                           p: Prefix, q: Prefix, ch: Change)
    requires OnDisk(RolledBack, sound, x, y, place, oldApps, newApps, p, q, ch)
    requires RollbackReady(x, place, oldApps, p, q)
    ensures FullyAt(y, place, oldApps) && ManagedAreaOnly(x.tree, y.tree, place.roots)
  {
    hide IsChange, IsDesiredState, Reverted, ManagedAreaOnly, AtCommit, LinksPlaced, VersionsComplete, ManagedAre;
    hide Attempted;
    var m, back, d :|
      && IsChange(back, place, newApps, oldApps) && IsDesiredState(d, place.appsDir, oldApps)
      && Reverted(x, m, y, place, ch, back, p, q, d);
    RollbackRestores(x, m, y, place, oldApps, newApps, ch, back, p, q, d);
  }

  lemma CompleteAtCommit(x: Snapshot, y: Snapshot, place: Place, oldApps: Apps, newApps: Apps, p: Prefix, q: Prefix,
                         ch: Change)
    requires OnDisk(ApplyComplete, true, x, y, place, oldApps, newApps, p, q, ch)
    requires AtCommit(x, place, oldApps) && LinksPlaced(place, newApps) && NoneIsStranded(oldApps, newApps)
    ensures FullyAt(y, place, newApps)
  {
    hide IsChange, IsDesiredState, Deployed, AtCommit, LinksPlaced, NoneIsStranded, ManagedAre, TreeDone, OnlyRemoved;
    var d :| IsDesiredState(d, place.appsDir, newApps) && Applied(x, y, place, ch, p, d, true);
    DeployCompletes(x, y, place, oldApps, newApps, ch, p, d);
  }

  /** Every app, link and managed directory of a commit is as the commit has it; other apps may be there. */
  ghost predicate RestoredTo(y: Snapshot, place: Place, apps: Apps) {
    && (forall a :: a in apps ==> AppIs(y.apps, a, apps[a]))
    && LinksAre(y.tree, place.appsDir, apps)
    && exists d :: IsDesiredState(d, place.appsDir, apps) && ManagedAre(y.tree, place.appsDir, place.roots, d)
  }

  /** A completed reapply restores its commit from any state, and leaves the host at it if no other app was there. */
  lemma ReapplyAtCommit(x: Snapshot, y: Snapshot, place: Place, apps: Apps, p: Prefix, q: Prefix, ch: Change)
    requires OnDisk(ApplyComplete, true, x, y, place, map[], apps, p, q, ch) && LinksPlaced(place, apps)
    ensures RestoredTo(y, place, apps) && (x.apps.Keys == apps.Keys ==> FullyAt(y, place, apps))
  {
    hide IsChange, IsDesiredState, Deployed, LinksPlaced, ManagedAre, ForeignKept, AppsAre, LinksAre, AppIs, TreeDone;
    hide OnlyRemoved;
    var d :| IsDesiredState(d, place.appsDir, apps) && Applied(x, y, place, ch, p, d, true);
    ReapplyRepairs(x, y, place, apps, ch, p, d);
  }

  /** An apply that completes, or ends rolled back, is a round: the host goes on standing at a commit. */
  lemma {:induction false} AppliedIsRound(outcome: ApplyOutcome, x: Snapshot, y: Snapshot, place: Place, st: Standing,
                                          newApps: Apps, p: Prefix, q: Prefix, ch: Change) returns (r: Round)
    requires outcome.ApplyComplete? || outcome.RolledBack?
    requires OnDisk(outcome, true, x, y, place, st.apps, newApps, p, q, ch)
    requires Stands(x, place, st) && p !in st.used
    requires outcome.ApplyComplete? ==> LinksPlaced(place, newApps) && NoneIsStranded(st.apps, newApps)
    requires outcome.RolledBack? ==> p != q && (st.apps == map[] || (q == st.q && q in st.used))
    ensures IsRound(x, y, place, st, r) && r.p == p && r.target == newApps && r.Completes? == outcome.ApplyComplete?
    ensures Stands(y, place, AfterRound(st, r))
  {
    hide IsChange, IsDesiredState, Deployed, Reverted, Attempted, LinksPlaced, NoneIsStranded, Stands, ForeignKept;
    hide TreeDone, OnlyRemoved;
    if outcome.ApplyComplete? {
      var d :| IsDesiredState(d, place.appsDir, newApps) && Applied(x, y, place, ch, p, d, true);
      r := Round.Completes(newApps, p, ch, d);
    } else {
      var m, back, d :|
        && IsChange(back, place, newApps, st.apps) && IsDesiredState(d, place.appsDir, st.apps)
        && Reverted(x, m, y, place, ch, back, p, q, d);
      r := Reverts(newApps, p, ch, d, m, back, q);
    }
    RoundStands(x, y, place, st, r);
  }

  lemma NothingDesiredState(appsDir: Path)
    ensures IsDesiredState(NOTHING_DESIRED, appsDir, map[])
  {
  }

  /** The agent's verdict, in terms of the trees. */
  lemma AgentVerdict(sys: SystemDiff<Path>, appsDir: Path, diffs: map<Name, AppDiff>, current: Apps, target: Apps)
    requires IsAppDiffs(current, target, diffs) && IsAggregate(sys, appsDir, diffs)
    ensures sys.IsRollbackSafe() <==> SafeHostChange(current, target)
  {
    hide IsAggregate, SafeChange, SystemDiff.IsRollbackSafe, TreeOf, Differs;
    AggregateVerdict(sys, appsDir, diffs);
    DiffSides(current, target, diffs);
  }

  lemma AggregateIsChange(sys: SystemDiff<Path>, place: Place, diffs: map<Name, AppDiff>, current: Apps, target: Apps)
    requires IsAppDiffs(current, target, diffs) && IsAggregate(sys, place.appsDir, diffs)
    ensures IsChange(Change(diffs, sys.symlinks), place, current, target)
    ensures sys.IsRollbackSafe() ==> sys.symlinks.IsRollbackSafe()
  {
  }

  /** Back to nothing there are only removals. */
  lemma OnlyRemovals(current: Apps, diffs: map<Name, AppDiff>)
    requires IsAppDiffs(current, map[], diffs)
    ensures forall a :: a in diffs ==> diffs[a].Remove?
  {
  }

  lemma LockIsStep(dag: Dag, trees: map<Oid, Tree>, a: Local, busy: bool, reply: LockAnswer)
    requires dag.Acyclic() && a.session.phase.Connected? && !a.session.command.Sync?
    requires reply == LockResult(trees, a.session.host, a.host, busy, a.session.expected)
    ensures var s := a.session.(phase := AfterLock(reply));
            && (s.HoldsLock() <==> reply.Granted?)
            && forall sid :: LocalStep(dag, trees, busy, Locks(sid), a, a.(session := s))
  {
    hide LockResult, Dag.Acyclic;
  }

  /** The steps after the activation, each with the refs as it leaves them. */
  lemma FinishSteps(dag: Dag, trees: map<Oid, Tree>, a: Local, target: Oid)
    requires dag.Acyclic() && a.session.phase.Prepared? && a.session.Commit() == Some(target)
    ensures var s, h := a.session, a.host;
            var moved := h.(current := Some(target), line := h.line + {target}, past := h.past + {target});
            var recorded := moved.(deployedName := Some(s.host));
            forall sid ::
              && LocalStep(dag, trees, false, FailsApply(sid), a, a.(session := s.(phase := Failed)))
              && LocalStep(dag, trees, false, MovesCurrent(sid), a, Local(s.(phase := Moved), moved, a.driver))
              && LocalStep(dag, trees, false, RecordsHostname(sid), Local(s.(phase := Moved), moved, a.driver),
                           Local(s.(phase := Failed), moved, a.driver))
              && LocalStep(dag, trees, false, RecordsHostname(sid), Local(s.(phase := Moved), moved, a.driver),
                           Local(s.(phase := Recorded), recorded, a.driver))
              && LocalStep(dag, trees, false, Step.Completes(sid), Local(s.(phase := Recorded), recorded, a.driver),
                           Local(s.(phase := Protocol.Completed), recorded, a.driver))
  {
    hide Dag.Acyclic;
  }

  lemma PrepareIsStep(dag: Dag, trees: map<Oid, Tree>, a: Local, b: Local, target: Oid, mode: ApplyMode,
                      answer: PrepareAnswer)
    requires dag.Acyclic() && Serves(a.session, target, mode)
    requires answer == PrepareResult(dag, trees, a.session.host, a.host, target, mode)
    requires b.session == a.session.(phase := AfterPrepare(answer)) && b.driver == a.driver
    requires b.host == if answer.Ready? && mode.DeployMode? then a.host.(target := Some(target)) else a.host
    ensures forall sid :: LocalStep(dag, trees, false, Prepares(sid), a, b)
  {
  }

  lemma CheckedOutIsAttempted(x: Snapshot, y: Snapshot, place: Place, ch: Change, p: Prefix)
    requires AppsInterrupted(x.apps, y.apps, ch.diffs, p) && y.tree == x.tree && WellFormed(x.tree)
    ensures Attempted(x, y, place, ch)
  {
    hide WellFormed, Touched, Outside, Leading, AppsInterrupted;
    ForeignKeptRefl(x.tree, place.appsDir, place.roots, ch.links);
    hide ForeignKept;
    InterruptedIsPartly(x.apps, y.apps, ch.diffs, p);
  }

  lemma ActivatedIsAttempted(x: Snapshot, y: Snapshot, place: Place, ch: Change)
    requires y.apps == x.apps && TreeStopped(x.tree, y.tree, place.roots, ch.links)
    requires ForeignKept(x.tree, y.tree, place.appsDir, place.roots, ch.links)
    ensures Attempted(x, y, place, ch) && WellFormed(y.tree)
  {
    hide WellFormed, Touched, Outside, Leading, ForeignKept;
    StoppedIsPartly(x.tree, y.tree, place.roots, ch.links);
    SameAppsPartly(x.apps, ch.diffs);
  }

  lemma TreeStoppedWellFormed(base: Fs, x: Fs, roots: Roots, c: SymlinkChanges<Path>)
    requires TreeStopped(base, x, roots, c)
    ensures WellFormed(x)
  {
  }

  /** In a cluster, a deploy request never trips an assertion of the agent. */
  lemma DeployNeverAsserts(c: Cluster, sid: SessionId, target: Oid, mode: ApplyMode)
    requires Inv(c) && SessionAt(c, sid) && mode.DeployMode? && Serves(c.sessions[sid], target, mode)
    ensures var s := c.sessions[sid]; !PrepareResult(c.dag, c.trees, s.host, c.hosts[s.host], target, mode).Panics?
  {
  }

  /** The rollback of a rollback-safe deploy, as the agent checks it, can only be stopped by a failing primitive. */
  lemma SafeUnhindered(x: Fs, y: Fs, place: Place, oldApps: Apps, newApps: Apps, diffs: map<Name, AppDiff>,
                       system: SystemDiff<Path>, d: DesiredState, enablement: iset<Path>)
    requires WellFormed(x) && place.roots.Valid() && Rescuable(x, place, oldApps, enablement) && ValidHost(newApps)
    requires IsAppDiffs(oldApps, newApps, diffs) && IsAggregate(system, place.appsDir, diffs) && system.IsRollbackSafe()
    requires IsDesiredState(d, place.appsDir, newApps)
    requires StoppedRuns(x, y, place.appsDir, place.roots, system.symlinks, d, enablement)
    ensures WayBackClear(y, place, oldApps, newApps)
  {
    hide IsAppDiffs, IsAggregate, WellFormed, Roots.Valid, ValidHost, Rescuable, StoppedRuns, IsDesiredState;
    hide SystemDiff.IsRollbackSafe;
    hide SafeHostChange, WayBackClear;
    AgentVerdict(system, place.appsDir, diffs, oldApps, newApps);
    AggregateIsChange(system, place, diffs, oldApps, newApps);
    RollbackClear(x, y, place, oldApps, newApps, Change(diffs, system.symlinks), d, enablement);
  }

  class AgentSession {
    const name: Name
    const place: Place
    const dag: Dag
    const trees: map<Oid, Tree>
    const fs: HostFs
    ghost const sid: SessionId
    var host: Host
    var locked: bool
    ghost var trace: seq<Local>
    ghost var events: seq<Event>

    ghost function Last(): Local
      requires trace != []
      reads this
    {
      trace[|trace| - 1]
    }

    ghost predicate Traced()
      reads this
    {
      && dag.Acyclic() && trace != [] && trace[0].session.phase.Connected? && AgentRun(dag, trees, sid, trace, events)
      && Last().host == host && Last().session.host == name
      && (locked <==> Last().session.HoldsLock())
    }

    ghost predicate Valid()
      reads this, fs
    {
      && Traced() && trees.Keys == dag.parents.Keys && host.store <= trees.Keys
      && (host.current.Some? ==> host.current.value in host.store)
      && WellFormed(fs.tree) && place.roots.Valid() && fs.JobsEnd()
    }

    ghost function OnRecord(): Journal
      reads fs
    {
      Journal(fs.ran, fs.watched)
    }

    ghost function OnHost(): Snapshot
      reads fs
    {
      Snapshot(fs.apps, fs.tree)
    }

    constructor (name: Name, place: Place, dag: Dag, trees: map<Oid, Tree>, fs: HostFs, host: Host,
                 ghost sid: SessionId, ghost session: Session, ghost driver: Driver)
      requires dag.Acyclic() && trees.Keys == dag.parents.Keys && host.store <= trees.Keys
      requires host.current.Some? ==> host.current.value in host.store
      requires WellFormed(fs.tree) && place.roots.Valid() && fs.JobsEnd()
      requires session.host == name && session.phase.Connected?
      ensures Valid() && !locked && trace == [Local(session, host, driver)] && this.fs == fs && this.host == host
      ensures this.name == name && this.place == place && this.dag == dag && this.trees == trees && this.sid == sid
      ensures events == []
    {
      this.name, this.place, this.dag, this.trees, this.fs, this.host := name, place, dag, trees, fs, host;
      this.locked, this.sid := false, sid;
      this.trace, this.events := [Local(session, host, driver)], [];
    }

    /** Record a step of the protocol. */
    ghost method Take(e: Event, b: Local)
      requires dag.Acyclic() && trace != [] && trace[0].session.phase.Connected?
      requires AgentRun(dag, trees, sid, trace, events)
      requires IsAgentStep(e.step) && e.step.sid == sid
      requires if e.step.Locks? then events == [] else Last().session.HoldsLock()
      requires Last().host.store <= dag.parents.Keys
      requires Last().host.current.Some? ==> Last().host.current.value in Last().host.store
      requires LocalStep(dag, trees, e.busy, e.step, Last(), b)
      modifies this`trace, this`events
      ensures trace == old(trace) + [b] && AgentRun(dag, trees, sid, trace, events) && Last() == b
      ensures trace[0] == old(trace[0])
    {
      RunExtends(dag, trees, sid, trace, events, e, b);
      trace, events := trace + [b], events + [e];
    }

    /** Take the lock without waiting, check the host's name, then compare `current` to what the driver expects. */
    method HandleLock(expected: Option<Oid>, busy: bool) returns (answer: Option<LockAnswer>)
      requires Valid() && events == [] && !Last().session.command.Sync? && Last().session.expected == expected
      modifies this, fs`faults
      ensures Valid() && host == old(host)
      ensures answer.None? <==> old(fs.faults) < fs.faults
      ensures answer.None? ==> trace == old(trace) && !locked
      ensures answer.Some? ==> |trace| == |old(trace)| + 1 && old(trace) <= trace
      ensures answer.Some? ==> answer.value == LockResult(trees, name, host, busy, expected)
      ensures answer.Some? ==> LockMeans(trees, name, host, busy, expected, answer.value)
      ensures answer.Some? ==> Last().session == old(Last().session).(phase := AfterLock(answer.value))
    {
      hide AgentRun, Dag.Acyclic, WellFormed, Roots.Valid, LocalStep, Session.HoldsLock, HostFs.JobsEnd, LockMeans;
      OneState(dag, trees, sid, trace, events);
      LockMeaning(trees, name, host, busy, expected);
      var ioFails := fs.MayFail();
      if ioFails {
        return None;
      }
      var reply := Granted;
      if busy {
        reply := Busy;
      } else {
        var refusal := CheckDeployedHostname(trees, name, host.current, host.deployedName);
        if refusal.Some? {
          reply := refusal.value;
        } else if host.current != expected {
          reply := LockStale(host.current);
        } else {
          locked := true;
        }
      }
      ghost var s := Last().session;
      LockIsStep(dag, trees, Last(), busy, reply);
      Take(Event(busy, Locks(sid)), Last().(session := s.(phase := AfterLock(reply))));
      return Some(reply);
    }

    /** Write the objects that the driver packed. */
    method HandleReceivePack(pack: set<Oid>) returns (ok: bool)
      requires Valid() && Last().session.phase.Locked? && Last().session.command.Deploy?
      requires var s := Last().session;
               && s.command.plan.commit in dag.parents && (s.expected.Some? ==> s.expected.value in dag.parents)
               && pack == PackOf(dag, s.command.plan.commit, s.expected)
      modifies this, fs`faults
      ensures Valid()
      ensures ok ==> host == old(host).(store := old(host).store + pack) && old(trace) <= trace
      ensures ok ==> Last().session == old(Last().session).(phase := Received)
      ensures !ok <==> old(fs.faults) < fs.faults
      ensures !ok ==> host == old(host) && trace == old(trace)
    {
      hide AgentRun, Dag.Reaches, WellFormed, Roots.Valid;
      var fails := fs.MayFail();
      if fails {
        return false;
      }
      host := host.(store := host.store + pack);
      Take(Event(false, ReceivesPack(sid)), Local(Last().session.(phase := Received), host, Last().driver));
      return true;
    }

    /** The diffs that an apply starts from. */
    method DiffApply(target: Oid, mode: ApplyMode) returns (r: Option<(map<Name, AppDiff>, SystemDiff<Path>)>)
      requires Valid()
      modifies fs`faults
      ensures Valid() && old(fs.faults) <= fs.faults
      ensures r.None? ==>
                old(fs.faults) < fs.faults || target !in host.store || !ReadableChange(Before(mode), After(target))
      ensures r.Some? ==> fs.faults == old(fs.faults)
      ensures r.Some? ==>
                && target in host.store && ReadableChange(Before(mode), After(target))
                && IsAppDiffs(Before(mode), After(target), r.value.0)
                && IsAggregate(r.value.1, place.appsDir, r.value.0)
                && (r.value.1.IsRollbackSafe() <==> SafeHostChange(Before(mode), After(target)))
    {
      hide AgentRun, WellFormed, Roots.Valid, IsAppDiffs, IsAggregate, ReadableChange, SystemDiff.IsRollbackSafe;
      hide SafeHostChange, Dag.Acyclic, GetHostApps;
      var base := DiffBase(mode, host.current);
      var fails := fs.MayFail();
      if fails || target !in host.store {
        return None;
      }
      var d := DiffHost(name, place.appsDir, if base.Some? then Some(trees[base.value]) else None, Some(trees[target]));
      if d.Err? {
        return None;
      }
      AgentVerdict(d.value.1, place.appsDir, d.value.0, Before(mode), After(target));
      return Some(d.value);
    }

    /** The diffs, the checks, and the target ref. */
    method PrepareApply(target: Oid, mode: ApplyMode)
      returns (answer: PrepareAnswer, diffs: map<Name, AppDiff>, system: SystemDiff<Path>)
      requires Valid() && locked && Serves(Last().session, target, mode)
      modifies this, fs`faults
      ensures Valid() && old(trace) <= trace && old(fs.faults) <= fs.faults
      ensures answer.Refused? ==>
                old(fs.faults) < fs.faults || PrepareResult(dag, trees, name, old(host), target, mode) == Refused
      ensures answer.Refused? || answer == PrepareResult(dag, trees, name, old(host), target, mode)
      ensures answer.Refused? ==> trace == old(trace) && host == old(host)
      ensures !answer.Refused? ==> fs.faults == old(fs.faults)
      ensures !answer.Refused? ==> Last().session == old(Last().session).(phase := AfterPrepare(answer))
      ensures host == if answer.Ready? && mode.DeployMode? then old(host).(target := Some(target)) else old(host)
      ensures answer.Ready? ==> Applying(target, mode, diffs, system)
    {
      hide AgentRun, WellFormed, Roots.Valid, IsAppDiffs, IsAggregate, ReadableChange, SystemDiff.IsRollbackSafe;
      hide SafeHostChange, LocalStep, Dag.Acyclic, Dag.Reaches, GetHostApps;
      diffs, system := map[], EMPTY_DIFF;
      var change := DiffApply(target, mode);
      if change.None? {
        return Refused, diffs, system;
      }
      diffs, system := change.value.0, change.value.1;
      ghost var a := Last();
      match mode {
        case DeployMode(isRollbackSafe) =>
          var descends := host.current.None? || dag.DescendantOf(target, host.current.value);
          if !descends {
            answer := Panics(Descent);
          } else if system.IsRollbackSafe() != isRollbackSafe {
            answer := Panics(Safety);
          } else {
            var ok := SetTarget(Some(target));
            if !ok {
              return Refused, diffs, system;
            }
            answer := Ready;
          }
        case ReapplyMode =>
          answer :=
            if host.current != Some(target) then Panics(ReapplyCurrent)
            else if host.target != Some(target) then Panics(ReapplyTarget)
            else Ready;
      }
      locked := answer.Ready?;
      ghost var b := Local(a.session.(phase := AfterPrepare(answer)), host, a.driver);
      PrepareIsStep(dag, trees, a, b, target, mode, answer);
      Take(Event(false, Prepares(sid)), b);
    }

    /** Where a session stands between a successful `PrepareApply` and the end of the apply. */
    ghost predicate Applying(target: Oid, mode: ApplyMode, diffs: map<Name, AppDiff>, system: SystemDiff<Path>)
      requires dag.Acyclic() && trace != []
      reads this
    {
      var s := Last().session;
      && s.Commit() == Some(target) && host.target == Some(target) && target in trees && target in host.store
      && (mode.DeployMode? ==>
          s.command.Deploy? && s.host in s.command.plan.safe && s.command.plan.safe[s.host] == mode.isRollbackSafe)
      && (mode.DeployMode? ==> system.IsRollbackSafe() == mode.isRollbackSafe)
      && IsAppDiffs(Before(mode), After(target), diffs)
      && IsAggregate(system, place.appsDir, diffs)
    }

    /** The apps that an apply is a change from. */
    ghost function Before(mode: ApplyMode): Apps
      reads this
    {
      AppsAt(trees, name, DiffBase(mode, host.current))
    }

    ghost function After(target: Oid): Apps {
      AppsAt(trees, name, Some(target))
    }

    /** What a commit desires of the host; nothing, if there is no commit. */
    method DesiredAt(commit: Option<Oid>) returns (r: Result<DesiredState, StoreError>)
      requires commit.Some? ==> commit.value in trees
      ensures r.Ok? ==>
                && IsDesiredState(r.value, place.appsDir, AppsAt(trees, name, commit))
                && DesiredOk(place.appsDir, r.value)
      ensures var apps := AppsAt(trees, name, commit);
              r.Ok? <==> forall s, a :: s in SUBDIRS && a in apps ==> SubdirEntries(apps[a], s).Ok?
    {
      hide IsDesiredState, DesiredOk, SubdirEntries, GetHostApps;
      NothingDesiredState(place.appsDir);
      if commit.None? {
        DesiredStateOk(NOTHING_DESIRED, place.appsDir, map[]);
        return Ok(NOTHING_DESIRED);
      }
      var apps := GetHostApps(trees[commit.value], name);
      assert apps == AppsAt(trees, name, commit);
      r := DesiredStateOf(place.appsDir, apps);
      if r.Ok? {
        DesiredStateOk(r.value, place.appsDir, apps);
      }
    }

    /** `set_ref` of the target ref. */
    method SetTarget(commit: Option<Oid>) returns (ok: bool)
      modifies this`host, fs`faults
      ensures host == if ok then old(host).(target := commit) else old(host)
      ensures fs.faults == old(fs.faults) + if ok then 0 else 1
    {
      var fails := fs.MayFail();
      ok := !fails;
      if ok {
        host := host.(target := commit);
      }
    }

    /** The diffs from the commit that failed back to the current one, which only remove if there is none. */
    method DiffBack(target: Oid) returns (r: Result<(map<Name, AppDiff>, SystemDiff<Path>), StoreError>)
      requires target in trees && (host.current.Some? ==> host.current.value in trees)
      ensures r.Ok? <==> ReadableChange(After(target), AppsAt(trees, name, host.current))
      ensures r.Ok? ==>
                && IsAggregate(r.value.1, place.appsDir, r.value.0)
                && IsChange(Change(r.value.0, r.value.1.symlinks), place, After(target),
                            AppsAt(trees, name, host.current))
                && (host.current.None? ==> forall a :: a in r.value.0 ==> r.value.0[a].Remove?)
    {
      hide IsAppDiffs, IsAggregate, IsChange, ReadableChange, GetHostApps, SystemDiff.IsRollbackSafe;
      hide SymlinkChanges.IsRollbackSafe;
      ghost var oldApps := AppsAt(trees, name, host.current);
      var currentTree := if host.current.Some? then Some(trees[host.current.value]) else None;
      r := DiffHost(name, place.appsDir, Some(trees[target]), currentTree);
      if r.Ok? {
        AggregateIsChange(r.value.1, place, r.value.0, After(target), oldApps);
        if host.current.None? {
          OnlyRemovals(After(target), r.value.0);
        }
      }
    }

    /**
      Back to the commit that is still current: diff, checkout that reuses
      version directories, activation, and the target ref last.
     */
    method TryRollback(target: Oid, ghost x: Snapshot, ghost ch: Change)
      returns (ok: bool, ghost back: Change, ghost d: DesiredState)
      requires Valid() && target in trees
      requires IsChange(ch, place, AppsAt(trees, name, host.current), After(target))
      requires Attempted(x, OnHost(), place, ch)
      modifies this`host, fs`apps, fs`tree, fs`faults, fs`ran, fs`watched
      ensures ok ==> Activated(fs, place, back.diffs, AppsAt(trees, name, old(host.current)), true,
                               old(OnRecord()), OnRecord(), true)
      ensures WellFormed(fs.tree) && Attempted(x, OnHost(), place, ch)
      ensures host == if ok && old(host).current.Some? then old(host).(target := old(host).current) else old(host)
      ensures ok ==>
                var oldApps := AppsAt(trees, name, old(host.current));
                && IsChange(back, place, After(target), oldApps) && IsDesiredState(d, place.appsDir, oldApps)
                && AppsDone(old(fs.apps), fs.apps, back.diffs, RollbackPrefix(old(host.current), target), Reuse)
                && TreeDone(old(fs.tree), fs.tree, place.appsDir, place.roots, back.links, d)
      ensures old(fs.faults) <= fs.faults
      ensures WayBackClear(old(fs.tree), place, AppsAt(trees, name, old(host.current)), After(target)) ==>
                (fs.faults == old(fs.faults) ==> ok)
    {
      hide AgentRun, WellFormed, Roots.Valid, IsAppDiffs, IsAggregate, ReadableChange, AppsDone, TreeDone;
      hide AppsInterrupted;
      hide IsChange, Attempted, IsDesiredState, DesiredOk, Dag.Acyclic, TreeStopped, ForeignKept;
      hide SystemDiff.IsRollbackSafe, SymlinkChanges.IsRollbackSafe, Activates, Unhindered, SubdirEntries, WayBackClear;
      hide HostFs.JobsEnd, Activated, Performs, UnitsWaited;
      ghost var m, oldApps := OnHost(), AppsAt(trees, name, host.current);
      ClearReadable(fs.tree, place, oldApps, After(target));
      back, d := Change(map[], EMPTY_DIFF.symlinks), NOTHING_DESIRED;
      var r := DiffBack(target);
      if r.Err? {
        return false, back, d;
      }
      var (diffs, system) := r.value;
      back := Change(diffs, system.symlinks);
      ok := CheckoutHost(fs, diffs, RollbackPrefix(host.current, target), Reuse);
      ghost var out := OnHost();
      CheckedOutIsAttempted(m, out, place, back, RollbackPrefix(host.current, target));
      BackIsPartOfAttempt(x, m, out, place, ch, back, oldApps, After(target));
      if !ok {
        return;
      }
      var desired := DesiredAt(host.current);
      ClearEntries(m.tree, place, oldApps, After(target), back);
      if desired.Err? {
        return false, back, d;
      }
      d := desired.value;
      ClearActivates(m.tree, fs.apps, place, oldApps, After(target), back, d);
      ghost var log := OnRecord();
      ok := Activate(fs, true, place.appsDir, place.roots, desired.value, system);
      ActivatedWith(fs, place, diffs, oldApps, true, log, OnRecord(), ok, system, d);
      ActivatedIsAttempted(out, OnHost(), place, back);
      BackIsPartOfAttempt(x, out, OnHost(), place, ch, back, oldApps, After(target));
      if ok && host.current.Some? {
        ok := SetTarget(host.current);
      }
    }

    /** Roll back after a failed activation. The outcome of the rollback is the outcome of the apply. */
    method HandleRollback(target: Oid, ghost x: Snapshot, ghost ch: Change) returns (outcome: ApplyOutcome)
      requires Valid() && target in trees && Last().session.phase.Prepared?
      requires var s := Last().session;
               s.command.Deploy? && s.host in s.command.plan.safe && s.command.plan.safe[s.host]
      requires IsChange(ch, place, AppsAt(trees, name, host.current), After(target)) && ch.links.IsRollbackSafe()
      requires Attempted(x, OnHost(), place, ch)
      requires AppsDone(x.apps, fs.apps, ch.diffs, OidPrefix(target), Fresh)
      requires TreeStopped(x.tree, fs.tree, place.roots, ch.links)
      modifies this, fs`apps, fs`tree, fs`faults, fs`ran, fs`watched
      ensures outcome.RolledBack? ==>
                RanBack(fs, place, AppsAt(trees, name, host.current), After(target), old(OnRecord()), OnRecord())
      ensures Valid() && old(trace) <= trace && Last().session == old(Last().session).(phase := Failed)
      ensures (outcome.RolledBack? || outcome.RollbackFailed?) && old(fs.faults) <= fs.faults
      ensures host == if outcome.RolledBack? && old(host).current.Some?
                      then old(host).(target := old(host).current) else old(host)
      ensures OnDisk(outcome, true, x, OnHost(), place, AppsAt(trees, name, host.current), After(target),
                     OidPrefix(target), RollbackPrefix(host.current, target), ch)
      ensures WayBackClear(old(fs.tree), place, AppsAt(trees, name, host.current), After(target)) ==>
                (fs.faults == old(fs.faults) ==> outcome.RolledBack?)
    {
      hide AgentRun, WellFormed, Roots.Valid, AppsDone, TreeDone, IsChange, Attempted, IsDesiredState, Dag.Acyclic;
      hide TreeStopped;
      hide SymlinkChanges.IsRollbackSafe, WayBackClear, HostFs.JobsEnd, Activated;
      ghost var s, m := Last().session, OnHost();
      Take(Event(false, StartsRollback(sid)), Last().(session := s.(phase := RollingBack)));
      var ok;
      ghost var back, d;
      ok, back, d := TryRollback(target, x, ch);
      if ok {
        outcome := RolledBack;
        Take(Event(false, FinishesRollback(sid)), Local(s.(phase := Failed), host, Last().driver));
        assert Reverted(x, m, OnHost(), place, ch, back, OidPrefix(target), RollbackPrefix(host.current, target), d);
      } else {
        outcome := RollbackFailed;
        Take(Event(false, FailsRollback(sid)), Last().(session := s.(phase := Failed)));
      }
    }

    /** After the activation: the `current` ref, then the recorded hostname. */
    method RecordApplied(target: Oid) returns (ok: bool)
      requires Valid() && target in trees && target in host.store
      requires Last().session.phase.Prepared? && Last().session.Commit() == Some(target)
      modifies this, fs`faults
      ensures Valid() && old(trace) <= trace && old(fs.faults) <= fs.faults
      ensures Last().session == old(Last().session).(phase := if ok then Recorded else Failed)
      ensures host.target == old(host.target) && host.current in {old(host.current), Some(target)}
      ensures ok ==> fs.faults == old(fs.faults)
      ensures if ok then host.current == Some(target) && host.deployedName == Some(name) else old(fs.faults) < fs.faults
    {
      hide AgentRun, WellFormed, Roots.Valid, Dag.Acyclic, LocalStep;
      ghost var s := Last().session;
      FinishSteps(dag, trees, Last(), target);
      var setRefFails := fs.MayFail();
      if setRefFails {
        Take(Event(false, FailsApply(sid)), Last().(session := s.(phase := Failed)));
        return false;
      }
      host := host.(current := Some(target), line := host.line + {target}, past := host.past + {target});
      Take(Event(false, MovesCurrent(sid)), Local(s.(phase := Moved), host, Last().driver));
      var recordFails := fs.MayFail();
      if recordFails {
        Take(Event(false, RecordsHostname(sid)), Last().(session := s.(phase := Failed)));
        return false;
      }
      host := host.(deployedName := Some(name));
      Take(Event(false, RecordsHostname(sid)), Local(s.(phase := Recorded), host, Last().driver));
      return true;
    }

    /** The refs, and garbage collection last. */
    method FinishApply(target: Oid) returns (outcome: ApplyOutcome)
      requires Valid() && target in trees && target in host.store
      requires Last().session.phase.Prepared? && Last().session.Commit() == Some(target)
      modifies this, fs`apps, fs`faults, fs`misreads
      ensures Valid() && old(trace) <= trace
      ensures Last().session
              == old(Last().session).(phase := if outcome.ApplyComplete? then Protocol.Completed else Failed)
      ensures outcome.ApplyComplete? || outcome.ApplyFailed?
      ensures outcome.ApplyComplete? ==>
                && host.current == Some(target) && host.target == old(host.target) && host.deployedName == Some(name)
                && OnlyRemoved(old(fs.apps), fs.apps)
                && (fs.misreads == old(fs.misreads) ==> Collected(old(fs.apps), fs.apps))
                && (fs.faults == old(fs.faults) ==> OnlyNamed(fs.apps))
      ensures outcome.ApplyFailed? ==>
                && fs.apps == old(fs.apps) && host.target == old(host.target)
                && host.current in {old(host.current), Some(target)}
                && old(fs.faults) < fs.faults
      ensures old(fs.faults) <= fs.faults
    {
      hide AgentRun, WellFormed, Roots.Valid, Dag.Acyclic, Collected, OnlyRemoved, OnlyNamed;
      ghost var s := Last().session;
      var ok := RecordApplied(target);
      if !ok {
        return ApplyFailed;
      }
      var _ := GcOldCheckouts(fs);
      Take(Event(false, Step.Completes(sid)), Last().(session := s.(phase := Protocol.Completed)));
      return ApplyComplete;
    }

    /** Checkout and activation; a failure before the activation has begun is none to roll back from. */
    method Deliver(target: Oid, mode: ApplyMode, diffs: map<Name, AppDiff>, system: SystemDiff<Path>)
      returns (activating: bool, ok: bool, ghost d: DesiredState)
      requires WellFormed(fs.tree) && place.roots.Valid() && fs.JobsEnd() && target in trees
      requires IsAggregate(system, place.appsDir, diffs)
      modifies fs`apps, fs`tree, fs`faults, fs`ran, fs`watched
      ensures if activating
              then Activated(fs, place, diffs, After(target), mode.DeployMode?, old(OnRecord()), OnRecord(), ok)
              else !ok && OnRecord() == old(OnRecord())
      ensures WellFormed(fs.tree) && Attempted(old(OnHost()), OnHost(), place, Change(diffs, system.symlinks))
      ensures activating ==>
                && AppsDone(old(fs.apps), fs.apps, diffs, OidPrefix(target), Fresh)
                && TreeStopped(old(fs.tree), fs.tree, place.roots, system.symlinks)
                && IsDesiredState(d, place.appsDir, After(target))
                && StoppedRuns(old(fs.tree), fs.tree, place.appsDir, place.roots, system.symlinks, d, fs.enablement)
      ensures ok ==>
                && activating
                && TreeDone(old(fs.tree), fs.tree, place.appsDir, place.roots, system.symlinks, d)
      ensures old(fs.faults) <= fs.faults
      ensures Unhindered(old(fs.tree), place, system.symlinks, After(target)) && fs.faults == old(fs.faults) ==> ok
      ensures ValidHost(After(target)) && fs.faults == old(fs.faults) ==> activating
    {
      hide Activates, Unhindered, SubdirEntries, StoppedRuns, ValidHost, HostFs.JobsEnd, Activated, Performs;
      hide UnitsWaited, IsAggregate;
      hide WellFormed, Roots.Valid, AppsDone, TreeDone, Attempted, IsDesiredState, DesiredOk, TreeStopped;
      hide AppsInterrupted, ForeignKept;
      ghost var x, ch, p := OnHost(), Change(diffs, system.symlinks), OidPrefix(target);
      d := NOTHING_DESIRED;
      ok := CheckoutHost(fs, diffs, OidPrefix(target), Fresh);
      ghost var m := OnHost();
      CheckedOutIsAttempted(x, m, place, ch, p);
      if !ok {
        return false, false, d;
      }
      var desired := DesiredAt(Some(target));
      if desired.Err? {
        UnhinderedReadable(x.tree, place, ch.links, After(target));
        if ValidHost(After(target)) {
          ValidReadable(After(target));
        }
        return false, false, d;
      }
      d := desired.value;
      if Unhindered(x.tree, place, ch.links, After(target)) {
        UnhinderedActivates(x.tree, fs.apps, place, ch.links, After(target), d);
      }
      ghost var log := OnRecord();
      ok := Activate(fs, mode.DeployMode?, place.appsDir, place.roots, desired.value, system);
      ActivatedWith(fs, place, diffs, After(target), mode.DeployMode?, log, OnRecord(), ok, system, d);
      DoneIsAttempted(x, OnHost(), place, ch, p, m.apps);
      TreeStoppedWellFormed(x.tree, fs.tree, place.roots, ch.links);
      activating := true;
    }

    /** Checkout, activation, the `current` ref, the recorded hostname, garbage collection: in this order. */
    method ApplyModification(target: Oid, mode: ApplyMode, diffs: map<Name, AppDiff>, system: SystemDiff<Path>)
      returns (outcome: ApplyOutcome)
      requires Valid() && Last().session.phase.Prepared? && Applying(target, mode, diffs, system)
      modifies this, fs
      ensures Valid() && old(trace) <= trace
      ensures Last().session
              == old(Last().session).(phase := if outcome.ApplyComplete? then Protocol.Completed else Failed)
      ensures outcome.ApplyComplete? || outcome.ApplyFailed? || outcome.RolledBack? || outcome.RollbackFailed?
      ensures mode.ReapplyMode? ==> outcome.ApplyComplete? || outcome.ApplyFailed?
      ensures outcome.ApplyComplete? ==> host.current == host.target == Some(target) && host.deployedName == Some(name)
      ensures outcome.RolledBack? ==>
                host == if old(host).current.Some? then old(host).(target := old(host).current) else old(host)
      ensures outcome.RollbackFailed? ==> host == old(host)
      ensures Carried(outcome, fs, place, mode, old(Before(mode)), After(target), Change(diffs, system.symlinks),
                      old(OnRecord()), OnRecord())
      ensures outcome.ApplyComplete? && fs.faults == old(fs.faults) ==> OnlyNamed(fs.apps)
      ensures OnDisk(outcome, fs.misreads == old(fs.misreads), old(OnHost()), OnHost(), place, old(Before(mode)),
                     After(target),
                     OidPrefix(target), RollbackPrefix(old(host.current), target), Change(diffs, system.symlinks))
      ensures old(fs.faults) <= fs.faults
      ensures Unhindered(old(fs.tree), place, system.symlinks, After(target)) && fs.faults == old(fs.faults) ==>
                outcome.ApplyComplete?
      ensures mode.DeployMode? && mode.isRollbackSafe && ValidHost(After(target))
              && Rescuable(old(fs.tree), place, old(Before(mode)), fs.enablement) ==>
                Rescued(outcome, fs.faults - old(fs.faults),
                        Unhindered(old(fs.tree), place, system.symlinks, After(target)))
    {
      hide Unhindered, Rescuable, ValidHost, StoppedRuns, WayBackClear, HostFs.JobsEnd, Activated, RanBack, OnlyNamed;
      hide AgentRun, WellFormed, Roots.Valid, AppsDone, TreeDone, IsChange, Attempted, IsDesiredState, Dag.Acyclic;
      hide TreeStopped;
      hide IsAppDiffs, IsAggregate, ForeignKept, SystemDiff.IsRollbackSafe, SymlinkChanges.IsRollbackSafe, Collected;
      ghost var x, ch, s := OnHost(), Change(diffs, system.symlinks), Last().session;
      ghost var oldApps, p := Before(mode), OidPrefix(target);
      AggregateIsChange(system, place, diffs, oldApps, After(target));
      var activating, ok;
      ghost var d;
      activating, ok, d := Deliver(target, mode, diffs, system);
      ghost var log := OnRecord();
      var rollbackOnFailure := mode.DeployMode? && system.IsRollbackSafe();
      if activating && !ok && rollbackOnFailure {
        if ValidHost(After(target)) && Rescuable(x.tree, place, oldApps, fs.enablement) {
          SafeUnhindered(x.tree, fs.tree, place, oldApps, After(target), diffs, system, d, fs.enablement);
        }
        outcome := HandleRollback(target, x, ch);
        return;
      }
      if !ok {
        Take(Event(false, FailsApply(sid)), Last().(session := s.(phase := Failed)));
        return ApplyFailed;
      }
      ghost var done := OnHost();
      AttemptKeepsForeign(x, done, place, ch);
      outcome := FinishApply(target);
      if outcome.ApplyComplete? {
        assert Applied(x, OnHost(), place, ch, p, d, fs.misreads == old(fs.misreads));
      } else {
        assert OnHost() == done;
      }
    }

    /**
      An apply request, from its checks to its outcome. A rolled-back deploy
      leaves the commit that was there, a completed one the commit that was
      asked for.
     */
    method HandleApply(target: Oid, mode: ApplyMode) returns (outcome: ApplyOutcome, ghost ch: Change)
      requires Valid() && locked && Serves(Last().session, target, mode)
      modifies this, fs
      ensures Valid() && old(trace) <= trace
      ensures outcome.PreApplyError? ==> host == old(host) && OnHost() == old(OnHost()) && trace == old(trace)
      ensures outcome.PreApplyError? ==>
                old(fs.faults) < fs.faults || PrepareResult(dag, trees, name, old(host), target, mode) == Refused
      ensures PrepareResult(dag, trees, name, old(host), target, mode) == Ready ==>
                (Unhindered(old(fs.tree), place, ch.links, After(target)) ==>
                   (fs.faults == old(fs.faults) ==> outcome.ApplyComplete?))
      ensures mode.DeployMode? && mode.isRollbackSafe && ValidHost(After(target))
              && Rescuable(old(fs.tree), place, old(Before(mode)), fs.enablement)
              && PrepareResult(dag, trees, name, old(host), target, mode) == Ready ==>
                Rescued(outcome, fs.faults - old(fs.faults), Unhindered(old(fs.tree), place, ch.links, After(target)))
      ensures outcome.AssertionFailed? ==>
                && host == old(host) && OnHost() == old(OnHost())
                && PrepareResult(dag, trees, name, old(host), target, mode) == Panics(outcome.panic)
      ensures !outcome.PreApplyError? && !outcome.AssertionFailed? ==>
                OnDisk(outcome, fs.misreads == old(fs.misreads), old(OnHost()), OnHost(), place, old(Before(mode)),
                       After(target), OidPrefix(target), RollbackPrefix(old(host.current), target), ch)
      ensures Carried(outcome, fs, place, mode, old(Before(mode)), After(target), ch, old(OnRecord()), OnRecord())
      ensures outcome.ApplyComplete? ==> UnitsUp(fs, ch.diffs, old(fs.watched), fs.watched)
      ensures outcome.ApplyComplete? && fs.faults == old(fs.faults) ==> OnlyNamed(fs.apps)
      ensures outcome.ApplyComplete? ==> host.current == host.target == Some(target) && host.deployedName == Some(name)
      ensures outcome.RolledBack? ==>
                host.current == old(host.current) && (host.current.Some? ==> host.target == host.current)
      ensures outcome.RolledBack? && RollbackReady(old(OnHost()), place, old(Before(mode)),
                                                   OidPrefix(target), RollbackPrefix(old(host.current), target)) ==>
                FullyAt(OnHost(), place, old(Before(mode))) && ManagedAreaOnly(old(fs.tree), fs.tree, place.roots)
      ensures outcome.ApplyComplete? && fs.misreads == old(fs.misreads)
              && AtCommit(old(OnHost()), place, old(Before(mode)))
              && LinksPlaced(place, After(target)) && NoneIsStranded(old(Before(mode)), After(target)) ==>
                FullyAt(OnHost(), place, After(target))
      ensures mode.ReapplyMode? ==> !outcome.RolledBack? && !outcome.RollbackFailed?
      ensures mode.ReapplyMode? && outcome.ApplyComplete? && fs.misreads == old(fs.misreads)
              && LinksPlaced(place, After(target)) ==>
                && RestoredTo(OnHost(), place, After(target))
                && (old(fs.apps.Keys) == After(target).Keys ==> FullyAt(OnHost(), place, After(target)))
      ensures !outcome.PreApplyError? && !outcome.AssertionFailed? ==>
                ForeignKept(old(fs.tree), fs.tree, place.appsDir, place.roots, ch.links)
    {
      hide AgentRun, WellFormed, Roots.Valid, OnDisk, RollbackReady, FullyAt, AtCommit, LinksPlaced, NoneIsStranded;
      hide ManagedAreaOnly, Dag.Acyclic;
      hide IsAppDiffs, IsAggregate, SystemDiff.IsRollbackSafe, RestoredTo, ForeignKept, Unhindered, PrepareResult;
      hide Carried, UnitsUp, HostFs.JobsEnd, Rescuable, ValidHost, OnlyNamed;
      ghost var x, log, oldApps, q := OnHost(), OnRecord(), Before(mode), RollbackPrefix(host.current, target);
      ghost var misreads := fs.misreads;
      var answer, diffs, system := PrepareApply(target, mode);
      ch := Change(diffs, system.symlinks);
      match answer {
        case Refused =>
          outcome := PreApplyError;
          NothingCarried(outcome, fs, place, mode, oldApps, After(target), ch, log, OnRecord());
        case Panics(p) =>
          outcome := AssertionFailed(p);
          NothingCarried(outcome, fs, place, mode, oldApps, After(target), ch, log, OnRecord());
        case Ready =>
          outcome := ApplyModification(target, mode, diffs, system);
          CarriedUnits(outcome, fs, place, mode, oldApps, After(target), ch, log, OnRecord());
          OutcomeAtCommit(outcome, fs.misreads == misreads, x, OnHost(), place, mode, oldApps, After(target),
                          OidPrefix(target), q, ch);
      }
    }

    /** The end of the requests: the session is dropped, and the lock with it. */
    method Close()
      requires Valid() && (Last().session.phase.Completed? || Last().session.phase.Failed?)
      modifies this
      ensures Valid() && !locked && host == old(host) && old(trace) <= trace
      ensures var ended := if old(Last().session.phase.Completed?) then Released else Ended;
              Last().session == old(Last().session).(phase := ended)
    {
      hide AgentRun, WellFormed, Roots.Valid, Dag.Acyclic;
      ghost var s := Last().session;
      locked := false;
      Take(Event(false, Releases(sid)),
           Last().(session := s.(phase := if s.phase.Completed? then Released else Ended)));
    }
  }
}
