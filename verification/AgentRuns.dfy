/**
  The agent's steps are taken among the steps of every other session and
  driver. A run of one agent, cut up in any way by theirs, is a run of the
  cluster.
 */
module AgentRuns {
  import opened Wrappers
  import opened Paths
  import opened Trees
  import opened Plan
  import opened History
  import opened Planner
  import opened Protocol
  import opened Agent

  /** A step in which the session takes part, on either side. */
  predicate IsStepOf(step: Step, sid: SessionId) {
    !step.Plans? && !step.Wipes? && step.sid == sid
  }

  /** Steps of the cluster in which the session takes no part. */
  ghost predicate OthersRun(r: seq<Cluster>, steps: seq<Step>, sid: SessionId) {
    && |r| == |steps| + 1
    && forall i :: 0 <= i < |steps| ==> Graph(r[i]) && NextBy(r[i], steps[i], r[i + 1]) && !IsStepOf(steps[i], sid)
  }

  ghost predicate ByOthers(c: Cluster, sid: SessionId, c': Cluster) {
    exists r, steps :: OthersRun(r, steps, sid) && r[0] == c && r[|steps|] == c'
  }

  /** The session and the host are as the agent knows them, and the commits that it knows of are the cluster's. */
  ghost predicate Fits(dag: Dag, trees: map<Oid, Tree>, c: Cluster, sid: SessionId, l: Local) {
    && SessionAt(c, sid) && c.sessions[sid] == l.session && c.hosts[l.session.host] == l.host
    && Extends(dag, trees, c.dag, c.trees)
  }

  /** The cluster after the agent's step, which leaves drivers alone. */
  function Taking(c: Cluster, sid: SessionId, l: Local): Cluster
    requires sid in c.sessions && c.sessions[sid].driver in c.drivers
  {
    Updated(c, sid, l.(driver := c.drivers[c.sessions[sid].driver]))
  }

  // ----- The agent's step in the cluster -----

  lemma PackStable(g: Dag, trees: map<Oid, Tree>, g': Dag, trees': map<Oid, Tree>, want: Oid, have: Option<Oid>)
    requires Extends(g, trees, g', trees') && want in g.parents && (have.Some? ==> have.value in g.parents)
    ensures PackOf(g', want, have) == PackOf(g, want, have)
  {
    forall a ensures a in PackOf(g', want, have) <==> a in PackOf(g, want, have) {
      ReachesStable(g, g', want, a);
      if have.Some? {
        ReachesStable(g, g', have.value, a);
      }
      if g.Reaches(want, a) {
        ReachesKnown(g, want, a);
      }
    }
  }

  lemma PrepareDeployStable(g: Dag, trees: map<Oid, Tree>, g': Dag, trees': map<Oid, Tree>, name: Name, h: Host,
                            target: Oid, safe: bool)
    requires Extends(g, trees, g', trees') && h.store <= g.parents.Keys
    requires h.current.Some? ==> h.current.value in h.store
    ensures PrepareDeploy(g', trees', name, h, target, safe) == PrepareDeploy(g, trees, name, h, target, safe)
  {
    hide SafeHostChange, ReadableChange, GetHostApps;
    if target in h.store {
      if h.current.Some? {
        ReachesStable(g, g', target, h.current.value);
      }
      hide Dag.Reaches;
      assert AppsAt(trees', name, h.current) == AppsAt(trees, name, h.current);
      assert AppsAt(trees', name, Some(target)) == AppsAt(trees, name, Some(target));
    }
  }

  lemma PrepareReapplyStable(g: Dag, trees: map<Oid, Tree>, g': Dag, trees': map<Oid, Tree>, name: Name, h: Host,
                             target: Oid)
    requires Extends(g, trees, g', trees') && h.store <= g.parents.Keys
    ensures PrepareReapply(trees', name, h, target) == PrepareReapply(trees, name, h, target)
  {
    hide ReadableChange, GetHostApps;
  }

  lemma LockStable(g: Dag, trees: map<Oid, Tree>, g': Dag, trees': map<Oid, Tree>, name: Name, h: Host, busy: bool,
                   e: Option<Oid>)
    requires Extends(g, trees, g', trees') && h.store <= g.parents.Keys
    requires h.current.Some? ==> h.current.value in h.store
    ensures LockResult(trees', name, h, busy, e) == LockResult(trees, name, h, busy, e)
  {
  }

  /** An agent's step does not depend on its driver, nor on commits that its host does not have. */
  lemma MoveStable(dag: Dag, trees: map<Oid, Tree>, sid: SessionId, i: nat, e: Event, a: Local, b: Local,
                   g': Dag, trees': map<Oid, Tree>, d: Driver, busy: bool)
    requires dag.Acyclic() && AgentMove(dag, trees, sid, i, e, a, b) && Extends(dag, trees, g', trees')
    requires e.step.Locks? ==> e.busy == busy
    ensures g'.Acyclic() && LocalStep(g', trees', busy, e.step, a.(driver := d), b.(driver := d))
  {
    hide Dag.Acyclic, PackOf, PrepareDeploy, PrepareReapply, LockResult;
    assert g'.Acyclic();
    var s := a.session;
    match e.step
    case Locks(_) => LockStable(dag, trees, g', trees', s.host, a.host, busy, s.expected);
    case ReceivesPack(_) => PackStable(dag, trees, g', trees', s.command.plan.commit, s.expected);
    case Prepares(_) =>
      if PrepareDeployStep(dag, trees, a, b) {
        PrepareDeployStable(dag, trees, g', trees', s.host, a.host, s.command.plan.commit, s.command.plan.safe[s.host]);
      } else {
        PrepareReapplyStable(dag, trees, g', trees', s.host, a.host, s.expected.value);
      }
    case _ =>
  }

  lemma AgentStepIsStep(dag: Dag, trees: map<Oid, Tree>, c: Cluster, sid: SessionId, i: nat, e: Event, a: Local,
                        b: Local)
    requires dag.Acyclic() && AgentMove(dag, trees, sid, i, e, a, b) && Graph(c) && Fits(dag, trees, c, sid, a)
    requires e.step.Locks? ==> e.busy == Taken(c, a.session.host)
    ensures NextBy(c, e.step, Taking(c, sid, b))
    ensures b.session.host == a.session.host && b.session.driver == a.session.driver
    ensures Fits(dag, trees, Taking(c, sid, b), sid, b)
  {
    var d, busy := c.drivers[a.session.driver], Taken(c, a.session.host);
    MoveStable(dag, trees, sid, i, e, a, b, c.dag, c.trees, d, busy);
    MovePlace(dag, trees, sid, i, e, a, b);
    hide AgentMove, LocalStep, Taken, Extends, Dag.Acyclic;
    assert LocalAt(c, sid) == a.(driver := d);
  }

  lemma MovePlace(dag: Dag, trees: map<Oid, Tree>, sid: SessionId, i: nat, e: Event, a: Local, b: Local)
    requires dag.Acyclic() && AgentMove(dag, trees, sid, i, e, a, b)
    ensures b.session.host == a.session.host && b.session.driver == a.session.driver
    ensures IsAgentStep(e.step) && e.step.sid == sid
  {
    hide Dag.Acyclic, PackOf, PrepareDeploy, PrepareReapply, LockResult;
  }

  // ----- The steps of others -----

  /** Commits are only ever added. */
  lemma StepExtends(c: Cluster, step: Step, c': Cluster)
    requires Graph(c) && Graph(c') && NextBy(c, step, c')
    ensures Extends(c.dag, c.trees, c'.dag, c'.trees)
  {
    hide LocalStep, Taken, Dag.Acyclic, IsPlan, ValidConfig;
    if IsSessionStep(step) {
      var b := TakeStep(c, step, c');
    }
  }

  lemma ExtendsTransitive(g: Dag, t: map<Oid, Tree>, g': Dag, t': map<Oid, Tree>, g'': Dag, t'': map<Oid, Tree>)
    requires Extends(g, t, g', t') && Extends(g', t', g'', t'')
    ensures Extends(g, t, g'', t'')
  {
    hide Dag.Acyclic;
  }

  /** While a session holds the lock, no step of others changes the session or its host. */
  lemma OthersLeave(c: Cluster, step: Step, c': Cluster, sid: SessionId)
    requires Inv(c) && NextBy(c, step, c') && SessionAt(c, sid) && c.sessions[sid].HoldsLock() && !IsStepOf(step, sid)
    ensures SessionAt(c', sid) && c'.sessions[sid] == c.sessions[sid]
    ensures var h := c.sessions[sid].host; c'.hosts[h] == c.hosts[h]
  {
    InvGraph(c);
    SessionLeft(c, step, c', sid);
    HostStep(c, step, c', c.sessions[sid].host);
    HolderIsOne(c, step, sid);
    hide Inv, NextBy, Session.HoldsLock;
  }

  lemma HolderIsOne(c: Cluster, step: Step, sid: SessionId)
    requires Inv(c) && SessionAt(c, sid) && c.sessions[sid].HoldsLock() && !IsStepOf(step, sid)
    ensures c.sessions[sid].AgentOpen()
    ensures IsSessionStep(step) && step.sid in c.sessions && c.sessions[step.sid].host == c.sessions[sid].host ==>
              !c.sessions[step.sid].HoldsLock()
  {
    hide HostsInv, DriversInv, SessionsInv, Session.HoldsLock;
  }

  lemma SessionLeft(c: Cluster, step: Step, c': Cluster, sid: SessionId)
    requires Graph(c) && NextBy(c, step, c') && SessionAt(c, sid) && !IsStepOf(step, sid)
    ensures sid in c'.sessions && c'.sessions[sid] == c.sessions[sid] && c.sessions[sid].driver in c'.drivers
  {
    hide LocalStep, Taken, Dag.Acyclic, IsPlan, ValidConfig;
    if IsSessionStep(step) {
      var b := TakeStep(c, step, c');
    }
  }

  lemma {:induction false} OthersKeep(dag: Dag, trees: map<Oid, Tree>, r: seq<Cluster>, steps: seq<Step>, i: nat,
                                      sid: SessionId, l: Local)
    requires OthersRun(r, steps, sid) && i < |r| && Inv(r[0]) && Fits(dag, trees, r[0], sid, l) && l.session.HoldsLock()
    ensures Inv(r[i]) && Fits(dag, trees, r[i], sid, l)
  {
    hide Inv, Graph, NextBy, Extends, Session.HoldsLock;
    if i > 0 {
      OthersKeep(dag, trees, r, steps, i - 1, sid, l);
      var c, step, c' := r[i - 1], steps[i - 1], r[i];
      StepKeepsInv(c, step, c');
      InvGraph(c');
      OthersLeave(c, step, c', sid);
      StepExtends(c, step, c');
      ExtendsTransitive(dag, trees, c.dag, c.trees, c'.dag, c'.trees);
    }
  }

  lemma ByOthersKeep(dag: Dag, trees: map<Oid, Tree>, c: Cluster, sid: SessionId, c': Cluster, l: Local)
    requires ByOthers(c, sid, c') && Inv(c) && Fits(dag, trees, c, sid, l) && l.session.HoldsLock()
    ensures Inv(c') && Fits(dag, trees, c', sid, l)
  {
    hide Inv, Fits, NextBy, Graph, Session.HoldsLock;
    var r, steps :| OthersRun(r, steps, sid) && r[0] == c && r[|steps|] == c';
    OthersKeep(dag, trees, r, steps, |steps|, sid, l);
  }

  // ----- The whole session -----

  /**
    The clusters around an agent's steps: the agent starts in `cs[0]`, takes its
    `i`-th step in `cs[i]`, and between its steps others take any number of theirs.
   */
  ghost predicate Interleaved(dag: Dag, trees: map<Oid, Tree>, sid: SessionId, ls: seq<Local>, es: seq<Event>,
                              cs: seq<Cluster>) {
    && |ls| == |es| + 1 && |cs| == |es| > 0 && Inv(cs[0]) && Fits(dag, trees, cs[0], sid, ls[0])
    && (es[0].busy <==> Taken(cs[0], ls[0].session.host))
    && forall i :: 0 < i < |es| ==> LeadsTo(cs[i - 1], sid, ls[i], cs[i])
  }

  /** From where the agent has taken a step, to where it takes its next one. */
  ghost predicate LeadsTo(c: Cluster, sid: SessionId, l: Local, c': Cluster) {
    SessionAt(c, sid) && ByOthers(Taking(c, sid, l), sid, c')
  }

  /**
    However the steps of others come between them, the steps that an agent's
    methods record are steps of the cluster, each taken in a state that the
    agent knows, and the run invariant holds before and after each.
   */
  lemma {:induction false} AgentKeepsInv(dag: Dag, trees: map<Oid, Tree>, sid: SessionId, ls: seq<Local>,
                                         es: seq<Event>, cs: seq<Cluster>, i: nat)
    requires dag.Acyclic() && AgentRun(dag, trees, sid, ls, es) && Interleaved(dag, trees, sid, ls, es, cs) && i < |es|
    ensures Inv(cs[i]) && Fits(dag, trees, cs[i], sid, ls[i])
    ensures NextBy(cs[i], es[i].step, Taking(cs[i], sid, ls[i + 1]))
    ensures Inv(Taking(cs[i], sid, ls[i + 1])) && Fits(dag, trees, Taking(cs[i], sid, ls[i + 1]), sid, ls[i + 1])
  {
    hide Inv, Extends, NextBy, ByOthers, Taken, AgentMove, Dag.Acyclic, Updated;
    assert AgentMove(dag, trees, sid, i, es[i], ls[i], ls[i + 1]);
    if i > 0 {
      AgentKeepsInv(dag, trees, sid, ls, es, cs, i - 1);
      LaterMove(dag, trees, sid, i, es[i], ls[i], ls[i + 1]);
      ByOthersKeep(dag, trees, Taking(cs[i - 1], sid, ls[i]), sid, cs[i], ls[i]);
    }
    InvGraph(cs[i]);
    FirstMove(dag, trees, sid, i, es[i], ls[i], ls[i + 1]);
    AgentStepIsStep(dag, trees, cs[i], sid, i, es[i], ls[i], ls[i + 1]);
    StepKeepsInv(cs[i], es[i].step, Taking(cs[i], sid, ls[i + 1]));
  }

  lemma LaterMove(dag: Dag, trees: map<Oid, Tree>, sid: SessionId, i: nat, e: Event, a: Local, b: Local)
    requires dag.Acyclic() && AgentMove(dag, trees, sid, i, e, a, b) && i > 0
    ensures a.session.HoldsLock()
  {
  }

  lemma FirstMove(dag: Dag, trees: map<Oid, Tree>, sid: SessionId, i: nat, e: Event, a: Local, b: Local)
    requires dag.Acyclic() && AgentMove(dag, trees, sid, i, e, a, b)
    ensures e.step.Locks? ==> i == 0
  {
  }
}
