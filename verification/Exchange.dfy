/**
  The two sides of an apply together: what the driver concludes from the
  messages is how the agent's apply ended, and what it then does to its store
  are steps of the cluster protocol.
 */
module Exchange {
  import opened Wrappers
  import opened Paths
  import opened History
  import Protocol
  import Agent
  import opened Deployment

  /** The message that ends an apply, by its outcome. An agent whose assertion fails sends none. */
  function LastMessage(outcome: Agent.ApplyOutcome, target: Oid): Option<Message> {
    match outcome
    case PreApplyError => Some(ErrorPreApply)
    case AssertionFailed(_) => None
    case ApplyComplete => Some(Message.ApplyComplete(target))
    case ApplyFailed => Some(HasFailed)
    case RolledBack => Some(HasRolledBack)
    case RollbackFailed => Some(RollbackHasFailed)
  }

  /** The error that the driver shows for an apply that neither completed nor was rolled back. */
  function FailureOf(outcome: Agent.ApplyOutcome): Option<HostError> {
    match outcome
    case PreApplyError => Some(PreApply)
    case AssertionFailed(_) => Some(ProtocolError)
    case ApplyFailed => Some(HostError.ApplyFailed)
    case RollbackFailed => Some(HostError.RollbackFailed)
    case ApplyComplete => None
    case RolledBack => None
  }

  predicate IsProgress(m: Message) {
    m.NowRollingBack? || m.Waiting? || m.Output?
  }

  /** All that an agent sends for an apply: reports of progress, and how it ended. */
  ghost predicate Sends(ms: seq<Message>, outcome: Agent.ApplyOutcome, target: Oid) {
    match LastMessage(outcome, target)
    case None => forall m :: m in ms ==> IsProgress(m)
    case Some(last) => ms != [] && ms[|ms| - 1] == last && forall m :: m in ms[..|ms| - 1] ==> IsProgress(m)
  }

  /** The connection may break, or just end, after any message. */
  ghost predicate Delivers(wire: Wire, ms: seq<Message>) {
    wire.messages <= ms
  }

  lemma EarlierIsProgress(wire: Wire, ms: seq<Message>, outcome: Agent.ApplyOutcome, target: Oid, i: nat)
    requires Sends(ms, outcome, target) && Delivers(wire, ms) && i < |wire.messages|
    ensures IsProgress(wire.messages[i]) || (i == |ms| - 1 && LastMessage(outcome, target) == Some(wire.messages[i]))
  {
    assert wire.messages[i] == ms[i];
    if i < |ms| - 1 {
      assert ms[i] == ms[..|ms| - 1][i];
    }
  }

  /**
    The driver takes an apply for finished or rolled back only when the agent's
    apply ended so, and with the commit that was asked for. Neither a deploy nor
    a reapply that did not roll back makes it panic.
   */
  lemma {:induction false} DriverConcludes(wire: Wire, ms: seq<Message>, outcome: Agent.ApplyOutcome, target: Oid)
    requires Sends(ms, outcome, target) && Delivers(wire, ms)
    ensures forall c :: Finishes(wire, c) ==> outcome.ApplyComplete? && c == target
    ensures Reverts(wire) ==> outcome.RolledBack?
    ensures !Misreports(wire, target)
  {
    forall i: nat | i < |wire.messages|
      ensures IsProgress(wire.messages[i]) || (i == |ms| - 1 && LastMessage(outcome, target) == Some(wire.messages[i]))
    {
      EarlierIsProgress(wire, ms, outcome, target, i);
    }
    hide Sends, Delivers;
  }

  /**
    And when all of the agent's messages arrive, it takes every completed apply
    for finished and every rollback for one.
   */
  lemma {:induction false} DriverLearns(wire: Wire, ms: seq<Message>, outcome: Agent.ApplyOutcome, target: Oid)
    requires Sends(ms, outcome, target) && wire.messages == ms && wire.broken.None?
    ensures Finishes(wire, target) <==> outcome.ApplyComplete?
    ensures Reverts(wire) <==> outcome.RolledBack?
    ensures forall e :: FailsWith(wire, e) <==> FailureOf(outcome) == Some(e)
  {
    DriverConcludes(wire, ms, outcome, target);
    var n := |ms| - 1;
    forall i: nat | i < |ms| ensures IsProgress(ms[i]) || (i == n && LastMessage(outcome, target) == Some(ms[i])) {
      EarlierIsProgress(wire, ms, outcome, target, i);
    }
    if outcome.ApplyComplete? {
      assert ms[n] == Message.ApplyComplete(target);
      assert Finishes(wire, target);
    }
    if outcome.RolledBack? {
      assert ms[n] == HasRolledBack && QuietUntil(ms, n);
      assert Reverts(wire);
    }
  }

  /**
    When the driver moves the tracking ref of a host that it deployed to, the
    agent's session has been released after a completed apply, and the move is
    the protocol's step.
   */
  lemma {:induction false} PushIsStep(wire: Wire, ms: seq<Message>, outcome: Agent.ApplyOutcome, a: Protocol.Local,
                                      tracking: map<Name, Oid>)
    requires a.session.command.Deploy?
    requires Sends(ms, outcome, a.session.command.plan.commit) && Delivers(wire, ms)
    requires a.session.phase == if outcome.ApplyComplete? then Protocol.Released else Protocol.Ended
    requires Finishes(wire, a.session.command.plan.commit)
    requires tracking == a.driver.tracking[a.session.host := a.session.command.plan.commit]
    ensures Protocol.TrackStep(a, Protocol.Local(a.session.(phase := Protocol.Ended), a.host,
                                                 a.driver.(tracking := tracking)))
  {
    DriverConcludes(wire, ms, outcome, a.session.command.plan.commit);
  }

  /** The driver's part of the end of a session with a stale host. */
  ghost predicate StaleSteps(a: Protocol.Local, b: Protocol.Local) {
    || Protocol.DropStep(a, b)
    || exists mid :: (Protocol.KnowStep(a, mid) || Protocol.WriteStep(a, mid)) && Protocol.TrackStaleStep(mid, b)
  }

  /** What `FetchFromStaleHost` does to the driver's store when it succeeds are these steps. */
  lemma {:induction false} FetchIsSteps(a: Protocol.Local, actual: Option<Oid>, objects: set<Oid>,
                                        tracking: map<Name, Oid>)
    requires tracking == Reported(a.driver.tracking, a.session.host, actual)
    requires if actual.None? || actual.value in a.driver.store
             then a.session.phase == Protocol.Parted(actual) && objects == a.driver.store
             else
               && a.session.phase.Fetching? && a.session.phase.reported == actual.value
               && objects == a.driver.store + a.session.phase.pack
    ensures StaleSteps(a, Protocol.Local(a.session.(phase := Protocol.Ended), a.host,
                                         a.driver.(store := objects, tracking := tracking)))
  {
    var b := Protocol.Local(a.session.(phase := Protocol.Ended), a.host,
                            a.driver.(store := objects, tracking := tracking));
    if actual.Some? {
      var mid := Protocol.Local(a.session.(phase := Protocol.Fetched(actual.value)), a.host,
                                a.driver.(store := objects));
      assert Protocol.KnowStep(a, mid) || Protocol.WriteStep(a, mid);
      assert Protocol.TrackStaleStep(mid, b);
    }
  }
}
