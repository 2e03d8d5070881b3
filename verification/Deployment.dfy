/**
  The driver's side of a deploy, a reapply and a sync: lock all hosts or apply
  to none, and keep the tracking refs in step with what the hosts report. What
  each host answers is given as a `Remote`; hosts are independent of each other.
 */
module Deployment {
  import opened Wrappers
  import opened Paths
  import opened History
  import Protocol

  datatype HostError =
    | AgentNotInstalled
    | ConnectionFailed
    | ProtocolError
    | HostnameMismatch(actual: Name)
    | HostnameChanged(deployedAs: Option<Name>)
    | IncompleteDeploy
    | PreApply
    | ApplyFailed
    | RollbackFailed
    | StoreFailed

  datatype HostState =
    | Pending
    | Connecting
    | InstallingAgent
    | Connected
    | Locked
    | Pushing
    | Applying
    | WaitingForUnits(units: seq<string>)
    | RollingBack
    | Done
    | UpToDate
    | Updated
    | Stale
    | LockBusy
    | RolledBack
    | Failed(error: HostError)
  {
    predicate IsFailure() {
      Stale? || LockBusy? || RolledBack? || Failed?
    }
  }

  datatype Hello = Hello(hostname: Name, current: Option<Oid>, target: Option<Oid>)

  datatype Message =
    | LockGranted
    | LockStale(expected: Option<Oid>, actual: Option<Oid>)
    | LockIsBusy
    | LockHostnameChanged(deployedAs: Option<Name>)
    | PackReceived
    | SendPack(pack: set<Oid>)
    | ErrorPreApply
    | NowRollingBack
    | Waiting(units: seq<string>)
    | ApplyComplete(commit: Oid)
    | HasRolledBack
    | HasFailed
    | RollbackHasFailed
    | Output

  type Reply = Result<Option<Message>, HostError>

  /** The messages of an apply until the stream ends, and the error if it breaks. */
  datatype Wire = Wire(messages: seq<Message>, broken: Option<HostError>)

  /** All that a host will answer. */
  datatype Remote = Remote(connects: Result<Hello, HostError>, installs: Result<(), HostError>,
                           reconnects: Result<Hello, HostError>, lock: Reply, objects: Reply, push: Reply, apply: Wire)

  datatype StaleHost = StaleHost(expected: Option<Oid>, actual: Option<Oid>)

  datatype DeployPlan = DeployPlan(commit: Oid, expected: map<Name, Option<Oid>>)

  /** `Crashed` is a panic of the driver: one thread's assertion, after all threads have ended. */
  datatype DeployError = DeployFailed(hosts: nat) | Git | Crashed

  // ----- Progress -----

  type States = map<Name, HostState>

  function Failures(states: States): set<Name> {
    set h | h in states && states[h].IsFailure()
  }

  class DeployProgress {
    var states: States

    constructor (hosts: set<Name>)
      ensures states == map h | h in hosts :: Pending
    {
      states := map h | h in hosts :: Pending;
    }

    method Update(host: Name, state: HostState)
      requires host in states
      modifies this
      ensures states == old(states)[host := state]
    {
      states := states[host := state];
    }

    method NumFailed() returns (n: nat)
      ensures n == |Failures(states)|
    {
      n := 0;
      var rest := states.Keys;
      ghost var counted: set<Name> := {};
      while rest != {}
        invariant rest <= states.Keys
        invariant counted == (set h | h in Failures(states) && h !in rest) && n == |counted|
        decreases rest
      {
        var h :| h in rest;
        if states[h].IsFailure() {
          n := n + 1;
          counted := counted + {h};
        }
        rest := rest - {h};
      }
      assert counted == Failures(states);
    }

    method Outcome() returns (r: Result<(), DeployError>)
      ensures r.Ok? <==> forall h :: h in states ==> !states[h].IsFailure()
      ensures r == if Failures(states) == {} then Ok(()) else Err(DeployFailed(|Failures(states)|))
    {
      var n := NumFailed();
      assert n == 0 <==> Failures(states) == {};
      assert forall h :: h in states && states[h].IsFailure() ==> h in Failures(states);
      return if n == 0 then Ok(()) else Err(DeployFailed(n));
    }
  }

  // ----- The driver's store -----

  class DriverStore {
    var objects: set<Oid>
    var tracking: map<Name, Oid>
    var main: Option<Oid>
    /** How often an operation of the store has failed for reasons of its own. */
    ghost var faults: nat

    constructor (objects: set<Oid>, tracking: map<Name, Oid>)
      ensures this.objects == objects && this.tracking == tracking && main == None && faults == 0
    {
      this.objects, this.tracking, this.main, this.faults := objects, tracking, None, 0;
    }

    method MayFail() returns (fails: bool)
      modifies this`faults
      ensures faults == old(faults) + if fails then 1 else 0
    {
      fails := *;
      faults := faults + if fails then 1 else 0;
    }

    method SetTracking(host: Name, commit: Oid) returns (ok: bool)
      modifies this`tracking, this`faults
      ensures tracking == if ok then old(tracking)[host := commit] else old(tracking)
      ensures faults == old(faults) + if ok then 0 else 1
    {
      var fails := MayFail();
      ok := !fails;
      if ok {
        tracking := tracking[host := commit];
      }
    }

    method DeleteTracking(host: Name) returns (ok: bool)
      modifies this`tracking, this`faults
      ensures tracking == if ok then old(tracking) - {host} else old(tracking)
      ensures faults == old(faults) + if ok then 0 else 1
    {
      var fails := MayFail();
      ok := !fails;
      if ok {
        tracking := tracking - {host};
      }
    }

    method WritePack(pack: set<Oid>) returns (ok: bool)
      modifies this`objects, this`faults
      ensures objects == if ok then old(objects) + pack else old(objects)
      ensures faults == old(faults) + if ok then 0 else 1
    {
      var fails := MayFail();
      ok := !fails;
      if ok {
        objects := objects + pack;
      }
    }

    method SetMain(commit: Oid) returns (ok: bool)
      modifies this`main, this`faults
      ensures main == if ok then Some(commit) else old(main)
      ensures faults == old(faults) + if ok then 0 else 1
    {
      var fails := MayFail();
      ok := !fails;
      if ok {
        main := Some(commit);
      }
    }
  }

  // ----- Connecting and locking -----

  /** What a host greets with, after installing the agent if it was not there. */
  function Greeting(r: Remote): Result<Hello, HostError> {
    if r.connects != Err(AgentNotInstalled) then r.connects
    else if r.installs.Err? then Err(r.installs.error)
    else r.reconnects
  }

  predicate Reachable(host: Name, r: Remote) {
    Greeting(r).Ok? && Greeting(r).value.hostname == host
  }

  /** Why a host could not be reached. */
  function Unreached(r: Remote): HostError {
    match Greeting(r)
    case Err(e) => e
    case Ok(hello) => HostnameMismatch(hello.hostname)
  }

  /** The answer to the lock request, if the host gets that far. */
  function LockReply(host: Name, r: Remote): Option<Message> {
    if Reachable(host, r) && r.lock.Ok? then r.lock.value else None
  }

  /** What an answer shows that is not the expected one. */
  function ReplyError(reply: Reply): HostError {
    match reply
    case Err(e) => e
    case Ok(Some(ErrorPreApply)) => PreApply
    case Ok(_) => ProtocolError
  }

  /** How a host shows that could not be locked. */
  function LockFailure(host: Name, r: Remote): HostState {
    if !Reachable(host, r) then Failed(Unreached(r))
    else if r.lock.Err? then Failed(r.lock.error)
    else match r.lock.value
      case Some(LockIsBusy) => LockBusy
      case Some(LockHostnameChanged(deployedAs)) => Failed(HostnameChanged(deployedAs))
      case _ => Failed(ProtocolError)
  }

  method TryConnect(host: Name, remote: Remote, progress: DeployProgress) returns (hello: Option<Hello>)
    requires host in progress.states
    modifies progress
    ensures hello == if Reachable(host, remote) then Some(Greeting(remote).value) else None
    ensures progress.states.Keys == old(progress.states.Keys)
    ensures progress.states == old(progress.states)[host := progress.states[host]]
    ensures progress.states[host] == if hello.Some? then Connected else Failed(Unreached(remote))
  {
    progress.Update(host, Connecting);
    var conn := remote.connects;
    if conn == Err(AgentNotInstalled) {
      progress.Update(host, InstallingAgent);
      if remote.installs.Err? {
        progress.Update(host, Failed(remote.installs.error));
        return None;
      }
      conn := remote.reconnects;
    }
    match conn {
      case Err(e) =>
        progress.Update(host, Failed(e));
        return None;
      case Ok(h) =>
        if h.hostname != host {
          progress.Update(host, Failed(HostnameMismatch(h.hostname)));
          return None;
        }
        progress.Update(host, Connected);
        return Some(h);
    }
  }

  /** How one host comes out of locking. */
  ghost predicate LockOutcome(h: Name, r: Remote, locked: map<Name, Hello>, stale: map<Name, StaleHost>,
                              state: HostState) {
    match LockReply(h, r)
    case Some(LockGranted) => h in locked && locked[h] == Greeting(r).value && h !in stale && state == Locked
    case Some(LockStale(e, a)) => h !in locked && h in stale && stale[h] == StaleHost(e, a) && state == Stale
    case _ => h !in locked && h !in stale && state == LockFailure(h, r)
  }

  /** Enter a host among the locked or the stale ones, by its answer to the lock request. */
  method ReadLockAnswer(host: Name, hello: Hello, lock: Reply, locked: map<Name, Hello>, stale: map<Name, StaleHost>)
    returns (locked': map<Name, Hello>, stale': map<Name, StaleHost>, state: HostState)
    ensures match if lock.Ok? then lock.value else None
            case Some(LockGranted) => locked' == locked[host := hello] && stale' == stale && state == Locked
            case Some(LockStale(e, a)) =>
              locked' == locked && stale' == stale[host := StaleHost(e, a)] && state == Stale
            case answer =>
              && locked' == locked && stale' == stale
              && state
                 == if lock.Err? then Failed(lock.error)
                    else match answer
                      case Some(LockIsBusy) => LockBusy
                      case Some(LockHostnameChanged(deployedAs)) => Failed(HostnameChanged(deployedAs))
                      case _ => Failed(ProtocolError)
  {
    locked', stale' := locked, stale;
    match lock {
      case Ok(Some(LockGranted)) =>
        state := Locked;
        locked' := locked[host := hello];
      case Ok(Some(LockStale(e, a))) =>
        state := Stale;
        stale' := stale[host := StaleHost(e, a)];
      case Ok(Some(LockIsBusy)) => state := LockBusy;
      case Ok(Some(LockHostnameChanged(deployedAs))) => state := Failed(HostnameChanged(deployedAs));
      case Ok(_) => state := Failed(ProtocolError);
      case Err(e) => state := Failed(e);
    }
  }

  /** Connect to one host and ask for its lock. */
  method LockOne(host: Name, remote: Remote, locked: map<Name, Hello>, stale: map<Name, StaleHost>,
                 progress: DeployProgress)
    returns (locked': map<Name, Hello>, stale': map<Name, StaleHost>)
    requires host in progress.states && host !in locked && host !in stale
    modifies progress
    ensures progress.states.Keys == old(progress.states.Keys)
    ensures progress.states == old(progress.states)[host := progress.states[host]]
    ensures locked' - {host} == locked && stale' - {host} == stale
    ensures LockOutcome(host, remote, locked', stale', progress.states[host])
  {
    hide Greeting, Reachable;
    locked', stale' := locked, stale;
    var hello := TryConnect(host, remote, progress);
    if hello.Some? {
      var state;
      locked', stale', state := ReadLockAnswer(host, hello.value, remote.lock, locked, stale);
      progress.Update(host, state);
    }
  }

  /** Connect to all hosts and lock them; every host is tried. */
  method ConnectAndLock(hosts: set<Name>, remotes: map<Name, Remote>, progress: DeployProgress)
    returns (locked: map<Name, Hello>, stale: map<Name, StaleHost>)
    requires hosts == progress.states.Keys && hosts <= remotes.Keys
    modifies progress
    ensures progress.states.Keys == hosts && locked.Keys + stale.Keys <= hosts
    ensures forall h :: h in hosts ==> LockOutcome(h, remotes[h], locked, stale, progress.states[h])
  {
    hide LockOutcome, LockReply, Greeting, Reachable, HostState.IsFailure;
    locked, stale := map[], map[];
    var rest := hosts;
    while rest != {}
      invariant rest <= hosts && progress.states.Keys == hosts
      invariant locked.Keys + stale.Keys <= hosts - rest
      invariant forall h :: h in hosts && h !in rest ==> LockOutcome(h, remotes[h], locked, stale, progress.states[h])
      decreases rest
    {
      var host :| host in rest;
      ghost var l, s, states := locked, stale, progress.states;
      locked, stale := LockOne(host, remotes[host], locked, stale, progress);
      KeysBut(l, locked, host);
      KeysBut(s, stale, host);
      rest := rest - {host};
      forall h | h in hosts && h !in rest && h != host
        ensures LockOutcome(h, remotes[h], locked, stale, progress.states[h])
      {
        assert LockOutcome(h, remotes[h], l, s, states[h]);
        OutcomeOthers(host, h, remotes[h], l, locked, s, stale, states[h]);
      }
    }
  }

  lemma KeysBut<T>(m: map<Name, T>, m': map<Name, T>, host: Name)
    requires m' - {host} == m
    ensures m'.Keys <= m.Keys + {host}
  {
    assert forall h :: h in m' ==> h == host || h in m' - {host};
  }

  lemma OutcomeOthers(host: Name, h: Name, r: Remote, l: map<Name, Hello>, l': map<Name, Hello>,
                      s: map<Name, StaleHost>, s': map<Name, StaleHost>, state: HostState)
    requires h != host && LockOutcome(h, r, l, s, state) && l' - {host} == l && s' - {host} == s
    ensures LockOutcome(h, r, l', s', state)
  {
    assert h in l' <==> h in l' - {host};
    assert h in s' <==> h in s' - {host};
    hide LockReply, Greeting, HostState.IsFailure;
  }

  // ----- Fetching from stale hosts -----

  /** The tracking refs with what a host reported. */
  function Reported(tracking: map<Name, Oid>, host: Name, actual: Option<Oid>): map<Name, Oid> {
    if actual.Some? then tracking[host := actual.value] else tracking - {host}
  }

  /** The objects that the host sends, if it does. */
  function Sent(reply: Reply): set<Oid> {
    if reply.Ok? && reply.value.Some? && reply.value.value.SendPack? then reply.value.value.pack else {}
  }

  /** Nothing is missing for the tracking ref, or the host sends it. */
  predicate Fetchable(objects: set<Oid>, actual: Option<Oid>, reply: Reply) {
    || actual.None? || actual.value in objects
    || (reply.Ok? && reply.value.Some? && reply.value.value.SendPack?)
  }

  /** Why nothing was fetched: the store failed, or the host sent something else; `sound` if the store did not fail. */
  ghost predicate NotFetched(objects: set<Oid>, actual: Option<Oid>, reply: Reply, sound: bool, e: HostError) {
    (e == StoreFailed && !sound) || (!Fetchable(objects, actual, reply) && e == ReplyError(reply))
  }

  /** Fetch what is missing, then point the tracking ref at the reported commit, or drop it. */
  method FetchFromStaleHost(store: DriverStore, host: Name, info: StaleHost, reply: Reply)
    returns (r: Result<(), HostError>)
    modifies store`objects, store`tracking, store`faults
    ensures old(store.faults) <= store.faults
    ensures r.Ok? ==> store.faults == old(store.faults) && Fetchable(old(store.objects), info.actual, reply)
    ensures r.Err? ==> NotFetched(old(store.objects), info.actual, reply, store.faults == old(store.faults), r.error)
    ensures store.tracking == if r.Ok? then Reported(old(store.tracking), host, info.actual) else old(store.tracking)
    ensures old(store.objects) <= store.objects <= old(store.objects) + Sent(reply)
    ensures r.Ok? ==>
              store.objects
              == old(store.objects)
                 + if info.actual.Some? && info.actual.value !in old(store.objects) then Sent(reply) else {}
  {
    match info.actual {
      case None =>
        var ok := store.DeleteTracking(host);
        return if ok then Ok(()) else Err(StoreFailed);
      case Some(actual) =>
        if actual !in store.objects {
          match reply {
            case Ok(Some(SendPack(pack))) =>
              var ok := store.WritePack(pack);
              if !ok {
                return Err(StoreFailed);
              }
            case Ok(Some(ErrorPreApply)) => return Err(PreApply);
            case Ok(_) => return Err(ProtocolError);
            case Err(e) => return Err(e);
          }
        }
        var ok := store.SetTracking(host, actual);
        return if ok then Ok(()) else Err(StoreFailed);
    }
  }

  ghost predicate TrackedSame(before: map<Name, Oid>, after: map<Name, Oid>, h: Name) {
    (h in after <==> h in before) && (h in before ==> after[h] == before[h])
  }

  /** The tracking ref of a host is what it reported. */
  ghost predicate TracksReport(tracking: map<Name, Oid>, h: Name, actual: Option<Oid>) {
    if actual.Some? then h in tracking && tracking[h] == actual.value else h !in tracking
  }

  /**
    One stale host after a fetch: its tracking ref says what it reported and its
    state is `good`, or it shows why not and the ref stays.
   */
  ghost predicate Refreshed(before: map<Name, Oid>, after: map<Name, Oid>, objects: set<Oid>, sound: bool, h: Name,
                            info: StaleHost, reply: Reply, good: HostState, state: HostState) {
    || (state == good && TracksReport(after, h, info.actual))
    || (TrackedSame(before, after, h) && state.Failed? && NotFetched(objects, info.actual, reply, sound, state.error))
  }

  /** All but the hosts of `rest` have been fetched from; `goods` are the states of those that succeeded. */
  ghost predicate RefreshedSome(before: map<Name, Oid>, after: map<Name, Oid>, objects: set<Oid>, sound: bool,
                                stale: map<Name, StaleHost>, remotes: map<Name, Remote>, was: States, goods: States,
                                states: States, rest: set<Name>)
    requires stale.Keys <= remotes.Keys && stale.Keys <= goods.Keys
  {
    && states.Keys == was.Keys && stale.Keys <= states.Keys
    && (forall h :: h in stale && h !in rest ==>
          Refreshed(before, after, objects, sound, h, stale[h], remotes[h].objects, goods[h], states[h]))
    && (forall h :: h in rest || h !in stale ==> TrackedSame(before, after, h))
    && (forall h :: (h in rest || h !in stale) && h in states ==> states[h] == was[h])
  }

  lemma RefreshedNone(tracking: map<Name, Oid>, objects: set<Oid>, sound: bool, stale: map<Name, StaleHost>,
                      remotes: map<Name, Remote>, states: States, goods: States)
    requires stale.Keys <= remotes.Keys && stale.Keys <= goods.Keys && stale.Keys <= states.Keys
    ensures RefreshedSome(tracking, tracking, objects, sound, stale, remotes, states, goods, states, stale.Keys)
  {
  }

  lemma RefreshedOne(before: map<Name, Oid>, mid: map<Name, Oid>, after: map<Name, Oid>, objects: set<Oid>,
                     objects': set<Oid>, sound: bool, sound': bool, stale: map<Name, StaleHost>,
                     remotes: map<Name, Remote>, was: States, goods: States, states: States, states': States,
                     rest: set<Name>, host: Name)
    requires stale.Keys <= remotes.Keys && stale.Keys <= goods.Keys && host in rest && host in stale
    requires RefreshedSome(before, mid, objects, sound, stale, remotes, was, goods, states, rest)
    requires objects <= objects' && (sound' ==> sound) && host in states'
    requires states' == states[host := states'[host]] && forall h :: h != host ==> TrackedSame(mid, after, h)
    requires Refreshed(mid, after, objects', sound', host, stale[host], remotes[host].objects, goods[host],
                       states'[host])
    ensures RefreshedSome(before, after, objects, sound', stale, remotes, was, goods, states', rest - {host})
  {
    forall h | h in stale && h !in rest - {host}
      ensures Refreshed(before, after, objects, sound', h, stale[h], remotes[h].objects, goods[h], states'[h])
    {
      if h != host {
        assert Refreshed(before, mid, objects, sound, h, stale[h], remotes[h].objects, goods[h], states[h]);
        assert TrackedSame(mid, after, h);
      } else {
        assert TrackedSame(before, mid, h);
      }
    }
    hide Refreshed;
    forall h | h in rest - {host} || h !in stale ensures TrackedSame(before, after, h) {
      assert TrackedSame(before, mid, h) && TrackedSame(mid, after, h);
    }
  }

  /** Fetch from one stale host; an error shows, a success as `good`, if there is such a state to show. */
  method RefreshOne(store: DriverStore, host: Name, info: StaleHost, reply: Reply, good: Option<HostState>,
                    progress: DeployProgress)
    requires host in progress.states
    modifies store`objects, store`tracking, store`faults, progress
    ensures progress.states.Keys == old(progress.states.Keys)
    ensures progress.states == old(progress.states)[host := progress.states[host]]
    ensures old(store.objects) <= store.objects && old(store.faults) <= store.faults
    ensures Refreshed(old(store.tracking), store.tracking, old(store.objects), store.faults == old(store.faults), host,
                      info, reply, if good.Some? then good.value else old(progress.states)[host], progress.states[host])
    ensures forall h :: h != host ==> TrackedSame(old(store.tracking), store.tracking, h)
  {
    var fetched := FetchFromStaleHost(store, host, info, reply);
    if fetched.Err? {
      progress.Update(host, Failed(fetched.error));
    } else if good.Some? {
      progress.Update(host, good.value);
    }
  }

  ghost function Goods(stale: map<Name, StaleHost>, good: Option<HostState>, states: States): States
    requires stale.Keys <= states.Keys
  {
    map h | h in stale :: if good.Some? then good.value else states[h]
  }

  /**
    Fetch from the stale hosts one after the other. Each tracking ref then says
    what its host reported, or the host shows an error.
   */
  method FetchStaleObjects(store: DriverStore, stale: map<Name, StaleHost>, remotes: map<Name, Remote>,
                           good: Option<HostState>, progress: DeployProgress)
    requires stale.Keys <= progress.states.Keys && stale.Keys <= remotes.Keys
    modifies store`objects, store`tracking, store`faults, progress
    ensures old(store.faults) <= store.faults
    ensures RefreshedSome(old(store.tracking), store.tracking, old(store.objects), store.faults == old(store.faults),
                          stale, remotes, old(progress.states), Goods(stale, good, old(progress.states)),
                          progress.states, {})
  {
    hide RefreshedSome, Refreshed, TrackedSame;
    ghost var before, objects, was := store.tracking, store.objects, progress.states;
    ghost var goods, faults := Goods(stale, good, was), store.faults;
    RefreshedNone(before, objects, true, stale, remotes, was, goods);
    var rest := stale.Keys;
    while rest != {}
      invariant rest <= stale.Keys && progress.states.Keys == was.Keys
      invariant forall h :: h in rest ==> progress.states[h] == was[h]
      invariant objects <= store.objects && faults <= store.faults
      invariant RefreshedSome(before, store.tracking, objects, store.faults == faults, stale, remotes, was, goods,
                              progress.states, rest)
      decreases rest
    {
      var host :| host in rest;
      ghost var mid, objects', states, sound := store.tracking, store.objects, progress.states, store.faults == faults;
      ghost var faults' := store.faults;
      RefreshOne(store, host, stale[host], remotes[host].objects, good, progress);
      RefreshedSoundly(mid, store.tracking, objects', store.faults == faults', store.faults == faults, host,
                       stale[host], remotes[host].objects, goods[host], progress.states[host]);
      RefreshedOne(before, mid, store.tracking, objects, objects', sound, store.faults == faults, stale, remotes, was,
                   goods, states, progress.states, rest, host);
      rest := rest - {host};
    }
  }

  lemma RefreshedSoundly(before: map<Name, Oid>, after: map<Name, Oid>, objects: set<Oid>, sound: bool, sound': bool,
                         h: Name, info: StaleHost, reply: Reply, good: HostState, state: HostState)
    requires Refreshed(before, after, objects, sound, h, info, reply, good, state) && (sound' ==> sound)
    ensures Refreshed(before, after, objects, sound', h, info, reply, good, state)
  {
    hide TrackedSame, TracksReport, Fetchable;
  }

  // ----- Packs -----

  /** The store has both ends of a pack. */
  predicate HoldsEnds(objects: set<Oid>, want: Oid, have: Option<Oid>) {
    want in objects && (have.Some? ==> have.value in objects)
  }

  /** `create_pack`: an error when either end is not in the store. */
  method CreatePack(dag: Dag, store: DriverStore, want: Oid, have: Option<Oid>)
    returns (r: Result<set<Oid>, DeployError>)
    requires dag.Acyclic() && store.objects <= dag.parents.Keys
    modifies store`faults
    ensures r.Ok? ==>
              && want in dag.parents && (have.Some? ==> have.value in dag.parents)
              && r.value == Protocol.PackOf(dag, want, have)
    ensures r.Ok? <==> store.faults == old(store.faults) && HoldsEnds(store.objects, want, have)
    ensures old(store.faults) <= store.faults && (r.Err? ==> r.error == Git)
  {
    var fails := store.MayFail();
    if fails || want !in store.objects || (have.Some? && have.value !in store.objects) {
      return Err(Git);
    }
    var pack := set a | a in dag.parents.Keys && dag.Reaches(want, a) && !(have.Some? && dag.Reaches(have.value, a));
    assert pack == Protocol.PackOf(dag, want, have);
    return Ok(pack);
  }

  /** The store has what the packs of a plan are made of. */
  predicate HoldsPlan(objects: set<Oid>, plan: DeployPlan) {
    forall h :: h in plan.expected ==> HoldsEnds(objects, plan.commit, plan.expected[h])
  }

  /** One pack for every distinct expected commit. */
  method BuildPacks(dag: Dag, store: DriverStore, plan: DeployPlan)
    returns (r: Result<map<Option<Oid>, set<Oid>>, DeployError>)
    requires dag.Acyclic() && store.objects <= dag.parents.Keys
    modifies store`faults
    ensures r.Ok? <==> store.faults == old(store.faults) && HoldsPlan(store.objects, plan)
    ensures old(store.faults) <= store.faults
    ensures r.Ok? ==> forall h :: h in plan.expected ==> plan.expected[h] in r.value
    ensures r.Ok? ==> forall k :: k in r.value ==>
              && plan.commit in dag.parents && (k.Some? ==> k.value in dag.parents)
              && r.value[k] == Protocol.PackOf(dag, plan.commit, k)
    ensures r.Ok? ==> forall k :: k in r.value ==> exists h :: h in plan.expected && plan.expected[h] == k
    ensures r.Err? ==> r.error == Git
  {
    hide Dag.Acyclic, Dag.Reaches, Protocol.PackOf;
    var packs: map<Option<Oid>, set<Oid>> := map[];
    var rest := plan.expected.Keys;
    while rest != {}
      invariant rest <= plan.expected.Keys
      invariant forall h :: h in plan.expected && h !in rest ==> plan.expected[h] in packs
      invariant forall k :: k in packs ==>
                  && plan.commit in dag.parents && (k.Some? ==> k.value in dag.parents)
                  && packs[k] == Protocol.PackOf(dag, plan.commit, k)
      invariant forall k :: k in packs ==> exists h :: h in plan.expected && plan.expected[h] == k
      invariant store.faults == old(store.faults)
      invariant forall k :: k in packs ==> HoldsEnds(store.objects, plan.commit, k)
      decreases rest
    {
      var host :| host in rest;
      var key := plan.expected[host];
      if key !in packs {
        var pack :- CreatePack(dag, store, plan.commit, key);
        packs := packs[key := pack];
      }
      rest := rest - {host};
    }
    return Ok(packs);
  }

  // ----- Applying -----

  datatype ApplyEnd = Applied(commit: Oid) | Reverted

  predicate EndsApply(m: Message) {
    m.HasRolledBack? || m.HasFailed? || m.RollbackHasFailed? || m.ErrorPreApply?
  }

  /** No message before `i` ends the apply. */
  ghost predicate QuietUntil(ms: seq<Message>, i: nat) {
    i <= |ms| && forall j :: 0 <= j < i ==> !EndsApply(ms[j])
  }

  /** The last completion that the messages before `i` report. */
  ghost predicate LastCompletion(ms: seq<Message>, i: nat, c: Oid) {
    i <= |ms| && exists k :: 0 <= k < i && ms[k] == ApplyComplete(c) && forall j :: k < j < i ==> !ms[j].ApplyComplete?
  }

  ghost predicate NoCompletion(ms: seq<Message>, i: nat) {
    i <= |ms| && forall j :: 0 <= j < i ==> !ms[j].ApplyComplete?
  }

  /** The apply's messages run to the end of the stream, and the last completion among them is of `c`. */
  ghost predicate Finishes(wire: Wire, c: Oid) {
    QuietUntil(wire.messages, |wire.messages|) && wire.broken.None? && LastCompletion(wire.messages, |wire.messages|, c)
  }

  /** The apply's messages end in a rollback. */
  ghost predicate Reverts(wire: Wire) {
    exists i :: 0 <= i < |wire.messages| && QuietUntil(wire.messages, i) && wire.messages[i] == HasRolledBack
  }

  /** The error that a message ends the apply with. */
  function EndError(m: Message): Option<HostError> {
    match m
    case HasFailed => Some(ApplyFailed)
    case RollbackHasFailed => Some(RollbackFailed)
    case ErrorPreApply => Some(PreApply)
    case _ => None
  }

  /** The apply's messages end in an error, or the stream breaks or ends too early. */
  ghost predicate FailsWith(wire: Wire, e: HostError) {
    || (exists i ::
          && 0 <= i < |wire.messages| && QuietUntil(wire.messages, i) && EndsApply(wire.messages[i])
          && EndError(wire.messages[i]) == Some(e))
    || (QuietUntil(wire.messages, |wire.messages|)
        && if wire.broken.Some? then e == wire.broken.value
           else NoCompletion(wire.messages, |wire.messages|) && e == ProtocolError)
  }

  /** The agent completes another commit than it was asked for, which the driver asserts against. */
  ghost predicate Misreports(wire: Wire, commit: Oid) {
    exists c :: Finishes(wire, c) && c != commit
  }

  lemma Misreported(wire: Wire, c: Oid, commit: Oid)
    requires Finishes(wire, c) && c != commit
    ensures Misreports(wire, commit)
  {
  }

  lemma NotMisreported(wire: Wire, commit: Oid)
    requires forall c :: Finishes(wire, c) ==> c == commit
    ensures !Misreports(wire, commit)
  {
  }

  /** Read messages until one ends the apply or the stream does. Only a stream that ends in order counts as applied. */
  method ReadApplyMessages(host: Name, wire: Wire, progress: DeployProgress) returns (r: Result<ApplyEnd, HostError>)
    requires host in progress.states
    modifies progress
    ensures progress.states.Keys == old(progress.states.Keys)
    ensures progress.states == old(progress.states)[host := progress.states[host]]
    ensures forall c :: r == Ok(Applied(c)) <==> Finishes(wire, c)
    ensures r == Ok(Reverted) <==> Reverts(wire)
    ensures r.Err? ==> FailsWith(wire, r.error)
    ensures r == Ok(Reverted) ==> progress.states[host] == RolledBack
    ensures !old(progress.states[host]).Done? ==> !progress.states[host].Done?
  {
    var ms := wire.messages;
    var applied: Option<Oid> := None;
    for i := 0 to |ms|
      invariant QuietUntil(ms, i)
      invariant if applied.Some? then LastCompletion(ms, i, applied.value) else NoCompletion(ms, i)
      invariant progress.states.Keys == old(progress.states.Keys)
      invariant progress.states == old(progress.states)[host := progress.states[host]]
      invariant !old(progress.states[host]).Done? ==> !progress.states[host].Done?
    {
      match ms[i] {
        case ApplyComplete(commit) => applied := Some(commit);
        case NowRollingBack => progress.Update(host, RollingBack);
        case Waiting(units) => progress.Update(host, if units == [] then Applying else WaitingForUnits(units));
        case HasRolledBack =>
          progress.Update(host, RolledBack);
          return Ok(Reverted);
        case HasFailed => return Err(ApplyFailed);
        case RollbackHasFailed => return Err(RollbackFailed);
        case ErrorPreApply => return Err(PreApply);
        case _ =>
      }
    }
    if wire.broken.Some? {
      return Err(wire.broken.value);
    }
    return if applied.Some? then Ok(Applied(applied.value)) else Err(ProtocolError);
  }

  /** The answer to a push. */
  method ReadPushReply(reply: Reply) returns (r: Result<(), HostError>)
    ensures r.Ok? <==> reply == Ok(Some(PackReceived))
    ensures r.Err? ==> r.error == ReplyError(reply)
  {
    match reply {
      case Ok(Some(PackReceived)) => return Ok(());
      case Ok(Some(ErrorPreApply)) => return Err(PreApply);
      case Ok(_) => return Err(ProtocolError);
      case Err(e) => return Err(e);
    }
  }

  /** How one host's thread ends: with a result, or in a failed assertion. */
  datatype ThreadEnd = Returned(r: Result<(), HostError>) | Panicked {
    predicate Done() {
      Returned? && r.Ok?
    }
  }

  /** How the thread ends after the apply's messages: the tracking ref moves for the plan's commit only. */
  method ConcludeApply(store: DriverStore, host: Name, read: Result<ApplyEnd, HostError>, commit: Oid,
                       progress: DeployProgress)
    returns (end: ThreadEnd)
    requires host in progress.states
    modifies store`tracking, store`faults, progress
    ensures old(store.faults) <= store.faults
    ensures read.Err? ==> end == Returned(Err(read.error))
    ensures read == Ok(Reverted) ==> end == Returned(Ok(()))
    ensures read.Ok? && read.value.Applied? ==>
              if read.value.commit != commit then end == Panicked
              else if store.faults == old(store.faults) then end == Returned(Ok(()))
              else end == Returned(Err(StoreFailed))
    ensures if read == Ok(Applied(commit)) && end == Returned(Ok(()))
            then
              && store.tracking == old(store.tracking)[host := commit]
              && progress.states == old(progress.states)[host := Done]
            else store.tracking == old(store.tracking) && progress.states == old(progress.states)
  {
    match read {
      case Err(e) => return Returned(Err(e));
      case Ok(Reverted) => return Returned(Ok(()));
      case Ok(Applied(applied)) =>
        if applied != commit {
          return Panicked;
        }
        var ok := store.SetTracking(host, applied);
        if !ok {
          return Returned(Err(StoreFailed));
        }
        progress.Update(host, Done);
        return Returned(Ok(()));
    }
  }

  /** Push a packfile, apply, and move the tracking ref once the host has applied the commit. */
  method PushAndApplyHost(store: DriverStore, host: Name, remote: Remote, plan: DeployPlan,
                          packs: map<Option<Oid>, set<Oid>>, progress: DeployProgress)
    returns (end: ThreadEnd)
    requires host in progress.states && host in plan.expected && plan.expected[host] in packs
    modifies store`tracking, store`faults, progress
    ensures progress.states.Keys == old(progress.states.Keys)
    ensures progress.states == old(progress.states)[host := progress.states[host]]
    ensures old(store.faults) <= store.faults
    ensures end.Returned? && end.r.Err? ==>
              if remote.push != Ok(Some(PackReceived)) then end.r.error == ReplyError(remote.push)
              else if Finishes(remote.apply, plan.commit)
              then end.r.error == StoreFailed && old(store.faults) < store.faults
              else FailsWith(remote.apply, end.r.error) && !Reverts(remote.apply)
    ensures end.Panicked? <==> remote.push == Ok(Some(PackReceived)) && Misreports(remote.apply, plan.commit)
    ensures end.Done() ==>
              || (progress.states[host] == Done && store.tracking == old(store.tracking)[host := plan.commit]
                  && remote.push == Ok(Some(PackReceived)) && Finishes(remote.apply, plan.commit))
              || (progress.states[host] == RolledBack && store.tracking == old(store.tracking)
                  && remote.push == Ok(Some(PackReceived)) && Reverts(remote.apply))
    ensures !end.Done() ==> store.tracking == old(store.tracking)
    ensures end.Panicked? ==> !progress.states[host].Done?
  {
    hide Finishes, Reverts, Misreports, FailsWith, ReplyError;
    progress.Update(host, Pushing);
    var pack := packs[plan.expected[host]];
    var pushed := ReadPushReply(remote.push);
    if pushed.Err? {
      return Returned(Err(pushed.error));
    }
    progress.Update(host, Applying);
    var read := ReadApplyMessages(host, remote.apply, progress);
    ReadMisreports(remote.apply, read, plan.commit);
    end := ConcludeApply(store, host, read, plan.commit, progress);
  }

  /** The driver reads a misreport exactly when it reads a completion of another commit. */
  lemma ReadMisreports(wire: Wire, read: Result<ApplyEnd, HostError>, commit: Oid)
    requires forall c :: read == Ok(Applied(c)) <==> Finishes(wire, c)
    ensures Misreports(wire, commit) <==> read.Ok? && read.value.Applied? && read.value.commit != commit
    ensures read.Ok? ==> read == Ok(Reverted) || (read.value.Applied? && Finishes(wire, read.value.commit))
  {
    hide Finishes;
    if read.Ok? && read.value.Applied? {
      assert Finishes(wire, read.value.commit);
    }
  }

  /** The host takes the pack and applies the commit. */
  ghost predicate Applies(r: Remote, commit: Oid) {
    r.push == Ok(Some(PackReceived)) && Finishes(r.apply, commit)
  }

  ghost predicate TakesBack(r: Remote) {
    r.push == Ok(Some(PackReceived)) && Reverts(r.apply)
  }

  /** How the push or the apply fails at the host. */
  ghost predicate FailsToApply(r: Remote, e: HostError) {
    if r.push == Ok(Some(PackReceived)) then FailsWith(r.apply, e) else e == ReplyError(r.push)
  }

  /**
    A host after its push and apply: done and tracked if it applied the commit,
    unless the store failed, and otherwise as the host ended.
   */
  ghost predicate PushOutcome(before: map<Name, Oid>, after: map<Name, Oid>, h: Name, state: HostState, r: Remote,
                              commit: Oid, sound: bool) {
    if Applies(r, commit) && state == Done then h in after && after[h] == commit
    else
      && TrackedSame(before, after, h)
      && if Applies(r, commit) then !sound && state == Failed(StoreFailed)
         else if PushCrashes(r, commit) then !state.Done?
         else if TakesBack(r) then state == RolledBack
         else state.Failed? && FailsToApply(r, state.error)
  }

  ghost predicate PushCrashes(r: Remote, commit: Oid) {
    r.push == Ok(Some(PackReceived)) && Misreports(r.apply, commit)
  }

  /** A stream ends in one way. */
  lemma OneEnd(wire: Wire, commit: Oid)
    ensures Finishes(wire, commit) ==> !Reverts(wire) && !Misreports(wire, commit)
    ensures Reverts(wire) ==> !Misreports(wire, commit)
  {
  }

  method PushOne(store: DriverStore, host: Name, remote: Remote, plan: DeployPlan, packs: map<Option<Oid>, set<Oid>>,
                 progress: DeployProgress) returns (crashed: bool)
    requires host in progress.states && host in plan.expected && plan.expected[host] in packs
    modifies store`tracking, store`faults, progress
    ensures progress.states.Keys == old(progress.states.Keys)
    ensures progress.states == old(progress.states)[host := progress.states[host]]
    ensures old(store.faults) <= store.faults
    ensures PushOutcome(old(store.tracking), store.tracking, host, progress.states[host], remote, plan.commit,
                        store.faults == old(store.faults))
    ensures crashed <==> PushCrashes(remote, plan.commit)
    ensures crashed ==> !progress.states[host].Done?
    ensures forall h :: h != host ==> TrackedSame(old(store.tracking), store.tracking, h)
  {
    hide Misreports, Finishes, Reverts, FailsWith;
    OneEnd(remote.apply, plan.commit);
    var end := PushAndApplyHost(store, host, remote, plan, packs, progress);
    if end.Returned? && end.r.Err? {
      progress.Update(host, Failed(end.r.error));
    }
    return end.Panicked?;
  }

  /** All but the hosts of `rest` have been pushed to. */
  ghost predicate PushedSome(before: map<Name, Oid>, after: map<Name, Oid>, states: States, plan: DeployPlan,
                             remotes: map<Name, Remote>, sound: bool, rest: set<Name>)
    requires plan.expected.Keys <= remotes.Keys
  {
    && states.Keys == plan.expected.Keys
    && (forall h :: h in plan.expected && h !in rest ==>
          PushOutcome(before, after, h, states[h], remotes[h], plan.commit, sound))
    && (forall h :: h !in plan.expected || h in rest ==> TrackedSame(before, after, h))
  }

  lemma PushedOne(before: map<Name, Oid>, mid: map<Name, Oid>, after: map<Name, Oid>, states: States, states': States,
                  plan: DeployPlan, remotes: map<Name, Remote>, sound: bool, sound': bool, sound'': bool,
                  rest: set<Name>, host: Name)
    requires plan.expected.Keys <= remotes.Keys && PushedSome(before, mid, states, plan, remotes, sound, rest)
    requires host in rest && host in plan.expected && host in states' && states' == states[host := states'[host]]
    requires PushOutcome(mid, after, host, states'[host], remotes[host], plan.commit, sound')
    requires forall h :: h != host ==> TrackedSame(mid, after, h)
    requires sound'' ==> sound && sound'
    ensures PushedSome(before, after, states', plan, remotes, sound'', rest - {host})
  {
    hide Applies, PushCrashes, TakesBack, FailsToApply;
    forall h | h in plan.expected && h !in rest - {host}
      ensures PushOutcome(before, after, h, states'[h], remotes[h], plan.commit, sound'')
    {
      assert h == host || PushOutcome(before, mid, h, states[h], remotes[h], plan.commit, sound);
      assert h != host ==> TrackedSame(mid, after, h);
    }
    forall h | h !in plan.expected || h in rest - {host} ensures TrackedSame(before, after, h) {
      assert TrackedSame(before, mid, h) && TrackedSame(mid, after, h);
    }
  }

  /** After all pushes each host is done or failed, but for those whose threads panicked. */
  lemma PushedAll(before: map<Name, Oid>, after: map<Name, Oid>, states: States, plan: DeployPlan,
                  remotes: map<Name, Remote>, sound: bool)
    requires plan.expected.Keys <= remotes.Keys && PushedSome(before, after, states, plan, remotes, sound, {})
    ensures forall h :: h in plan.expected ==>
              PushOutcome(before, after, h, states[h], remotes[h], plan.commit, sound)
    ensures forall h :: h !in plan.expected ==> TrackedSame(before, after, h)
    ensures Crashing(plan, remotes) <= plan.expected.Keys
    ensures Crashing(plan, remotes) == {} ==>
              forall h :: h in plan.expected ==> (states[h] == Done <==> !states[h].IsFailure())
    ensures sound && (forall h :: h in plan.expected ==> Applies(remotes[h], plan.commit)) ==>
              Crashing(plan, remotes) == {} && forall h :: h in plan.expected ==> states[h] == Done
    ensures Crashing(plan, remotes) == {} && (forall h :: h in plan.expected ==> states[h] == Done) ==>
              forall h :: h in plan.expected ==> Applies(remotes[h], plan.commit)
  {
    hide Finishes, Reverts, Misreports, TrackedSame, FailsToApply;
    assert forall h :: h in plan.expected && PushCrashes(remotes[h], plan.commit) ==> h in Crashing(plan, remotes);
    forall h | h in plan.expected ensures Applies(remotes[h], plan.commit) ==> !PushCrashes(remotes[h], plan.commit) {
      OneEnd(remotes[h].apply, plan.commit);
    }
  }

  lemma PushedNone(tracking: map<Name, Oid>, states: States, plan: DeployPlan, remotes: map<Name, Remote>)
    requires plan.expected.Keys <= remotes.Keys && states.Keys == plan.expected.Keys
    ensures PushedSome(tracking, tracking, states, plan, remotes, true, plan.expected.Keys)
  {
  }

  /** The hosts whose threads panic. */
  ghost function Crashing(plan: DeployPlan, remotes: map<Name, Remote>): set<Name>
    requires plan.expected.Keys <= remotes.Keys
  {
    set h | h in plan.expected && PushCrashes(remotes[h], plan.commit)
  }

  /** Every host is pushed to, also after another host's thread has panicked. */
  method PushToAll(store: DriverStore, plan: DeployPlan, remotes: map<Name, Remote>, packs: map<Option<Oid>, set<Oid>>,
                   progress: DeployProgress) returns (panicked: set<Name>)
    requires progress.states.Keys == plan.expected.Keys && plan.expected.Keys <= remotes.Keys
    requires forall h :: h in plan.expected ==> plan.expected[h] in packs
    modifies store`tracking, store`faults, progress
    ensures old(store.faults) <= store.faults
    ensures PushedSome(old(store.tracking), store.tracking, progress.states, plan, remotes,
                       store.faults == old(store.faults), {})
    ensures panicked == Crashing(plan, remotes)
    ensures progress.states.Keys == plan.expected.Keys && forall h :: h in panicked ==> !progress.states[h].Done?
  {
    hide PushCrashes, Finishes, PushOutcome, TrackedSame, PushedSome;
    var rest := plan.expected.Keys;
    panicked := {};
    PushedNone(store.tracking, progress.states, plan, remotes);
    while rest != {}
      invariant rest <= plan.expected.Keys && progress.states.Keys == plan.expected.Keys
      invariant old(store.faults) <= store.faults
      invariant PushedSome(old(store.tracking), store.tracking, progress.states, plan, remotes,
                           store.faults == old(store.faults), rest)
      invariant panicked == set h | h in plan.expected && h !in rest && PushCrashes(remotes[h], plan.commit)
      invariant forall h :: h in panicked ==> !progress.states[h].Done?
      decreases rest
    {
      var host :| host in rest;
      ghost var tracking, states, faults := store.tracking, progress.states, store.faults;
      var crashed := PushOne(store, host, remotes[host], plan, packs, progress);
      PushedOne(old(store.tracking), tracking, store.tracking, states, progress.states, plan, remotes,
                faults == old(store.faults), store.faults == faults, store.faults == old(store.faults), rest, host);
      panicked := if crashed then panicked + {host} else panicked;
      rest := rest - {host};
    }
  }

  // ----- The commands -----

  /** Every host of the command answers the lock request with the lock. */
  ghost predicate AllLocked(hosts: set<Name>, remotes: map<Name, Remote>)
    requires hosts <= remotes.Keys
  {
    forall h :: h in hosts ==> LockReply(h, remotes[h]) == Some(LockGranted)
  }

  ghost function Unlocked(hosts: set<Name>, remotes: map<Name, Remote>): set<Name>
    requires hosts <= remotes.Keys
  {
    set h | h in hosts && LockReply(h, remotes[h]) != Some(LockGranted)
  }

  /**
    One host when the command aborts before applying anything: a locked host
    was not asked for anything more; of a stale host the tracking ref says what
    it reported, unless the host or the store failed; and every other case shows
    as its error.
   */
  ghost predicate AbortOutcome(before: map<Name, Oid>, after: map<Name, Oid>, objects: set<Oid>, sound: bool, h: Name,
                               r: Remote, state: HostState) {
    match LockReply(h, r)
    case Some(LockGranted) => state == Locked && TrackedSame(before, after, h)
    case Some(LockStale(e, a)) => Refreshed(before, after, objects, sound, h, StaleHost(e, a), r.objects, Stale, state)
    case _ => state == LockFailure(h, r) && TrackedSame(before, after, h)
  }

  /** Every host of the command when it aborts. */
  ghost predicate Aborted(before: map<Name, Oid>, after: map<Name, Oid>, objects: set<Oid>, sound: bool,
                          hosts: set<Name>, remotes: map<Name, Remote>, states: States)
    requires hosts <= remotes.Keys && hosts <= states.Keys
  {
    forall h :: h in hosts ==> AbortOutcome(before, after, objects, sound, h, remotes[h], states[h])
  }

  /** Lock every host, or else fetch from those that are stale. */
  method LockAllOrFetch(store: DriverStore, hosts: set<Name>, remotes: map<Name, Remote>, progress: DeployProgress)
    returns (locked: Option<map<Name, Hello>>, failed: nat)
    requires hosts == progress.states.Keys && hosts <= remotes.Keys
    modifies store`objects, store`tracking, store`faults, progress
    ensures progress.states.Keys == hosts && old(store.faults) <= store.faults
    ensures locked.Some? <==> AllLocked(hosts, remotes)
    ensures locked.Some? ==>
              && locked.value.Keys == hosts && store.tracking == old(store.tracking)
              && store.objects == old(store.objects) && store.faults == old(store.faults)
              && forall h :: h in hosts ==>
                   && Greeting(remotes[h]).Ok? && locked.value[h] == Greeting(remotes[h]).value
                   && progress.states[h] == Locked
    ensures locked.None? ==>
              && failed == |Unlocked(hosts, remotes)|
              && Aborted(old(store.tracking), store.tracking, old(store.objects), store.faults == old(store.faults),
                         hosts, remotes, progress.states)
    ensures forall h :: h !in hosts ==> TrackedSame(old(store.tracking), store.tracking, h)
  {
    hide LockOutcome, LockReply, Greeting, HostState.IsFailure, AbortOutcome, TracksReport, TrackedSame, RefreshedSome;
    var got, stale := ConnectAndLock(hosts, remotes, progress);
    ghost var states, before, objects, faults := progress.states, store.tracking, store.objects, store.faults;
    forall h | h in hosts
      ensures h in got <==> LockReply(h, remotes[h]) == Some(LockGranted)
      ensures h in got ==> Greeting(remotes[h]).Ok? && got[h] == Greeting(remotes[h]).value && states[h] == Locked
    {
      assert LockOutcome(h, remotes[h], got, stale, states[h]);
      OutcomeLocked(h, remotes[h], got, stale, states[h]);
    }
    assert got.Keys == hosts - Unlocked(hosts, remotes);
    SizeOfSubset(got.Keys, hosts);
    if |got| < |hosts| {
      FetchStaleObjects(store, stale, remotes, None, progress);
      AbortedAll(before, store.tracking, objects, store.faults == faults, hosts, remotes, got, stale, states,
                 progress.states);
      failed := progress.NumFailed();
      return None, failed;
    }
    assert got.Keys == hosts;
    forall h ensures TrackedSame(before, store.tracking, h) {
      SameIsTracked(before, h);
    }
    return Some(got), 0;
  }

  lemma AbortedAll(before: map<Name, Oid>, after: map<Name, Oid>, objects: set<Oid>, sound: bool, hosts: set<Name>,
                   remotes: map<Name, Remote>, got: map<Name, Hello>, stale: map<Name, StaleHost>, states: States,
                   states': States)
    requires hosts <= remotes.Keys && hosts == states.Keys && stale.Keys <= hosts
    requires forall h :: h in hosts ==> LockOutcome(h, remotes[h], got, stale, states[h])
    requires RefreshedSome(before, after, objects, sound, stale, remotes, states, Goods(stale, None, states), states',
                           {})
    ensures states'.Keys == hosts && Aborted(before, after, objects, sound, hosts, remotes, states')
    ensures Failures(states') == Unlocked(hosts, remotes)
    ensures forall h :: h !in hosts ==> TrackedSame(before, after, h)
  {
    hide LockOutcome, LockReply, HostState.IsFailure, AbortOutcome, TrackedSame, Refreshed;
    forall h | h in hosts
      ensures AbortOutcome(before, after, objects, sound, h, remotes[h], states'[h])
      ensures states'[h].IsFailure() <==> LockReply(h, remotes[h]) != Some(LockGranted)
    {
      assert LockOutcome(h, remotes[h], got, stale, states[h]);
      AbortAt(before, after, objects, sound, h, remotes[h], got, stale, states[h], states'[h]);
    }
    assert Failures(states') == Unlocked(hosts, remotes);
  }

  lemma SameIsTracked(tracking: map<Name, Oid>, h: Name)
    ensures TrackedSame(tracking, tracking, h)
  {
  }

  lemma OutcomeLocked(h: Name, r: Remote, locked: map<Name, Hello>, stale: map<Name, StaleHost>, state: HostState)
    requires LockOutcome(h, r, locked, stale, state)
    ensures h in locked <==> LockReply(h, r) == Some(LockGranted)
    ensures h in locked ==> Greeting(r).Ok? && locked[h] == Greeting(r).value && state == Locked
  {
  }

  /** A host after locking and fetching. */
  lemma AbortAt(before: map<Name, Oid>, after: map<Name, Oid>, objects: set<Oid>, sound: bool, h: Name, r: Remote,
                locked: map<Name, Hello>, stale: map<Name, StaleHost>, state: HostState, state': HostState)
    requires LockOutcome(h, r, locked, stale, state)
    requires h in stale ==> Refreshed(before, after, objects, sound, h, stale[h], r.objects, state, state')
    requires h !in stale ==> state' == state && TrackedSame(before, after, h)
    ensures AbortOutcome(before, after, objects, sound, h, r, state')
    ensures state'.IsFailure() <==> LockReply(h, r) != Some(LockGranted)
  {
  }

  lemma SizeOfSubset<T>(a: set<T>, b: set<T>)
    requires a <= b
    ensures |a| < |b| <==> a != b
  {
    assert b == a + (b - a);
  }

  /**
    A deploy applies to every host of the plan or to none; it succeeds exactly
    when every host has applied the commit and is tracked at it, which it is if
    the hosts do and the store does not fail. It panics, after all hosts have
    ended, exactly when an agent reports another commit.
   */
  method RunDeploy(dag: Dag, store: DriverStore, plan: DeployPlan, remotes: map<Name, Remote>, progress: DeployProgress)
    returns (r: Result<(), DeployError>)
    requires dag.Acyclic() && store.objects <= dag.parents.Keys
    requires plan.expected.Keys == progress.states.Keys && plan.expected.Keys <= remotes.Keys
    modifies store, progress
    ensures progress.states.Keys == plan.expected.Keys && old(store.faults) <= store.faults
    ensures !AllLocked(plan.expected.Keys, remotes) ==>
              && r == Err(DeployFailed(|Unlocked(plan.expected.Keys, remotes)|)) && store.main == old(store.main)
              && Aborted(old(store.tracking), store.tracking, old(store.objects), store.faults == old(store.faults),
                         plan.expected.Keys, remotes, progress.states)
    ensures r == Err(Git) ==>
              && AllLocked(plan.expected.Keys, remotes)
              && (old(store.faults) < store.faults || !HoldsPlan(old(store.objects), plan))
              && store.tracking == old(store.tracking) && store.main in {old(store.main), Some(plan.commit)}
              && forall h :: h in plan.expected ==> progress.states[h] == Locked
    ensures AllLocked(plan.expected.Keys, remotes) ==>
              && (!HoldsPlan(old(store.objects), plan) ==> r == Err(Git))
              && store.objects == old(store.objects)
    ensures AllLocked(plan.expected.Keys, remotes) && r != Err(Git) ==>
              && store.main == Some(plan.commit)
              && (forall h :: h in plan.expected ==>
                    PushOutcome(old(store.tracking), store.tracking, h, progress.states[h], remotes[h], plan.commit,
                                store.faults == old(store.faults)))
              && r == (if Crashing(plan, remotes) != {} then Err(Crashed)
                       else if Failures(progress.states) != {} then Err(DeployFailed(|Failures(progress.states)|))
                       else Ok(()))
    ensures r.Ok? ==>
              && AllLocked(plan.expected.Keys, remotes)
              && forall h :: h in plan.expected ==> progress.states[h] == Done && Applies(remotes[h], plan.commit)
    ensures Deploys(old(store.objects), plan, remotes) && store.faults == old(store.faults) ==> r.Ok?
    ensures forall h :: h !in plan.expected ==> TrackedSame(old(store.tracking), store.tracking, h)
  {
    hide Dag.Acyclic, Dag.Reaches, Protocol.PackOf, PushOutcome, PushedSome, TrackedSame, Crashing, Aborted, Applies;
    hide HostState.IsFailure, HoldsPlan, LockReply, Greeting;
    var locked, failed := LockAllOrFetch(store, plan.expected.Keys, remotes, progress);
    if locked.None? {
      return Err(DeployFailed(failed));
    }
    ghost var before, faults := store.tracking, store.faults;
    forall h ensures TrackedSame(before, store.tracking, h) {
      SameIsTracked(before, h);
    }
    var ok := store.SetMain(plan.commit);
    if !ok {
      return Err(Git);
    }
    var packs :- BuildPacks(dag, store, plan);
    var panicked := PushToAll(store, plan, remotes, packs, progress);
    PushedAll(before, store.tracking, progress.states, plan, remotes, store.faults == faults);
    if panicked != {} {
      assert exists h :: h in panicked;
      return Err(Crashed);
    }
    r := progress.Outcome();
  }

  /** Every host grants its lock and applies the commit, and the store can make the packs. */
  ghost predicate Deploys(objects: set<Oid>, plan: DeployPlan, remotes: map<Name, Remote>)
    requires plan.expected.Keys <= remotes.Keys
  {
    && HoldsPlan(objects, plan) && AllLocked(plan.expected.Keys, remotes)
    && forall h :: h in plan.expected ==> Applies(remotes[h], plan.commit)
  }

  // ----- Reapply -----

  /** What the driver asserts against: another commit, or a rollback. */
  ghost predicate ReapplyCrashes(r: Remote, commit: Oid) {
    Misreports(r.apply, commit) || Reverts(r.apply)
  }

  /** Reapply one host; no tracking ref moves. */
  method ReapplyHost(host: Name, remote: Remote, commit: Oid, progress: DeployProgress) returns (end: ThreadEnd)
    requires host in progress.states
    modifies progress
    ensures progress.states.Keys == old(progress.states.Keys)
    ensures progress.states == old(progress.states)[host := progress.states[host]]
    ensures end.Done() <==> Finishes(remote.apply, commit)
    ensures end.Done() ==> progress.states[host] == Done
    ensures end.Returned? && end.r.Err? ==> FailsWith(remote.apply, end.r.error)
    ensures end.Panicked? <==> ReapplyCrashes(remote, commit)
    ensures end.Panicked? ==> !progress.states[host].Done?
  {
    hide Finishes, Reverts, Misreports, FailsWith;
    OneEnd(remote.apply, commit);
    progress.Update(host, Applying);
    var read := ReadApplyMessages(host, remote.apply, progress);
    match read {
      case Err(e) =>
        NotMisreported(remote.apply, commit);
        return Returned(Err(e));
      case Ok(Reverted) => return Panicked;
      case Ok(Applied(applied)) =>
        if applied != commit {
          Misreported(remote.apply, applied, commit);
          return Panicked;
        }
        NotMisreported(remote.apply, commit);
        progress.Update(host, Done);
        return Returned(Ok(()));
    }
  }

  /** A host whose greeting shows an apply that started and did not complete. */
  predicate Incomplete(r: Remote) {
    Greeting(r).Ok? && Greeting(r).value.target != Greeting(r).value.current
  }

  lemma IncompleteAt(r: Remote, hello: Hello)
    requires Greeting(r) == Ok(hello)
    ensures Incomplete(r) <==> hello.target != hello.current
  {
  }

  /** Hosts with an incomplete deploy are marked and counted. */
  method CountIncomplete(hosts: map<Name, Oid>, remotes: map<Name, Remote>, locked: map<Name, Hello>,
                         progress: DeployProgress)
    returns (n: nat)
    requires hosts.Keys == progress.states.Keys == locked.Keys
    requires hosts.Keys <= remotes.Keys
    requires forall h :: h in hosts ==>
               Greeting(remotes[h]).Ok? && locked[h] == Greeting(remotes[h]).value && progress.states[h] == Locked
    modifies progress
    ensures progress.states.Keys == hosts.Keys
    ensures n == |set h | h in hosts && Incomplete(remotes[h])|
    ensures forall h :: h in hosts ==>
              progress.states[h] == if Incomplete(remotes[h]) then Failed(IncompleteDeploy) else Locked
  {
    hide Greeting, Incomplete;
    n := 0;
    var rest := hosts.Keys;
    ghost var found: set<Name> := {};
    while rest != {}
      invariant rest <= hosts.Keys && progress.states.Keys == hosts.Keys
      invariant found == (set h | h in hosts && h !in rest && Incomplete(remotes[h])) && n == |found|
      invariant forall h :: h in hosts ==>
                  progress.states[h]
                  == if h !in rest && Incomplete(remotes[h]) then Failed(IncompleteDeploy) else Locked
      decreases rest
    {
      var host :| host in rest;
      assert locked[host].target != locked[host].current <==> Incomplete(remotes[host])
        by { IncompleteAt(remotes[host], locked[host]); }
      if locked[host].target != locked[host].current {
        progress.Update(host, Failed(IncompleteDeploy));
        n := n + 1;
        found := found + {host};
      }
      rest := rest - {host};
    }
    assert found == set h | h in hosts && Incomplete(remotes[h]);
  }

  /** A host after its reapply. */
  ghost predicate ReapplyOutcome(state: HostState, r: Remote, commit: Oid) {
    if Finishes(r.apply, commit) then state == Done
    else if ReapplyCrashes(r, commit) then !state.Done?
    else state.Failed? && FailsWith(r.apply, state.error)
  }

  lemma NoReapplyCrash(r: Remote, commit: Oid)
    ensures Finishes(r.apply, commit) ==> !ReapplyCrashes(r, commit)
  {
    hide Finishes, Misreports, Reverts;
    OneEnd(r.apply, commit);
  }

  method ReapplyAll(hosts: map<Name, Oid>, remotes: map<Name, Remote>, progress: DeployProgress) returns (crashed: bool)
    requires hosts.Keys == progress.states.Keys && hosts.Keys <= remotes.Keys
    modifies progress
    ensures progress.states.Keys == hosts.Keys
    ensures forall h :: h in hosts ==> ReapplyOutcome(progress.states[h], remotes[h], hosts[h])
    ensures crashed <==> exists h :: h in hosts && ReapplyCrashes(remotes[h], hosts[h])
    ensures crashed ==> exists h :: h in hosts && !progress.states[h].Done?
  {
    var rest := hosts.Keys;
    crashed := false;
    while rest != {}
      invariant rest <= hosts.Keys && progress.states.Keys == hosts.Keys
      invariant forall h :: h in hosts && h !in rest ==> ReapplyOutcome(progress.states[h], remotes[h], hosts[h])
      invariant crashed <==> exists h :: h in hosts && h !in rest && ReapplyCrashes(remotes[h], hosts[h])
      invariant crashed ==> exists h :: h in hosts && h !in rest && !progress.states[h].Done?
      decreases rest
    {
      hide ReapplyCrashes, Finishes, FailsWith;
      var host :| host in rest;
      NoReapplyCrash(remotes[host], hosts[host]);
      var end := ReapplyHost(host, remotes[host], hosts[host], progress);
      if end.Returned? && end.r.Err? {
        progress.Update(host, Failed(end.r.error));
      }
      crashed := crashed || end.Panicked?;
      rest := rest - {host};
    }
  }

  /**
    A reapply runs on every host or on none: not when one cannot be locked, and
    not when one greeted with a target that differs from its current commit. It
    panics exactly when an agent reports another commit, or a rollback.
   */
  method RunReapply(store: DriverStore, hosts: map<Name, Oid>, remotes: map<Name, Remote>, progress: DeployProgress)
    returns (r: Result<(), DeployError>)
    requires hosts.Keys == progress.states.Keys && hosts.Keys <= remotes.Keys
    modifies store`objects, store`tracking, store`faults, progress
    ensures progress.states.Keys == hosts.Keys
    ensures !AllLocked(hosts.Keys, remotes) ==>
              && r == Err(DeployFailed(|Unlocked(hosts.Keys, remotes)|))
              && Aborted(old(store.tracking), store.tracking, old(store.objects), store.faults == old(store.faults),
                         hosts.Keys, remotes, progress.states)
    ensures AllLocked(hosts.Keys, remotes) ==> store.tracking == old(store.tracking)
    ensures AllLocked(hosts.Keys, remotes) && (exists h :: h in hosts && Incomplete(remotes[h])) ==>
              && r == Err(DeployFailed(|set h | h in hosts && Incomplete(remotes[h])|))
              && forall h :: h in hosts ==>
                  progress.states[h] == if Incomplete(remotes[h]) then Failed(IncompleteDeploy) else Locked
    ensures AllLocked(hosts.Keys, remotes) && (forall h :: h in hosts ==> !Incomplete(remotes[h])) ==>
              && (forall h :: h in hosts ==> ReapplyOutcome(progress.states[h], remotes[h], hosts[h]))
              && (r == Err(Crashed) <==> exists h :: h in hosts && ReapplyCrashes(remotes[h], hosts[h]))
    ensures r.Ok? <==>
              && AllLocked(hosts.Keys, remotes)
              && forall h :: h in hosts ==> !Incomplete(remotes[h]) && Finishes(remotes[h].apply, hosts[h])
    ensures r.Ok? ==> forall h :: h in hosts ==> progress.states[h] == Done
  {
    hide ReapplyCrashes, Finishes, FailsWith, LockReply, Greeting, Incomplete, Aborted;
    var locked, failed := LockAllOrFetch(store, hosts.Keys, remotes, progress);
    if locked.None? {
      return Err(DeployFailed(failed));
    }
    var incomplete := CountIncomplete(hosts, remotes, locked.value, progress);
    ghost var found := set h | h in hosts && Incomplete(remotes[h]);
    assert forall h :: h in hosts && Incomplete(remotes[h]) ==> h in found;
    if incomplete > 0 {
      assert exists h :: h in found;
      return Err(DeployFailed(incomplete));
    }
    assert found == {};
    var crashed := ReapplyAll(hosts, remotes, progress);
    if crashed {
      return Err(Crashed);
    }
    r := progress.Outcome();
  }

  // ----- Sync -----

  /** One host after a sync. */
  ghost predicate SyncOutcome(before: map<Name, Oid>, after: map<Name, Oid>, objects: set<Oid>, sound: bool, h: Name,
                              expected: Option<Oid>, r: Remote, state: HostState) {
    if !Reachable(h, r) then state == Failed(Unreached(r)) && TrackedSame(before, after, h)
    else
      var actual := Greeting(r).value.current;
      if actual == expected then state == UpToDate && TrackedSame(before, after, h)
      else Refreshed(before, after, objects, sound, h, StaleHost(expected, actual), r.objects, Updated, state)
  }

  /** Refresh the tracking refs from what the hosts greet with; no lock is taken. */
  method RunSync(store: DriverStore, hosts: map<Name, Option<Oid>>, remotes: map<Name, Remote>,
                 progress: DeployProgress)
    returns (r: Result<(), DeployError>)
    requires hosts.Keys == progress.states.Keys && hosts.Keys <= remotes.Keys
    modifies store`objects, store`tracking, store`faults, progress
    ensures progress.states.Keys == hosts.Keys && old(store.faults) <= store.faults
    ensures forall h :: h in hosts ==>
              SyncOutcome(old(store.tracking), store.tracking, old(store.objects), store.faults == old(store.faults), h,
                          hosts[h], remotes[h], progress.states[h])
    ensures forall h :: h !in hosts ==> TrackedSame(old(store.tracking), store.tracking, h)
    ensures r.Ok? <==> forall h :: h in hosts ==> progress.states[h] == UpToDate || progress.states[h] == Updated
  {
    hide GreetState, TrackedSame, SaysStale, IsStale, RefreshedSome, SyncOutcome;
    ghost var before, objects, faults := store.tracking, store.objects, store.faults;
    var stale := GreetAll(hosts, remotes, progress);
    ghost var states := progress.states;
    FetchStaleObjects(store, stale, remotes, Some(Updated), progress);
    SyncedAll(before, store.tracking, objects, store.faults == faults, hosts, remotes, stale, states, progress.states);
    r := progress.Outcome();
  }

  lemma SyncedAll(before: map<Name, Oid>, after: map<Name, Oid>, objects: set<Oid>, sound: bool,
                  hosts: map<Name, Option<Oid>>, remotes: map<Name, Remote>, stale: map<Name, StaleHost>,
                  states: States, states': States)
    requires hosts.Keys <= remotes.Keys && states.Keys == hosts.Keys
    requires stale.Keys == set h | h in hosts && IsStale(h, hosts[h], remotes[h])
    requires forall h :: h in stale ==> SaysStale(stale[h], h, hosts[h], remotes[h])
    requires forall h :: h in hosts ==> states[h] == GreetState(h, hosts[h], remotes[h])
    requires RefreshedSome(before, after, objects, sound, stale, remotes, states, Goods(stale, Some(Updated), states),
                           states', {})
    ensures states'.Keys == hosts.Keys
    ensures forall h :: h in hosts ==>
              SyncOutcome(before, after, objects, sound, h, hosts[h], remotes[h], states'[h])
    ensures forall h :: h in hosts ==> (!states'[h].IsFailure() <==> states'[h] == UpToDate || states'[h] == Updated)
    ensures forall h :: h !in hosts ==> TrackedSame(before, after, h)
  {
    hide TrackedSame, Refreshed, SaysStale, IsStale, GreetState, SyncOutcome, HostState.IsFailure;
    forall h | h in hosts
      ensures SyncOutcome(before, after, objects, sound, h, hosts[h], remotes[h], states'[h])
      ensures !states'[h].IsFailure() <==> states'[h] == UpToDate || states'[h] == Updated
    {
      assert h in stale <==> IsStale(h, hosts[h], remotes[h]);
      var info := if h in stale then stale[h] else StaleHost(None, None);
      SyncedAt(before, after, objects, sound, h, hosts[h], remotes[h], info, states[h], states'[h]);
    }
  }

  lemma SyncedAt(before: map<Name, Oid>, after: map<Name, Oid>, objects: set<Oid>, sound: bool, h: Name,
                 expected: Option<Oid>, r: Remote, info: StaleHost, state: HostState, state': HostState)
    requires state == GreetState(h, expected, r)
    requires if IsStale(h, expected, r)
             then SaysStale(info, h, expected, r)
                  && Refreshed(before, after, objects, sound, h, info, r.objects, Updated, state')
             else state' == state && TrackedSame(before, after, h)
    ensures SyncOutcome(before, after, objects, sound, h, expected, r, state')
    ensures !state'.IsFailure() <==> state' == UpToDate || state' == Updated
  {
    hide TrackedSame, TracksReport, NotFetched, Greeting, Unreached;
  }

  /** Greet one host, and enter it among the stale ones if its current commit is not the expected one. */
  method GreetOne(host: Name, expected: Option<Oid>, remote: Remote, stale: map<Name, StaleHost>,
                  progress: DeployProgress)
    returns (stale': map<Name, StaleHost>)
    requires host in progress.states && host !in stale
    modifies progress
    ensures progress.states.Keys == old(progress.states.Keys)
    ensures progress.states == old(progress.states)[host := progress.states[host]]
    ensures if IsStale(host, expected, remote)
            then
              && host in stale' && stale' == stale[host := stale'[host]]
              && SaysStale(stale'[host], host, expected, remote)
            else stale' == stale
    ensures progress.states[host] == GreetState(host, expected, remote)
  {
    hide Greeting, Unreached;
    var hello := TryConnect(host, remote, progress);
    stale' := stale;
    if hello.Some? {
      if hello.value.current == expected {
        progress.Update(host, UpToDate);
      } else {
        progress.Update(host, Stale);
        stale' := stale[host := StaleHost(expected, hello.value.current)];
      }
    }
  }

  predicate IsStale(host: Name, expected: Option<Oid>, r: Remote) {
    Reachable(host, r) && Greeting(r).value.current != expected
  }

  /** What is known of a stale host is what it greeted with. */
  predicate SaysStale(info: StaleHost, host: Name, expected: Option<Oid>, r: Remote) {
    IsStale(host, expected, r) && info == StaleHost(expected, Greeting(r).value.current)
  }

  function GreetState(host: Name, expected: Option<Oid>, r: Remote): HostState {
    if !Reachable(host, r) then Failed(Unreached(r))
    else if IsStale(host, expected, r) then Stale
    else UpToDate
  }

  /** Greet every host; the stale ones are those whose current commit is not the expected one. */
  method GreetAll(hosts: map<Name, Option<Oid>>, remotes: map<Name, Remote>, progress: DeployProgress)
    returns (stale: map<Name, StaleHost>)
    requires hosts.Keys == progress.states.Keys && hosts.Keys <= remotes.Keys
    modifies progress
    ensures progress.states.Keys == hosts.Keys
    ensures stale.Keys == set h | h in hosts && IsStale(h, hosts[h], remotes[h])
    ensures forall h :: h in stale ==> SaysStale(stale[h], h, hosts[h], remotes[h])
    ensures forall h :: h in hosts ==> progress.states[h] == GreetState(h, hosts[h], remotes[h])
  {
    hide GreetState, Greeting, Reachable, SaysStale, IsStale;
    stale := map[];
    var rest := hosts.Keys;
    while rest != {}
      invariant rest <= hosts.Keys && progress.states.Keys == hosts.Keys
      invariant stale.Keys == set h | h in hosts && h !in rest && IsStale(h, hosts[h], remotes[h])
      invariant forall h :: h in stale ==> SaysStale(stale[h], h, hosts[h], remotes[h])
      invariant forall h :: h in hosts && h !in rest ==> progress.states[h] == GreetState(h, hosts[h], remotes[h])
      decreases rest
    {
      var host :| host in rest;
      stale := GreetOne(host, hosts[host], remotes[host], stale, progress);
      rest := rest - {host};
    }
  }
}
