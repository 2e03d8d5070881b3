/**
  Waiting for restarted units: the poll loop at the end of an activation. Times
  are microseconds of the monotonic clock.
 */
module Activation {
  import opened Wrappers

  const SETTLE: nat := 500_000
  const PATIENCE: nat := 10_000_000
  const POLL_INTERVAL: nat := 100_000

  datatype UnitStatus = UnitStatus(loadState: string, activeState: string, activeEnter: nat, result: string,
                                   restarts: nat) {
    /** The unit's state, judged against its status from right after its restart job. */
    function Activation(baseline: UnitStatus): Outcome {
      if loadState != "loaded" || (result != "" && result != "success") || restarts > baseline.restarts then Broken
      else if activeState == "inactive" then Succeeded
      else if activeState == "active" then Running
      else Starting
    }

    predicate Settled(now: nat) {
      now >= activeEnter + SETTLE
    }
  }

  datatype Outcome = Succeeded | Running | Starting | Broken

  datatype RestartState = Job | JobDone | Settling(baseline: UnitStatus)

  /** What one poll observes: the time, the jobs that have exited, and the statuses, if they can be read. */
  datatype Poll = Poll(now: nat, exited: set<nat>, report: seq<UnitStatus>)

  datatype PollError = SystemdStatusUnreadable

  /** The sleep before each poll takes at least the poll interval. */
  ghost predicate Ticks(start: nat, polls: nat -> Poll) {
    && polls(0).now >= start + POLL_INTERVAL
    && forall i: nat :: polls(i + 1).now >= polls(i).now + POLL_INTERVAL
  }

  ghost predicate JobEnds(polls: nat -> Poll, k: nat) {
    exists i: nat :: k in polls(i).exited
  }

  /** What one wait observes, from its start on. */
  datatype Watch = Watch(start: nat, polls: nat -> Poll) {
    ghost predicate JobsEnd() {
      Ticks(start, polls) && forall k: nat :: JobEnds(polls, k)
    }
  }

  /** The job of unit `k` is first seen to have exited in poll `j`, which also records its baseline. */
  ghost predicate ReapedAt(polls: nat -> Poll, k: nat, j: nat) {
    k in polls(j).exited && forall i: nat :: i < j ==> k !in polls(i).exited
  }

  ghost predicate ReapedBefore(polls: nat -> Poll, k: nat, i: nat) {
    exists j: nat :: j < i && ReapedAt(polls, k, j)
  }

  ghost predicate AllReapedBefore(n: nat, polls: nat -> Poll, i: nat) {
    forall k: nat :: k < n ==> ReapedBefore(polls, k, i)
  }

  ghost predicate Readable(n: nat, polls: nat -> Poll, i: nat) {
    |polls(i).report| == n
  }

  /**
    Two statuses of a unit, the one of poll `i` and its baseline of poll `j`: it
    did not load, or its result is a failure, or systemd has restarted it since.
   */
  ghost predicate HasFailed(status: UnitStatus, baseline: UnitStatus) {
    || status.loadState != "loaded"
    || status.result !in {"", "success"}
    || baseline.restarts < status.restarts
  }

  /** Not failed, and a final state, or active without interruption for the settle window. */
  ghost predicate HasComeUp(status: UnitStatus, baseline: UnitStatus, now: nat) {
    && !HasFailed(status, baseline)
    && (status.activeState == "inactive" || (status.activeState == "active" && status.activeEnter + SETTLE <= now))
  }

  /** In poll `i` the unit has broken, compared to its baseline. */
  ghost predicate SeenBroken(n: nat, polls: nat -> Poll, k: nat, i: nat) {
    exists j: nat :: j <= i && ReapedAt(polls, k, j) && k < n && Readable(n, polls, i) && Readable(n, polls, j)
                     && HasFailed(polls(i).report[k], polls(j).report[k])
  }

  /** In poll `i` the unit has come out well: a final good state, or running and settled. */
  ghost predicate SeenGood(n: nat, polls: nat -> Poll, k: nat, i: nat) {
    exists j: nat :: j <= i && ReapedAt(polls, k, j) && k < n && Readable(n, polls, i) && Readable(n, polls, j)
                     && HasComeUp(polls(i).report[k], polls(j).report[k], polls(i).now)
  }

  predicate Good(status: UnitStatus, baseline: UnitStatus, now: nat) {
    status.Activation(baseline) == Succeeded || (status.Activation(baseline) == Running && status.Settled(now))
  }

  /** The poll that reaps the last outstanding job, if there is one. */
  ghost predicate LastReap(n: nat, polls: nat -> Poll, m: nat) {
    AllReapedBefore(n, polls, m + 1) && exists k: nat :: k < n && ReapedAt(polls, k, m)
  }

  /** All jobs are done, and every unit has come out well or the deadline has passed. */
  ghost predicate Settles(n: nat, polls: nat -> Poll, i: nat) {
    && AllReapedBefore(n, polls, i + 1)
    && ((forall k: nat :: k < n ==> SeenGood(n, polls, k, i))
        || exists m: nat :: LastReap(n, polls, m) && m <= i && polls(m).now + PATIENCE <= polls(i).now)
  }

  /** What ends the wait in poll `i`. */
  ghost predicate Ends(n: nat, polls: nat -> Poll, i: nat) {
    !Readable(n, polls, i) || (exists k: nat :: k < n && SeenBroken(n, polls, k, i)) || Settles(n, polls, i)
  }

  /** Of `n` units none is seen to have broken until the wait is over. */
  ghost predicate CameUp(n: nat, polls: nat -> Poll) {
    exists e: nat ::
      && Settles(n, polls, e) && Readable(n, polls, e) && (forall k: nat :: k < n ==> !SeenBroken(n, polls, k, e))
      && forall i: nat :: i < e ==> !Ends(n, polls, i)
  }

  /** The units that are waited for in poll `i`. */
  ghost predicate WaitedFor(n: nat, polls: nat -> Poll, i: nat, units: seq<nat>) {
    units != [] && forall k: nat :: k in units <==> k < n && !SeenGood(n, polls, k, i)
  }

  /** Reap the jobs that have exited. */
  method Reap(restarts: array<RestartState>, exited: set<nat>) returns (finished: bool)
    modifies restarts
    ensures forall k :: 0 <= k < restarts.Length ==>
              restarts[k] == if old(restarts[k]).Job? && k in exited then JobDone else old(restarts[k])
    ensures finished <==> exists k :: 0 <= k < restarts.Length && old(restarts[k]).Job? && k in exited
  {
    finished := false;
    for i := 0 to restarts.Length
      invariant forall k :: 0 <= k < i ==>
                  restarts[k] == if old(restarts[k]).Job? && k in exited then JobDone else old(restarts[k])
      invariant forall k :: i <= k < restarts.Length ==> restarts[k] == old(restarts[k])
      invariant finished <==> exists k :: 0 <= k < i && old(restarts[k]).Job? && k in exited
    {
      if restarts[i].Job? && i in exited {
        restarts[i] := JobDone;
        finished := true;
      }
    }
  }

  function Judged(state: RestartState, status: UnitStatus): RestartState {
    if state.JobDone? then Settling(status) else state
  }

  predicate IsBroken(state: RestartState, status: UnitStatus) {
    Judged(state, status).Settling? && status.Activation(Judged(state, status).baseline) == Broken
  }

  predicate IsWaiting(state: RestartState, status: UnitStatus, now: nat) {
    var judged := Judged(state, status);
    judged.Job? || (judged.Settling? && !IsBroken(state, status) && !Good(status, judged.baseline, now))
  }

  /** Record baselines and judge each unit; the lists hold unit indices. */
  method Judge(restarts: array<RestartState>, statuses: seq<UnitStatus>, now: nat)
    returns (failed: seq<nat>, waiting: seq<nat>)
    requires |statuses| == restarts.Length
    modifies restarts
    ensures forall k :: 0 <= k < restarts.Length ==> restarts[k] == Judged(old(restarts[k]), statuses[k])
    ensures forall k: nat :: k in failed <==> k < restarts.Length && IsBroken(old(restarts[k]), statuses[k])
    ensures forall k: nat :: k in waiting <==> k < restarts.Length && IsWaiting(old(restarts[k]), statuses[k], now)
  {
    failed, waiting := [], [];
    for i := 0 to restarts.Length
      invariant forall k :: 0 <= k < i ==> restarts[k] == Judged(old(restarts[k]), statuses[k])
      invariant forall k :: i <= k < restarts.Length ==> restarts[k] == old(restarts[k])
      invariant forall k: nat :: k in failed <==> k < i && IsBroken(old(restarts[k]), statuses[k])
      invariant forall k: nat :: k in waiting <==> k < i && IsWaiting(old(restarts[k]), statuses[k], now)
    {
      if restarts[i].JobDone? {
        restarts[i] := Settling(statuses[i]);
      }
      match restarts[i] {
        case Job => waiting := waiting + [i];
        case JobDone =>
        case Settling(baseline) =>
          match statuses[i].Activation(baseline) {
            case Succeeded =>
            case Running =>
              if !statuses[i].Settled(now) {
                waiting := waiting + [i];
              }
            case Starting => waiting := waiting + [i];
            case Broken => failed := failed + [i];
          }
      }
    }
  }

  /** The state of a unit's restart before poll `i`. */
  ghost predicate StateBefore(n: nat, polls: nat -> Poll, k: nat, i: nat, state: RestartState) {
    && !state.JobDone?
    && (state.Job? <==> forall j: nat :: j < i ==> k !in polls(j).exited)
    && (state.Settling? ==> exists j: nat ::
          j < i && ReapedAt(polls, k, j) && Readable(n, polls, j) && k < n && state.baseline == polls(j).report[k])
  }

  lemma ReapedUnique(polls: nat -> Poll, k: nat, i: nat, j: nat)
    requires ReapedAt(polls, k, i) && ReapedAt(polls, k, j)
    ensures i == j
  {
  }

  /** A unit before and after poll `i`. */
  lemma UnitPolled(n: nat, polls: nat -> Poll, k: nat, i: nat, before: RestartState)
    requires k < n && Readable(n, polls, i) && StateBefore(n, polls, k, i, before)
    ensures var reaped := if before.Job? && k in polls(i).exited then JobDone else before;
            var after := Judged(reaped, polls(i).report[k]);
            && StateBefore(n, polls, k, i + 1, after)
            && (IsBroken(reaped, polls(i).report[k]) <==> SeenBroken(n, polls, k, i))
            && (!after.Job? <==> ReapedBefore(polls, k, i + 1))
            && (IsWaiting(reaped, polls(i).report[k], polls(i).now) || IsBroken(reaped, polls(i).report[k])
                <==> !SeenGood(n, polls, k, i))
            && (before.Job? && k in polls(i).exited <==> ReapedAt(polls, k, i))
  {
  }

  /** Where the deadline stands before poll `i`; `m` is the last poll that reaped a job, -1 if none did. */
  ghost predicate DeadlineFrom(n: nat, start: nat, polls: nat -> Poll, i: nat, m: int, deadline: nat) {
    && -1 <= m < i
    && (forall k: nat, j: nat :: k < n && m < j < i ==> !ReapedAt(polls, k, j))
    && if m == -1 then deadline == start + PATIENCE
       else deadline == polls(m).now + PATIENCE && exists k: nat :: k < n && ReapedAt(polls, k, m)
  }

  ghost predicate Outstanding(n: nat, polls: nat -> Poll, i: nat, restarts: seq<RestartState>) {
    |restarts| == n && forall k: nat :: k < n ==> StateBefore(n, polls, k, i, restarts[k])
  }

  ghost predicate FailedAt(n: nat, polls: nat -> Poll, i: nat, failed: seq<nat>) {
    forall k: nat :: k in failed <==> k < n && SeenBroken(n, polls, k, i)
  }

  /** One poll: reap, read the statuses, judge. */
  method PollOnce(n: nat, polls: nat -> Poll, i: nat, restarts: array<RestartState>)
    returns (finished: bool, failed: seq<nat>, waiting: seq<nat>)
    requires restarts.Length == n && Readable(n, polls, i) && Outstanding(n, polls, i, restarts[..])
    modifies restarts
    ensures Outstanding(n, polls, i + 1, restarts[..])
    ensures finished <==> exists k: nat :: k < n && ReapedAt(polls, k, i)
    ensures FailedAt(n, polls, i, failed)
    ensures forall k: nat :: k < n ==> (k in failed || k in waiting <==> !SeenGood(n, polls, k, i))
    ensures forall k: nat :: k in waiting ==> k < n
    ensures forall k: nat :: k < n ==> (restarts[k].Job? <==> !ReapedBefore(polls, k, i + 1))
    ensures (exists k: nat :: k < n && restarts[k].Job?) ==> waiting != []
  {
    ghost var before := restarts[..];
    finished := Reap(restarts, polls(i).exited);
    failed, waiting := Judge(restarts, polls(i).report, polls(i).now);
    forall k: nat | k < n
      ensures && StateBefore(n, polls, k, i + 1, restarts[k])
              && (k in failed <==> SeenBroken(n, polls, k, i))
              && (k in failed || k in waiting <==> !SeenGood(n, polls, k, i))
              && (restarts[k].Job? <==> !ReapedBefore(polls, k, i + 1))
              && (restarts[k].Job? ==> k in waiting)
              && (before[k].Job? && k in polls(i).exited <==> ReapedAt(polls, k, i))
    {
      UnitPolled(n, polls, k, i, before[k]);
    }
    hide StateBefore, SeenBroken, SeenGood, ReapedBefore, ReapedAt;
  }

  /**
    Poll until a unit has broken, or every job is done and every unit has come
    out well or the deadline has passed. `last` is a poll by which all jobs have
    exited. Returns the failed units, and the number of the last poll, which is
    the first one to end the wait.
   */
  method AwaitUnits(n: nat, start: nat, polls: nat -> Poll, ghost last: nat)
    returns (r: Result<seq<nat>, PollError>, e: nat, messages: seq<seq<nat>>)
    requires n > 0 && Ticks(start, polls) && AllReapedBefore(n, polls, last + 1)
    ensures Ends(n, polls, e) && forall i: nat :: i < e ==> !Ends(n, polls, i)
    ensures r.Err? <==> !Readable(n, polls, e)
    ensures r.Ok? ==> FailedAt(n, polls, e, r.value)
    ensures r == Ok([]) ==> Settles(n, polls, e)
    ensures |messages| == e + if r == Ok([]) && e > 0 then 1 else 0
    ensures forall i: nat :: i < e ==> WaitedFor(n, polls, i, messages[i])
    ensures r == Ok([]) && e > 0 ==> messages[e] == []
    ensures forall m: nat :: LastReap(n, polls, m) && m < e ==> polls(e - 1).now < polls(m).now + PATIENCE
  {
    hide StateBefore, SeenBroken, SeenGood, ReapedAt, ReapedBefore, Settles, LastReap, DeadlineFrom, FailedAt, Ends;
    var restarts := new RestartState[n](_ => Job);
    var deadline: nat := start + PATIENCE;
    messages := [];
    e := 0;
    ghost var m: int := -1;
    ghost var clock := start;
    assert Outstanding(n, polls, 0, restarts[..]) by { NothingReaped(n, polls); }
    FirstDeadline(n, start, polls);
    while true
      invariant restarts.Length == n && fresh(restarts) && Outstanding(n, polls, e, restarts[..])
      invariant forall i: nat :: i < e ==> !Ends(n, polls, i)
      invariant |messages| == e && forall i: nat :: i < e ==> WaitedFor(n, polls, i, messages[i])
      invariant DeadlineFrom(n, start, polls, e, m, deadline)
      invariant clock == if e == 0 then start else polls(e - 1).now
      invariant e > 0 && AllReapedBefore(n, polls, e) ==> clock < deadline
      decreases if e <= last then last + 1 - e else 0, deadline - clock
    {
      var poll := polls(e);
      EarlyDeadline(n, start, polls, e, m, deadline);
      if |poll.report| != n {
        UnreadableEnds(n, polls, e);
        return Err(SystemdStatusUnreadable), e, messages;
      }
      var finished, failed, waiting := PollOnce(n, polls, e, restarts);
      DeadlineStep(n, start, polls, e, m, deadline, finished);
      if finished {
        deadline := poll.now + PATIENCE;
        m := e;
      }
      if failed != [] {
        FailedEnds(n, polls, e, failed);
        return Ok(failed), e, messages;
      }
      var allRestarted := forall k :: 0 <= k < n ==> !restarts[k].Job?;
      AllRestarted(n, polls, e, restarts[..]);
      if allRestarted && (waiting == [] || poll.now >= deadline) {
        if messages != [] {
          messages := messages + [[]];
        }
        LastReapAt(n, start, polls, e, m, deadline);
        NoneFailed(n, polls, e, failed);
        NowSettles(n, polls, e, m, waiting);
        return Ok([]), e, messages;
      }
      if waiting != [] {
        messages := messages + [waiting];
      }
      EarlyDeadline(n, start, polls, e + 1, m, deadline);
      NoneFailed(n, polls, e, failed);
      NotYet(n, polls, e, waiting, allRestarted);
      if e > last {
        NoneAfter(n, polls, e, last);
      }
      assert polls(e).now >= clock + POLL_INTERVAL;
      if e >= last {
        ReapedLater(n, polls, last + 1, e + 1);
      }
      clock := poll.now;
      e := e + 1;
    }
  }

  lemma AllRestarted(n: nat, polls: nat -> Poll, e: nat, restarts: seq<RestartState>)
    requires |restarts| == n && forall k: nat :: k < n ==> (restarts[k].Job? <==> !ReapedBefore(polls, k, e + 1))
    ensures (forall k :: 0 <= k < n ==> !restarts[k].Job?) <==> AllReapedBefore(n, polls, e + 1)
  {
    hide ReapedBefore;
    if AllReapedBefore(n, polls, e + 1) {
      forall k | 0 <= k < n ensures !restarts[k].Job? {
        var j: nat := k;
        assert ReapedBefore(polls, j, e + 1);
      }
    }
    if forall k :: 0 <= k < n ==> !restarts[k].Job? {
      ghost var next: nat := e + 1;
      forall k: nat | k < n ensures ReapedBefore(polls, k, next) {
        assert !restarts[k].Job?;
      }
    }
  }

  lemma NowSettles(n: nat, polls: nat -> Poll, e: nat, m: nat, waiting: seq<nat>)
    requires AllReapedBefore(n, polls, e + 1) && LastReap(n, polls, m) && m <= e
    requires forall k: nat :: k < n ==> (k in waiting <==> !SeenGood(n, polls, k, e))
    requires waiting == [] || polls(m).now + PATIENCE <= polls(e).now
    ensures Settles(n, polls, e) && Ends(n, polls, e)
  {
    hide AllReapedBefore, LastReap, SeenGood;
  }

  lemma UnreadableEnds(n: nat, polls: nat -> Poll, e: nat)
    requires !Readable(n, polls, e)
    ensures Ends(n, polls, e)
  {
  }

  lemma FailedEnds(n: nat, polls: nat -> Poll, e: nat, failed: seq<nat>)
    requires FailedAt(n, polls, e, failed) && failed != []
    ensures Ends(n, polls, e)
  {
    hide SeenBroken, Settles;
    SomeFailed(n, polls, e, failed);
  }

  lemma SomeFailed(n: nat, polls: nat -> Poll, e: nat, failed: seq<nat>)
    requires FailedAt(n, polls, e, failed)
    ensures failed != [] ==> exists k: nat :: k < n && SeenBroken(n, polls, k, e)
  {
    hide SeenBroken;
    if failed != [] {
      assert failed[0] in failed;
    }
  }

  lemma NoneSeen(n: nat, polls: nat -> Poll, e: nat)
    requires !Readable(n, polls, e)
    ensures FailedAt(n, polls, e, [])
  {
  }

  lemma NoneFailed(n: nat, polls: nat -> Poll, e: nat, failed: seq<nat>)
    requires FailedAt(n, polls, e, failed) && failed == []
    ensures forall k: nat :: k < n ==> !SeenBroken(n, polls, k, e)
  {
    hide SeenBroken;
    forall k: nat | k < n ensures !SeenBroken(n, polls, k, e) {
      assert k !in failed;
    }
  }

  /** The wait is decided by the first poll that ends it. */
  lemma DecidedAt(n: nat, polls: nat -> Poll, e: nat, failed: seq<nat>)
    requires Ends(n, polls, e) && forall i: nat :: i < e ==> !Ends(n, polls, i)
    requires FailedAt(n, polls, e, failed)
    ensures Readable(n, polls, e) && failed == [] <==> CameUp(n, polls)
  {
    hide Settles, SeenBroken;
    SomeFailed(n, polls, e, failed);
    if Readable(n, polls, e) && failed == [] {
      NoneFailed(n, polls, e, failed);
    }
    if CameUp(n, polls) {
      var d: nat :|
        && Settles(n, polls, d) && Readable(n, polls, d) && (forall k: nat :: k < n ==> !SeenBroken(n, polls, k, d))
        && forall i: nat :: i < d ==> !Ends(n, polls, i);
      assert Ends(n, polls, d);
      assert !(d < e) && !(e < d);
    }
  }

  lemma {:induction false} LastJob(n: nat, w: Watch) returns (last: nat)
    requires w.JobsEnd()
    ensures AllReapedBefore(n, w.polls, last + 1)
  {
    hide Ticks, ReapedAt, JobEnds;
    if n == 0 {
      return 0;
    }
    var before := LastJob(n - 1, w);
    assert JobEnds(w.polls, n - 1);
    var j := FirstSeen(w.polls, n - 1);
    last := if j > before then j else before;
    ReapedLater(n - 1, w.polls, before + 1, last + 1);
    assert ReapedBefore(w.polls, n - 1, last + 1);
    hide ReapedBefore;
  }

  lemma FirstSeen(polls: nat -> Poll, k: nat) returns (j: nat)
    requires JobEnds(polls, k)
    ensures ReapedAt(polls, k, j)
  {
    var i: nat :| k in polls(i).exited;
    j := 0;
    while k !in polls(j).exited
      invariant j <= i && forall l: nat :: l < j ==> k !in polls(l).exited
      decreases i - j
    {
      j := j + 1;
    }
  }

  lemma FirstDeadline(n: nat, start: nat, polls: nat -> Poll)
    ensures DeadlineFrom(n, start, polls, 0, -1, start + PATIENCE)
  {
  }

  lemma NotYet(n: nat, polls: nat -> Poll, e: nat, waiting: seq<nat>, allRestarted: bool)
    requires allRestarted <==> AllReapedBefore(n, polls, e + 1)
    requires Readable(n, polls, e) && forall k: nat :: k < n ==> !SeenBroken(n, polls, k, e)
    requires forall k: nat :: k in waiting ==> k < n
    requires forall k: nat :: k < n ==> (k in waiting <==> !SeenGood(n, polls, k, e))
    requires allRestarted ==>
               && waiting != []
               && forall l: nat :: LastReap(n, polls, l) && l <= e ==> polls(e).now < polls(l).now + PATIENCE
    ensures !Ends(n, polls, e)
  {
    hide AllReapedBefore, LastReap, SeenGood, SeenBroken;
    if waiting != [] {
      assert waiting[0] in waiting;
    }
  }

  lemma NothingReaped(n: nat, polls: nat -> Poll)
    ensures forall k: nat :: k < n ==> StateBefore(n, polls, k, 0, Job)
  {
  }

  lemma ReapedLater(n: nat, polls: nat -> Poll, i: nat, j: nat)
    requires AllReapedBefore(n, polls, i) && i <= j
    ensures AllReapedBefore(n, polls, j)
  {
    hide ReapedAt;
    forall k: nat | k < n ensures ReapedBefore(polls, k, j) {
      assert ReapedBefore(polls, k, i);
    }
  }

  lemma NoneAfter(n: nat, polls: nat -> Poll, e: nat, last: nat)
    requires AllReapedBefore(n, polls, last + 1) && e > last
    ensures !exists k: nat :: k < n && ReapedAt(polls, k, e)
  {
    forall k: nat | k < n ensures !ReapedAt(polls, k, e) {
      assert ReapedBefore(polls, k, last + 1);
      var j: nat :| j < last + 1 && ReapedAt(polls, k, j);
      if ReapedAt(polls, k, e) {
        ReapedUnique(polls, k, e, j);
      }
    }
  }

  lemma DeadlineStep(n: nat, start: nat, polls: nat -> Poll, e: nat, m: int, deadline: nat, finished: bool)
    requires DeadlineFrom(n, start, polls, e, m, deadline)
    requires finished <==> exists k: nat :: k < n && ReapedAt(polls, k, e)
    ensures finished ==> DeadlineFrom(n, start, polls, e + 1, e, polls(e).now + PATIENCE)
    ensures !finished ==> DeadlineFrom(n, start, polls, e + 1, m, deadline)
  {
  }

  /** Before poll `e`, at a poll after the last reap, the deadline had not passed. */
  lemma EarlyDeadline(n: nat, start: nat, polls: nat -> Poll, e: nat, m: int, deadline: nat)
    requires DeadlineFrom(n, start, polls, e, m, deadline)
    requires e > 0 && AllReapedBefore(n, polls, e) ==> polls(e - 1).now < deadline
    ensures forall l: nat :: LastReap(n, polls, l) && l < e ==> polls(e - 1).now < polls(l).now + PATIENCE
  {
    forall l: nat | LastReap(n, polls, l) && l < e ensures polls(e - 1).now < polls(l).now + PATIENCE {
      ReapedLater(n, polls, l + 1, e);
      hide ReapedAt;
      var k: nat :| k < n && ReapedAt(polls, k, l);
      assert l <= m;
      var k': nat :| k' < n && ReapedAt(polls, k', m);
      if l < m {
        NoneAfter(n, polls, m, l);
      }
    }
  }

  lemma LastReapAt(n: nat, start: nat, polls: nat -> Poll, e: nat, m: int, deadline: nat)
    requires n > 0 && DeadlineFrom(n, start, polls, e + 1, m, deadline) && AllReapedBefore(n, polls, e + 1)
    ensures m >= 0 && LastReap(n, polls, m) && deadline == polls(m).now + PATIENCE
  {
    hide ReapedAt;
    assert ReapedBefore(polls, 0, e + 1);
    var next: nat := m + 1;
    assert m >= 0;
    forall k: nat | k < n ensures ReapedBefore(polls, k, next) {
      assert ReapedBefore(polls, k, e + 1);
      var j: nat :| j < e + 1 && ReapedAt(polls, k, j);
      assert j <= m;
    }
  }
}
