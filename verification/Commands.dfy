/**
  What an activation does on a host, in its order: links, managed directories,
  and the commands that it runs, each with how it came out.
 */
module Commands {
  import opened Paths

  datatype Action =
    | LinkManifests
    | Reconcile(subdir: Name)
    | ReloadNetworkd
    | MakeSysusers
    | Disable(unit: string)
    | Enable(unit: string)
    | ReloadDaemon
    | Restart(unit: string)
    | Start(unit: string)
    | AwaitUnits(units: seq<string>)
  {
    /** `systemctl_ok` drops the outcome of these. */
    predicate MustSucceed() {
      !Disable? && !Enable? && !ReloadDaemon?
    }
  }

  datatype Ran = Ran(action: Action, good: bool) {
    predicate Passes() {
      good || !action.MustSucceed()
    }
  }

  /**
    Since `before` the planned actions were done in their order: all of them if
    all of them passed, and otherwise up to the first one that did not.
   */
  ghost predicate Performs(before: seq<Ran>, after: seq<Ran>, planned: seq<Action>, ok: bool) {
    && before <= after && |after| <= |before| + |planned|
    && (forall i :: |before| <= i < |after| ==> after[i].action == planned[i - |before|])
    && (forall i :: |before| <= i < |after| - 1 ==> after[i].Passes())
    && (ok ==> |after| == |before| + |planned| && (planned != [] ==> after[|after| - 1].Passes()))
    && (!ok ==> |before| < |after| && !after[|after| - 1].Passes())
  }

  lemma PerformsNone(log: seq<Ran>)
    ensures Performs(log, log, [], true)
  {
  }

  lemma PerformsOne(before: seq<Ran>, a: Action, good: bool)
    ensures Performs(before, before + [Ran(a, good)], [a], Ran(a, good).Passes())
  {
  }

  lemma PerformsThen(x: seq<Ran>, m: seq<Ran>, y: seq<Ran>, p: seq<Action>, q: seq<Action>, ok: bool)
    requires Performs(x, m, p, true) && Performs(m, y, q, ok)
    ensures Performs(x, y, p + q, ok)
  {
  }

  lemma PerformsStop(x: seq<Ran>, m: seq<Ran>, p: seq<Action>, q: seq<Action>)
    requires Performs(x, m, p, false)
    ensures Performs(x, m, p + q, false)
  {
  }

  function Disables(units: seq<string>): seq<Action> {
    seq(|units|, i requires 0 <= i < |units| => Disable(units[i]))
  }

  function Enables(units: seq<string>): seq<Action> {
    seq(|units|, i requires 0 <= i < |units| => Enable(units[i]))
  }

  /** A deploy restarts its units; a reapply starts them, which leaves those alone that are running. */
  function Starts(restart: bool, units: seq<string>): seq<Action> {
    seq(|units|, i requires 0 <= i < |units| => if restart then Restart(units[i]) else Start(units[i]))
  }

  /** The units that are started are started in order, and then waited for. */
  function StartPlan(restart: bool, units: seq<string>): seq<Action> {
    if units == [] then [] else Starts(restart, units) + [AwaitUnits(units)]
  }

  /** `action` if it is needed. */
  function If(needed: bool, action: Action): seq<Action> {
    if needed then [action] else []
  }
}
