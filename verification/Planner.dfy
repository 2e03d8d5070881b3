/**
  The driver's offline view: which hosts a config tree changes, according to
  the tracking refs. Shared by `deploy`, `status`, `sync` and `reapply`.
 */
module Planner {
  import opened Wrappers
  import opened Paths
  import opened Trees
  import opened Plan
  import opened Desired
  import opened ConfigTree
  import opened History

  /** A tracked commit, and the host's own subtree in it. */
  datatype HostRef = HostRef(commit: Oid, hostTree: Tree)

  datatype HostFilter = All | Only(limit: seq<Name>)

  datatype PlanError = Store(cause: StoreError) | UnknownHosts(hosts: set<Name>) | UnsyncedHosts(unsynced: set<Name>)

  datatype HostPlan = HostPlan(apps: map<Name, AppPlan>, expectedCurrent: Option<Oid>, isRollbackSafe: bool)

  datatype DraftPlan = DraftPlan(hosts: map<Name, HostPlan>, tree: Tree, parents: seq<Oid>)

  /** A driver's store: the commit graph, each commit's config tree, and the tracking refs. */
  datatype Repo = Repo(dag: Dag, trees: map<Oid, Tree>, tracking: map<Name, Oid>) {
    ghost predicate Valid() {
      dag.Acyclic() && trees.Keys == dag.parents.Keys
    }

    predicate Dangling(h: Name) {
      h in tracking && tracking[h] !in trees
    }

    /** What is known of a host: its tracking ref, if the commit has an entry for the host. */
    function Tracked(h: Name): Option<HostRef> {
      if h in tracking && tracking[h] in trees && SubtreeOid(trees[tracking[h]], h).Some?
      then Some(HostRef(tracking[h], SubtreeOid(trees[tracking[h]], h).value))
      else None
    }

    function ExpectedCurrent(h: Name): Option<Oid> {
      match Tracked(h) case None => None case Some(hr) => Some(hr.commit)
    }
  }

  method HostTrackingRefs(repo: Repo, hosts: set<Name>) returns (r: Result<map<Name, HostRef>, StoreError>)
    ensures r.Ok? <==> forall h :: h in hosts ==> !repo.Dangling(h)
    ensures r.Ok? ==> r.value == map h | h in hosts && repo.Tracked(h).Some? :: repo.Tracked(h).value
  {
    var result: map<Name, HostRef> := map[];
    var rest := hosts;
    while rest != {}
      invariant rest <= hosts
      invariant forall h :: h in hosts - rest ==> !repo.Dangling(h)
      invariant result == map h | h in hosts - rest && repo.Tracked(h).Some? :: repo.Tracked(h).value
      decreases rest
    {
      var host :| host in rest;
      rest := rest - {host};
      if host in repo.tracking {
        var commit := repo.tracking[host];
        if commit !in repo.trees {
          return Err(Git);
        }
        match SubtreeOid(repo.trees[commit], host) {
          case Some(t) => result := result[host := HostRef(commit, t)];
          case None =>
        }
      }
    }
    assert hosts - {} == hosts;
    return Ok(result);
  }

  predicate Passes(filter: HostFilter, h: Name) {
    filter.All? || h in filter.limit
  }

  predicate AllKnown(filter: HostFilter, hosts: set<Name>) {
    filter.Only? ==> forall h :: h in filter.limit ==> h in hosts
  }

  /** Drop the hosts that the filter excludes; an error for names that are not hosts. */
  method ApplyFilter(filter: HostFilter, hosts: map<Name, Tree>) returns (r: Result<map<Name, Tree>, PlanError>)
    ensures r.Ok? <==> AllKnown(filter, hosts.Keys)
    ensures r.Err? ==> r.error == UnknownHosts((set h | h in filter.limit) - hosts.Keys)
    ensures r.Ok? ==> r.value == map h | h in hosts && Passes(filter, h) :: hosts[h]
  {
    match filter {
      case All =>
        return Ok(hosts);
      case Only(limit) =>
        var unknown := (set h | h in limit) - hosts.Keys;
        if unknown != {} {
          var u :| u in unknown;
          assert u in limit && u !in hosts;
          return Err(UnknownHosts(unknown));
        }
        forall h | h in limit ensures h in hosts { assert h !in unknown; }
        return Ok(map h | h in hosts && h in limit :: hosts[h]);
    }
  }

  /** The hosts of a config tree that pass the filter. */
  ghost function Selected(config: Tree, filter: HostFilter): map<Name, Tree> {
    map h | h in TreeEntries(config) && Passes(filter, h) :: TreeEntries(config)[h]
  }

  /** A known host is up to date when its tracked subtree is the config's subtree. */
  ghost predicate NeedsDeploy(repo: Repo, h: Name, target: Tree) {
    repo.Tracked(h).None? || repo.Tracked(h).value.hostTree != target
  }

  ghost function TrackedApps(repo: Repo, h: Name): Apps {
    match repo.Tracked(h) case None => map[] case Some(hr) => TreeEntries(hr.hostTree)
  }

  ghost predicate IsHostPlan(repo: Repo, h: Name, target: Tree, p: HostPlan) {
    && p.expectedCurrent == repo.ExpectedCurrent(h)
    && IsAppPlans(TrackedApps(repo, h), TreeEntries(target), p.apps)
    && (p.isRollbackSafe <==> forall a :: a in p.apps ==> p.apps[a].system.IsRollbackSafe())
  }

  /** The commits that the hosts in `hs` are expected to be at. */
  ghost function ExpectedCommits(repo: Repo, hs: set<Name>): set<Oid> {
    set h | h in hs && repo.Tracked(h).Some? :: repo.Tracked(h).value.commit
  }

  ghost predicate ValidConfig(config: Tree) {
    config.Dir? && forall h :: h in config.entries ==> config.entries[h].Dir? && ValidHost(GetHostApps(config, h))
  }

  method Validate(config: Tree) returns (r: Result<(), StoreError>)
    requires config.Dir?
    ensures r.Ok? <==> ValidConfig(config)
  {
    hide ValidHost;
    var rest := config.entries.Keys;
    while rest != {}
      invariant rest <= config.entries.Keys
      invariant forall h :: h in config.entries.Keys - rest ==>
                  config.entries[h].Dir? && ValidHost(GetHostApps(config, h))
      decreases rest
    {
      var host :| host in rest;
      if config.entries[host].Blob? {
        return Err(Git);
      }
      var apps := GetHostApps(config, host);
      var valid := ValidateAppManifests(apps);
      if valid.Err? {
        return valid;
      }
      rest := rest - {host};
    }
    return Ok(());
  }

  /** `draft` is the plan for the selected hosts that differ: nothing is left out and nothing is added. */
  ghost predicate IsPlan(repo: Repo, config: Tree, filter: HostFilter, draft: DraftPlan)
    requires repo.Valid()
  {
    var selected := Selected(config, filter);
    && draft.tree == config
    && (forall h :: h in draft.hosts <==> h in selected && NeedsDeploy(repo, h, selected[h]))
    && (forall h :: h in draft.hosts ==> IsHostPlan(repo, h, selected[h], draft.hosts[h]))
    && ExpectedCommits(repo, draft.hosts.Keys) <= repo.dag.parents.Keys
    && StrictlySorted(draft.parents)
    && Elements(draft.parents) == Maximal(repo.dag, ExpectedCommits(repo, draft.hosts.Keys))
  }

  /** The tracked entry is a tree, and every manifest and subdirectory that the diff reads is readable. */
  ghost predicate Plannable(repo: Repo, h: Name, target: Tree) {
    && (repo.Tracked(h).Some? ==> repo.Tracked(h).value.hostTree.Dir?)
    && ReadableChange(TrackedApps(repo, h), TreeEntries(target))
  }

  /** The store has the commits of all tracking refs of these hosts. */
  ghost predicate NoneDangling(repo: Repo, hs: set<Name>) {
    forall h :: h in hs ==> !repo.Dangling(h)
  }

  /** Plan one host that needs a deploy. */
  method PlanHost(repo: Repo, h: Name, target: Tree) returns (r: Result<HostPlan, PlanError>)
    ensures r.Ok? ==> IsHostPlan(repo, h, target, r.value)
    ensures r.Ok? <==> Plannable(repo, h, target)
  {
    hide ReadableChange;
    var expectedCurrent: Option<Oid> := None;
    var currentApps: Apps := map[];
    match repo.Tracked(h) {
      case None =>
      case Some(hr) =>
        if hr.hostTree.Blob? {
          return Err(Store(Git));
        }
        expectedCurrent := Some(hr.commit);
        currentApps := TreeEntries(hr.hostTree);
    }
    var planned := PlanApps(currentApps, TreeEntries(target));
    match planned {
      case Err(e) => return Err(Store(e));
      case Ok((apps, safe)) => return Ok(HostPlan(apps, expectedCurrent, safe));
    }
  }

  ghost predicate IsTrackingRefs(repo: Repo, hosts: set<Name>, refs: map<Name, HostRef>) {
    refs == map h | h in hosts && repo.Tracked(h).Some? :: repo.Tracked(h).value
  }

  ghost predicate PlansHosts(repo: Repo, configHosts: map<Name, Tree>, some: set<Name>, hosts: map<Name, HostPlan>)
    requires some <= configHosts.Keys
  {
    && (forall h :: h in hosts <==> h in some && NeedsDeploy(repo, h, configHosts[h]))
    && (forall h :: h in hosts ==> IsHostPlan(repo, h, configHosts[h], hosts[h]))
  }

  /** The hosts that differ, their plans, and the commits they are expected to be at. */
  method PlanHosts(repo: Repo, configHosts: map<Name, Tree>, hostRefs: map<Name, HostRef>)
    returns (r: Result<(map<Name, HostPlan>, seq<Oid>), PlanError>)
    requires IsTrackingRefs(repo, configHosts.Keys, hostRefs)
    ensures r.Ok? ==> PlansHosts(repo, configHosts, configHosts.Keys, r.value.0)
    ensures r.Ok? ==> Elements(r.value.1) == ExpectedCommits(repo, r.value.0.Keys)
    ensures r.Ok? <==> forall h :: h in configHosts && NeedsDeploy(repo, h, configHosts[h]) ==>
              Plannable(repo, h, configHosts[h])
  {
    hide IsHostPlan, ExpectedCommits, Plannable;
    var parentCommits: seq<Oid> := [];
    var hosts: map<Name, HostPlan> := map[];
    var rest := configHosts.Keys;
    NoneExpected(repo);
    assert hosts.Keys == {} && parentCommits == [];
    while rest != {}
      invariant rest <= configHosts.Keys
      invariant PlansHosts(repo, configHosts, configHosts.Keys - rest, hosts)
      invariant Elements(parentCommits) == ExpectedCommits(repo, hosts.Keys)
      invariant forall h :: h in hosts ==> Plannable(repo, h, configHosts[h])
      decreases rest
    {
      var host :| host in rest;
      var target := configHosts[host];
      rest := rest - {host};
      if host in hostRefs && hostRefs[host].hostTree == target {
        continue;
      }
      var planned := PlanHost(repo, host, target);
      if planned.Err? {
        return Err(planned.error);
      }
      ExpectedStep(repo, hosts.Keys, host);
      if host in hostRefs {
        ElementsAppend(parentCommits, [hostRefs[host].commit]);
        parentCommits := parentCommits + [hostRefs[host].commit];
      }
      ghost var before := hosts;
      hosts := hosts[host := planned.value];
      assert hosts.Keys == before.Keys + {host};
    }
    assert configHosts.Keys - {} == configHosts.Keys;
    return Ok((hosts, parentCommits));
  }

  lemma NoneExpected(repo: Repo)
    ensures ExpectedCommits(repo, {}) == Elements([])
  {
  }

  lemma ExpectedKnown(repo: Repo, hs: set<Name>)
    requires repo.Valid()
    ensures ExpectedCommits(repo, hs) <= repo.dag.parents.Keys
  {
  }

  /** Diff a config tree against the tracked state; `None` when no host needs changes. */
  method MakePlan(repo: Repo, config: Tree, filter: HostFilter) returns (r: Result<Option<DraftPlan>, PlanError>)
    requires repo.Valid() && config.Dir?
    ensures r.Ok? <==>
              && ValidConfig(config) && AllKnown(filter, TreeEntries(config).Keys)
              && NoneDangling(repo, Selected(config, filter).Keys)
              && forall h :: h in Selected(config, filter) && NeedsDeploy(repo, h, Selected(config, filter)[h]) ==>
                   Plannable(repo, h, Selected(config, filter)[h])
    ensures r.Ok? && r.value.Some? ==> IsPlan(repo, config, filter, r.value.value) && r.value.value.hosts != map[]
    ensures r.Ok? && r.value.None? ==>
              forall h :: h in Selected(config, filter) ==> !NeedsDeploy(repo, h, Selected(config, filter)[h])
  {
    hide ValidConfig, IsHostPlan, Dag.Reaches, ExpectedCommits, Maximal, NeedsDeploy, Plannable;
    var valid := Validate(config);
    if valid.Err? {
      return Err(Store(valid.error));
    }
    var filtered := ApplyFilter(filter, TreeEntries(config));
    if filtered.Err? {
      return Err(filtered.error);
    }
    var configHosts := filtered.value;
    assert configHosts == Selected(config, filter);
    var refs := HostTrackingRefs(repo, configHosts.Keys);
    if refs.Err? {
      return Err(Store(refs.error));
    }
    var planned := PlanHosts(repo, configHosts, refs.value);
    if planned.Err? {
      return Err(planned.error);
    }
    var (hosts, parentCommits) := planned.value;
    if hosts == map[] {
      forall h | h in configHosts ensures !NeedsDeploy(repo, h, configHosts[h]) {
        assert h !in hosts;
      }
      return Ok(None);
    }
    ExpectedKnown(repo, hosts.Keys);
    var parents := Frontier(repo.dag, parentCommits);
    return Ok(Some(DraftPlan(hosts, config, parents)));
  }

  lemma ExpectedStep(repo: Repo, hs: set<Name>, h: Name)
    ensures ExpectedCommits(repo, hs + {h})
         == ExpectedCommits(repo, hs) + if repo.Tracked(h).Some? then {repo.Tracked(h).value.commit} else {}
  {
  }

  // ----- Status, sync and reapply -----

  datatype HostStatus = NewHost | UpToDate(commit: Oid) | HasChanges(since: Oid, apps: set<Name>)

  /** What is tracked of these hosts are trees. */
  ghost predicate AllTrees(repo: Repo, hs: set<Name>) {
    forall h :: h in hs && repo.Tracked(h).Some? ==> repo.Tracked(h).value.hostTree.Dir?
  }

  /** Compare the config to the tracking refs, app by app. */
  method ComputeStatus(repo: Repo, config: Tree, filter: HostFilter)
    returns (r: Result<map<Name, HostStatus>, PlanError>)
    requires config.Dir?
    ensures r.Ok? <==>
              && AllKnown(filter, TreeEntries(config).Keys) && NoneDangling(repo, Selected(config, filter).Keys)
              && AllTrees(repo, Selected(config, filter).Keys)
    ensures r.Ok? ==> r.value.Keys == Selected(config, filter).Keys
    ensures r.Ok? ==> forall h :: h in r.value ==>
              && (r.value[h].NewHost? <==> repo.Tracked(h).None?)
              && (r.value[h].UpToDate? <==>
                    repo.Tracked(h).Some? && TrackedApps(repo, h) == TreeEntries(Selected(config, filter)[h]))
              && (r.value[h].HasChanges? ==> forall a ::
                    a in r.value[h].apps <==>
                      Differs(TrackedApps(repo, h), TreeEntries(Selected(config, filter)[h]), a))
  {
    hide IsAppDiff, Differs;
    var filtered := ApplyFilter(filter, TreeEntries(config));
    if filtered.Err? {
      return Err(filtered.error);
    }
    var configHosts := filtered.value;
    assert configHosts == Selected(config, filter);
    var refs := HostTrackingRefs(repo, configHosts.Keys);
    if refs.Err? {
      return Err(Store(refs.error));
    }
    var hostRefs := refs.value;
    var result: map<Name, HostStatus> := map[];
    var rest := configHosts.Keys;
    while rest != {}
      invariant rest <= configHosts.Keys && result.Keys == configHosts.Keys - rest && AllTrees(repo, result.Keys)
      invariant forall h :: h in result ==>
                  && (result[h].NewHost? <==> repo.Tracked(h).None?)
                  && (result[h].UpToDate? <==>
                      repo.Tracked(h).Some? && TrackedApps(repo, h) == TreeEntries(configHosts[h]))
                  && (result[h].HasChanges? ==> forall a ::
                        a in result[h].apps <==> Differs(TrackedApps(repo, h), TreeEntries(configHosts[h]), a))
      decreases rest
    {
      var host :| host in rest;
      rest := rest - {host};
      if host !in hostRefs {
        result := result[host := NewHost];
      } else if hostRefs[host].hostTree.Blob? {
        return Err(Store(Git));
      } else {
        var currentApps, targetApps := TreeEntries(hostRefs[host].hostTree), TreeEntries(configHosts[host]);
        var appDiffs := DiffApps(currentApps, targetApps);
        DiffsCarryOver(currentApps, targetApps, appDiffs, appDiffs);
        if appDiffs == map[] {
          result := result[host := UpToDate(hostRefs[host].commit)];
        } else {
          result := result[host := HasChanges(hostRefs[host].commit, appDiffs.Keys)];
        }
      }
    }
    return Ok(result);
  }

  datatype SyncMode = AllHosts | OnlyChanged

  method SelectHostsToSync(repo: Repo, config: Tree, mode: SyncMode, filter: HostFilter)
    returns (r: Result<map<Name, Option<Oid>>, PlanError>)
    requires config.Dir?
    ensures r.Ok? <==> AllKnown(filter, TreeEntries(config).Keys) && NoneDangling(repo, Selected(config, filter).Keys)
    ensures r.Ok? ==> forall h :: h in r.value <==>
              h in Selected(config, filter) && (mode == AllHosts || NeedsDeploy(repo, h, Selected(config, filter)[h]))
    ensures r.Ok? ==> forall h :: h in r.value ==> r.value[h] == repo.ExpectedCurrent(h)
  {
    var filtered := ApplyFilter(filter, TreeEntries(config));
    if filtered.Err? {
      return Err(filtered.error);
    }
    var configHosts := filtered.value;
    assert configHosts == Selected(config, filter);
    var refs := HostTrackingRefs(repo, configHosts.Keys);
    if refs.Err? {
      return Err(Store(refs.error));
    }
    var hostRefs := refs.value;
    var toSync: map<Name, Option<Oid>> := map[];
    var rest := configHosts.Keys;
    while rest != {}
      invariant rest <= configHosts.Keys
      invariant forall h :: h in toSync <==>
                  h in configHosts.Keys - rest && (mode == AllHosts || NeedsDeploy(repo, h, configHosts[h]))
      invariant forall h :: h in toSync ==> toSync[h] == repo.ExpectedCurrent(h)
      decreases rest
    {
      var host :| host in rest;
      rest := rest - {host};
      var needsSync := mode == AllHosts || host !in hostRefs || hostRefs[host].hostTree != configHosts[host];
      if needsSync {
        toSync := toSync[host := if host in hostRefs then Some(hostRefs[host].commit) else None];
      }
    }
    return Ok(toSync);
  }

  datatype HostReapply = HostReapply(commit: Oid, apps: nat, unitsEnabled: set<string>)

  /** The units that any app of a host enables. */
  ghost function UnitsOf(apps: Apps): set<string> {
    set a, u | a in apps && u in Enabled(apps[a]) :: u
  }

  method UnitsEnabled(apps: Apps) returns (r: Result<set<string>, StoreError>)
    ensures r.Ok? <==> forall a :: a in apps ==> ReadManifest(apps[a]).Ok?
    ensures r.Ok? ==> r.value == UnitsOf(apps)
  {
    hide ReadManifest, EnabledUnits;
    var units: set<string> := {};
    var rest := apps.Keys;
    while rest != {}
      invariant rest <= apps.Keys
      invariant forall a :: a in apps.Keys - rest ==> ReadManifest(apps[a]).Ok?
      invariant units == set a, u | a in apps.Keys - rest && u in Enabled(apps[a]) :: u
      decreases rest
    {
      var app :| app in rest;
      var manifest :- ReadManifest(apps[app]);
      assert EnabledUnits(manifest) == Enabled(apps[app]);
      units := units + EnabledUnits(manifest);
      rest := rest - {app};
    }
    assert apps.Keys - {} == apps.Keys;
    return Ok(units);
  }

  /** The tracked entry of a host has readable manifests. */
  ghost predicate Reappliable(repo: Repo, h: Name) {
    && repo.Tracked(h).Some? && repo.Tracked(h).value.hostTree.Dir?
    && forall a :: a in TrackedApps(repo, h) ==> ReadManifest(TrackedApps(repo, h)[a]).Ok?
  }

  ghost predicate IsReapply(repo: Repo, h: Name, p: HostReapply) {
    && Some(p.commit) == repo.ExpectedCurrent(h) && p.apps == |TrackedApps(repo, h)|
    && p.unitsEnabled == UnitsOf(TrackedApps(repo, h))
  }

  /** What reapply converges one tracked host on. */
  method ReapplyOf(repo: Repo, host: Name, ref: HostRef) returns (r: Result<HostReapply, PlanError>)
    requires repo.Tracked(host) == Some(ref)
    ensures r.Ok? <==> Reappliable(repo, host)
    ensures r.Ok? ==> IsReapply(repo, host, r.value)
    ensures r.Err? ==> r.error.Store?
  {
    hide ReadManifest, UnitsOf, TreeEntries;
    if ref.hostTree.Blob? {
      return Err(Store(Git));
    }
    var apps := TreeEntries(ref.hostTree);
    var units := UnitsEnabled(apps);
    assert TrackedApps(repo, host) == apps;
    if units.Err? {
      return Err(Store(units.error));
    }
    return Ok(HostReapply(ref.commit, |apps|, units.value));
  }

  /** What reapply converges each host on, from the tracking refs: an error when a host has none. */
  method SelectHostsToReapply(repo: Repo, config: Tree, filter: HostFilter)
    returns (r: Result<map<Name, HostReapply>, PlanError>)
    requires config.Dir?
    ensures r.Ok? <==>
              && AllKnown(filter, TreeEntries(config).Keys) && NoneDangling(repo, Selected(config, filter).Keys)
              && forall h :: h in Selected(config, filter) ==> Reappliable(repo, h)
    ensures r.Ok? ==>
              && r.value.Keys == Selected(config, filter).Keys
              && forall h :: h in r.value ==> IsReapply(repo, h, r.value[h])
    ensures r.Err? && r.error.UnsyncedHosts? ==>
              && r.error.unsynced == (set h | h in Selected(config, filter) && repo.Tracked(h).None?)
              && r.error.unsynced != {}
  {
    hide IsReapply, TrackedApps, ReadManifest, TreeEntries, Repo.Tracked, Repo.Dangling;
    var filtered := ApplyFilter(filter, TreeEntries(config));
    if filtered.Err? {
      return Err(filtered.error);
    }
    var configHosts := filtered.value;
    assert configHosts == Selected(config, filter);
    var refs := HostTrackingRefs(repo, configHosts.Keys);
    if refs.Err? {
      return Err(Store(refs.error));
    }
    var hostRefs := refs.value;
    var unsynced := configHosts.Keys - hostRefs.Keys;
    if unsynced != {} {
      var u :| u in unsynced;
      assert repo.Tracked(u).None?;
      return Err(UnsyncedHosts(unsynced));
    }
    var hosts: map<Name, HostReapply> := map[];
    var rest := configHosts.Keys;
    while rest != {}
      invariant rest <= configHosts.Keys && hosts.Keys == configHosts.Keys - rest
      invariant forall h :: h in hosts ==> Reappliable(repo, h) && IsReapply(repo, h, hosts[h])
      decreases rest
    {
      var host :| host in rest;
      assert host !in unsynced;
      var reapply :- ReapplyOf(repo, host, hostRefs[host]);
      hosts := hosts[host := reapply];
      rest := rest - {host};
    }
    return Ok(hosts);
  }

  /** The tracked commits' entries for these hosts were built from config directories. */
  ghost predicate CanonicallyTracked(repo: Repo, hs: set<Name>) {
    forall h :: h in hs && repo.Tracked(h).Some? ==> CanonicalHost(repo.Tracked(h).value.hostTree)
  }

  /**
    On canonical trees all three commands pick the same hosts: a host needs a
    deploy, and is synced by `sync --changed`, exactly when its status is not
    up to date; a known host that is planned has an app that differs.
   */
  lemma {:induction false} CommandsAgree(repo: Repo, d: Disk, h: Name)
    requires d.Folder? && h in Built(d, 0).entries
    requires CanonicallyTracked(repo, {h})
    ensures var target := Built(d, 0).entries[h];
            && (NeedsDeploy(repo, h, target) <==>
                  !(repo.Tracked(h).Some? && TrackedApps(repo, h) == TreeEntries(target)))
            && (NeedsDeploy(repo, h, target) && repo.Tracked(h).Some? ==>
                  exists a :: Differs(TrackedApps(repo, h), TreeEntries(target), a))
  {
    var target := Built(d, 0).entries[h];
    BuiltHostsCanonical(d, h);
    if repo.Tracked(h).Some? {
      assert h in {h};
      CanonicalByApps(repo.Tracked(h).value.hostTree, target);
      if TrackedApps(repo, h) != TreeEntries(target) {
        SomeAppDiffers(TrackedApps(repo, h), TreeEntries(target));
      }
    }
  }

  lemma SomeAppDiffers(current: Apps, target: Apps)
    requires current != target
    ensures exists a :: Differs(current, target, a)
  {
    if current.Keys == target.Keys {
      assert exists a :: a in current && current[a] != target[a];
      var a :| a in current && current[a] != target[a];
      assert Differs(current, target, a);
    } else {
      assert exists a :: (a in current) != (a in target);
      var a :| (a in current) != (a in target);
      assert Differs(current, target, a);
    }
  }
}
