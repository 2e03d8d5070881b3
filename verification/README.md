# A verified model of Deptool

Deptool deploys configuration to a cluster: drivers push Git commits to host
agents, an agent applies the difference to its host, may roll it back, and
records its progress in two refs, `current` and `target`. This project models
that logic and proves what it keeps, in four connected parts.

**The cluster protocol** (`Protocol`, `Runs`, `Agent`, `AgentRuns`,
`Deployment`, `Exchange`, on top of `Planner` and `History`). A cluster is hosts
with object stores and refs, drivers with stores and tracking refs, and open
sessions. One step is one action of one participant, so any number of drivers
and sessions interleave, and a session can end after any step. The agent drops
the lock and exits before the driver moves its tracking ref, so others may
lock, deploy or wipe in between. `Protocol.Inv` is kept by every step, and the
main results are about every state of every run: the run-time assertions of the
agent, honest tracking refs, complete stores after a fetch, forward progress.
`Runs` builds concrete runs from empty stores. `Agent.AgentSession` is the agent
as an object with mutable refs and a mutable filesystem; every change it makes
to its refs is recorded as a step of the protocol, and cut up in any way by the
steps of others its record is a run of the cluster (`AgentRuns.AgentKeepsInv`).
`Deployment` is the driver's side with its progress states and tracking refs,
and `Exchange` puts the two sides together.

**Applying and rolling back on a filesystem** (`Filesystem`, `ManagedLinks`,
`ManifestLinks`, `Checkout`, `Commands`, `HostApply`, `HostState`, `Recovery`,
`Reach`, `Retarget`, `Obstacles`). The filesystem is an object with primitive
operations, each of which can fail for reasons of its own; ghost fields count
these faults, and among them the reads of version links, so that a contract can
say when an operation succeeds and what a failed read costs. Another one records
what each activation did: links, managed directories and commands, in their
order and with their outcomes. A crash is a failure after which nothing else
succeeds. The loops that prune, create, collect, reconcile,
rotate and collect garbage are methods with invariants, and `Recovery` composes
what they leave behind into statements about whole deploys: one that completes,
one that is rolled back, any number that are interrupted, and sequences of them.
`Reach` follows the links of a host at a commit to the files of its apps.
`Retarget` is about deploying another tree after an interrupted attempt, and
`Obstacles` about what can keep a rollback from succeeding: nothing that the
deploy left behind.

**Diffs, plans and trees** (`Paths`, `Trees`, `Plan`, `Desired`, `LinkStrings`,
`ConfigTree`, `Planner`, `History`). A tree is a recursive datatype and serves as its own
object id; commits form an append-only graph with a rank.

**The unit-activation poll loop** (`Activation`), over an arbitrary stream of
polls, with its termination measure. An activation runs it over the next such
stream of its host, and its answer is that of the activation.

## What turned out otherwise than documented

The model follows the code. Each of these is stated by a member of the project.

- A reapply *can* trip the agent's assertion on its target ref, against the
  comment at `src/agent.rs:454-457`: the driver refuses diverged hosts by a
  greeting that was sent before the lock. `Protocol.ReapplyAnswer` says exactly
  when, `Protocol.ReapplyAssertionCanFire` extends any racing state to a run
  that ends there, and `Runs.ReapplyAssertionFires` is such a run from empty
  stores.
- A host that was wiped and deployed to by another driver keeps a driver stuck,
  against the intent at `src/deploy.rs:580-586`: the fetch asks for a packfile
  relative to a commit that the host no longer has, so it fails, and the
  tracking ref that causes this stays. `Protocol.FetchRefused` says exactly
  when, `Runs.FetchRefusalHappens` is such a run from empty stores, and
  `Protocol.RefusedAgain` says how long it lasts: as long as the host's store
  lacks the commit and no session of this driver moves the ref.
- Validation compares link targets as strings, the host as paths. `/x` and
  `//x` pass it and collide (`Desired.ValidationComparesStrings`); a link is
  lost exactly when two declarations of one path disagree on its source
  (`Desired.NoLinkLost`). Dropping one of two spellings takes the link away
  although the other is still declared (`Desired.SpellingDropped`,
  `Desired.LinkChangesConverge` for exactly when). And any path inside a managed
  directory has a spelling that validation accepts
  (`LinkStrings.EveryPathIsAccepted`), with which a valid host has no state at
  all that is at its commit (`LinkStrings.ValidWithoutState`). The results about
  deploys therefore take `LinksPlaced` of the commit that they arrive at: the
  declarations of each path agree on its source, and no link is inside a managed
  directory. For a valid host with plainly spelled targets that always holds
  (`LinkStrings.PlainLinksPlaced`).
- Validation accepts links at or above a managed directory
  (`LinkStrings.ValidAtOrAbove`). A deploy of such a link cannot complete, since
  reconciling that directory has to enter it (`LinkStrings.LinkAbove`), and it
  fails without a rollback, since adding a link is not rollback-safe. This is
  exact for a link to a file. Where the link leads to a directory, the operating
  system would follow it, see below.
- Collecting garbage drops a failing read of `current` or `previous`
  (`src/checkout.rs:145-150`) and then removes the version that the link names.
  What a collection keeps is every named version exactly when it read the link
  of each that exists (`Checkout.GatheredKeeps`), and the results about completed
  deploys that collect garbage are about collections without such a failure.
- A deploy of a different tree after one that failed and was not rolled back
  need not arrive at its tree, since its diff is from `current`. For apps it
  does, wherever the attempt stopped, exactly when every app that the attempt
  changes is changed by it too (`Retarget.OtherAppsLand`), and likewise for
  manifest links (`Retarget.OtherLinksLand`).
- Validation does not ask that no app has a file where another app has a
  directory; such a host validates, and can never be reconciled
  (`HostState.PrefixFreeIff`, `HostState.ValidHostMayNotReconcile`).
- `verify_managed` keeps symlinks that point elsewhere, as documented at
  `src/checkout.rs:397-400`, but lets a regular file at the link's path pass,
  which is then removed (`ManifestLinks.OwnFileIsRemoved`;
  `ManifestLinks.RemovedExactly` for exactly what is taken away).

## Model

| member | source | states |
|---|---|---|
| `Paths.SplitOfJoin` | src/store.rs:357-381 | splitting the slash-joined string of a relative path at its slashes gives back its components |
| `Paths.ToPathOfJoin` | src/plan.rs:118-134 | reading a joined path string as a path is the inverse of joining it |
| `Paths.JoinInjective` | src/store.rs:387-406 | two different relative paths never join to the same string, so file names kept as strings lose nothing |
| `Paths.ToPathForms` | src/checkout.rs:405-426 | reading a path string keeps its root and a leading "." component, and nothing else is added |
| `Paths.StartsWithIff` | src/checkout.rs:544-558 | a path starts with exactly the paths that it continues, itself included |
| `Paths.BelowByString` | src/store.rs:580-597 | for proper paths, "the string starts with the directory and a slash" is being strictly inside that directory |
| `Trees.BlobPathsAreBlobs` | src/store.rs:357-381 | the collected set has a path exactly when following it down the tree ends in a blob |
| `Trees.BlobPathsPrefixFree` | src/store.rs:334-350 | within one tree no blob's path leads through another blob |
| `Trees.BlobNamesDistinct` | src/store.rs:357-381 | in a proper tree different blobs have different collected strings, so that a set of paths models the set of names |
| `Trees.BlobCollector.CollectBlobs` | src/store.rs:357-381 | the shared prefix buffer is restored, and exactly the prefixed paths of all blobs are added, for any tree |
| `Trees.CollectSubdir` | src/store.rs:340-350 | the names are exactly the relative paths of the blobs below the subdirectory; an error exactly when the entry is a blob |
| `Trees.ManifestRead` | src/store.rs:613-621 | a manifest is what the blob `manifest.json` parses to, and empty if there is none; anything else is an error |
| `Plan.DiffApps` | src/plan.rs:391-427 | one entry for exactly the apps that differ, of the kind and with the trees that the two sides have |
| `Plan.DiffsCarryOver` | src/plan.rs:391-427 | applying the diffs to the current apps gives the target apps, and the diff is determined by its two sides |
| `Plan.DiffSubdir` | src/plan.rs:432-445 | links are the files only the new tree has, unlinks those only the old one has; an error exactly when one side cannot be read |
| `Plan.LinkImpliesContentChanged` | src/plan.rs:198-204 | a file linked or unlinked implies that the content changed |
| `Plan.DiffSymlinks` | src/plan.rs:364-388 | created, changed and removed links split the two sides, each listed once |
| `Plan.DiffEnabled` | src/plan.rs:291-306 | enable, restart and disable are the three parts of the two unit sets, each listed once |
| `Plan.ComputeSystemDiff` | src/plan.rs:452-470 | the system diff describes the change between the app's two trees; it fails exactly when a manifest or subdirectory of either cannot be read |
| `Plan.SafeVerdict` | src/plan.rs:90-105 | a system diff is rollback-safe exactly when every file, link and enabled unit after the change was there before |
| `Plan.AggregateDiffs` | src/plan.rs:499-503 | appending the resolved per-app diffs, in any order, yields exactly the union of what the changed apps ask for |
| `Plan.DiffHost` | src/plan.rs:481-506 | diffs and aggregate describe the change between the host's entries in two commits; fails exactly when something that the diff reads cannot be read |
| `Plan.PlanApps` | src/plan.rs:596-604 | the driver's per-app plans cover exactly the apps that differ, with the conjunction of their verdicts |
| `Plan.AggregateVerdict` | src/plan.rs:90-115 | the aggregate is rollback-safe exactly when every changed app's trees are |
| `Plan.PlansVerdict` | src/plan.rs:596-604 | the driver's conjunction is true exactly when every changed app's trees are rollback-safe |
| `Plan.VerdictsAgree` | src/agent.rs:439-443 | driver and agent always agree on rollback safety, for all trees and any number of apps |
| `Desired.ValidateAppManifests` | src/store.rs:516-608 | accepts a host exactly when every manifest is acceptable and no file name and no link target is shared by two apps, whatever the order; a readable host is refused as an invalid configuration |
| `Desired.ClaimFiles` | src/store.rs:523-566 | claiming succeeds exactly when none of the files is owned yet |
| `Desired.ClaimLinks` | src/store.rs:567-604 | claiming an app's links succeeds exactly when they are acceptable, their sources exist and none is owned |
| `Desired.ValidSource` | src/store.rs:567-604 | a validated link's source, joined to the app's directory, lies inside it: an absolute one, which joining would put in place of the directory, is never accepted |
| `Desired.AbsoluteSource` | src/store.rs:567-604 | an absolute source would take the place of the app's directory; a manifest that declares one is refused |
| `Desired.DesiredSubdirSymlinks` | src/store.rs:387-406 | every file of any app gets a link to an app that has it; for a valid host no insert overwrites another |
| `Desired.DesiredSubdirIsUnion` | src/store.rs:387-406 | for a valid host the result is the disjoint union of the per-app links |
| `Desired.DesiredSymlinks` | src/store.rs:486-503 | every declared link, with the source that one of its declarations gives it; an error exactly when a manifest cannot be read |
| `Desired.NoLinkLost` | src/store.rs:486-503 | every declaration keeps its own source, whatever the order of insertion, exactly when declarations of one path agree on its source |
| `Desired.ValidationComparesStrings` | src/store.rs:599-604 | a valid host whose two links, spelled differently, are one path, so that one of them is lost |
| `LinkStrings.PlainOutside` | src/store.rs:567-597 | a plainly spelled target is accepted exactly when its path is not inside a managed directory |
| `LinkStrings.PlainLeading` | src/store.rs:580-597 | a plainly spelled target is at or above a managed directory as a string exactly when it is as a path |
| `LinkStrings.AcceptedTargets` | src/store.rs:567-589 | accepted link targets are exactly the absolute paths whose strings do not continue that of a managed directory |
| `LinkStrings.PlainLinksPlaced` | src/store.rs:516-608 | with plainly spelled targets a valid host has links distinct as paths, whose sources agree, and none inside a managed directory |
| `LinkStrings.EveryPathIsAccepted` | src/store.rs:580-597 | every path, also one inside a managed directory, has a spelling that validation accepts |
| `LinkStrings.NameInside` | src/store.rs:580-597 | any name in a managed directory is refused in its plain spelling and accepted, as the same path, with a second leading slash |
| `LinkStrings.ValidAtOrAbove` | src/store.rs:580-597 | every plainly spelled target at or above a managed directory is accepted, on a valid host whose links are otherwise placed as the results about deploys ask |
| `LinkStrings.LinkAbove` | src/checkout.rs:355-361 | no deploy of a commit with such a link, its links otherwise placed and none stranded, ever completes from a state that is at its old commit |
| `LinkStrings.LinkInside` | src/store.rs:574-579 | on a host whose links and managed directories are both as a commit asks, a link inside a managed directory has the name of a file that an app links there |
| `LinkStrings.ValidWithoutState` | src/store.rs:574-597 | for every path inside a managed directory there is a valid host that no state of the filesystem can be at |
| `Desired.LinkChangesConverge` | src/plan.rs:364-388 | the link changes of the changed apps alone, run as removes, changes, creates on the old links, give the links computed from scratch exactly when the new declarations of each path agree and no path keeps some of its declarations unchanged while it loses others |
| `Desired.DistinctNotStranded` | src/plan.rs:364-388 | no path is so lost if the old commit spells each path once |
| `Desired.SpellingDropped` | src/plan.rs:364-388 | two valid commits between which such a path is lost |
| `ConfigTree.BuildTreeRecursive` | src/store.rs:702-758 | builds exactly the canonical tree of a directory; fails exactly when something in it is neither file nor directory |
| `ConfigTree.BuiltBlobs` | src/store.rs:702-758 | exactly the files at least three levels deep become blobs, with their contents |
| `ConfigTree.FullTreesByBlobs` | src/store.rs:702-758 | trees without empty subtrees are determined by their blobs |
| `ConfigTree.SameTreeIffSameFiles` | src/store.rs:702-758 | two config directories build the same tree exactly when they have the same hosts and the same files inside apps |
| `ConfigTree.BuiltHostsCanonical` | src/store.rs:702-758 | a built host entry consists of non-empty app trees only |
| `ConfigTree.CanonicalByApps` | src/plan.rs:584-594 | canonical host entries differ exactly when their apps differ |
| `History.ReachesTransitive` | src/agent.rs:429-437 | ancestry in a commit graph is transitive |
| `History.ClosedHolds` | src/store.rs:307-327 | a store closed under parents holds everything that its commits reach |
| `History.PackCompletes` | src/store.rs:307-327 | a closed store that has the `have` commits stays closed with a packfile of `want` without them, and then holds everything `want` reaches |
| `History.Frontier` | src/store.rs:231-249 | sorted, without duplicates, and exactly the commits of the input that no other one descends from |
| `History.FrontierIsMinimalCover` | src/store.rs:231-249 | the frontier is an antichain that covers the input, is contained in every cover, and is the only antichain that covers |
| `History.SortedUnique` | src/store.rs:231-249 | the sorted output is determined by its elements, so order and repetition of the input do not matter |
| `Planner.HostTrackingRefs` | src/store.rs:205-227 | the tracked hosts whose commit has an entry for them; an error exactly when a tracking ref dangles |
| `Planner.ApplyFilter` | src/plan.rs:544-559 | keeps exactly the limited hosts; an error with exactly the unknown names |
| `Planner.Validate` | src/store.rs:506-513 | accepts a config tree exactly when every host in it is valid |
| `Planner.PlanHost` | src/plan.rs:585-612 | expects the tracked commit, and plans the change from the tracked apps; fails exactly when one of the trees that it reads cannot be read |
| `Planner.MakePlan` | src/plan.rs:569-626 | plans exactly the selected hosts whose entry differs, on the frontier of their expected commits; `None` exactly when none differs; fails exactly when the config is invalid, a name unknown, a ref dangling or a needed manifest unreadable |
| `Planner.ComputeStatus` | src/status.rs:41-81 | up to date exactly when the tracked apps are the config's apps; otherwise exactly the apps that differ |
| `Planner.SelectHostsToSync` | src/sync.rs:41-68 | all hosts, or exactly those whose entry differs, each with the commit that a plan would expect |
| `Planner.SelectHostsToReapply` | src/reapply.rs:49-87 | every selected host at its tracked commit with the units that its apps enable there; an error that names exactly the untracked hosts |
| `Planner.CommandsAgree` | src/plan.rs:584-594 | on canonical trees, plan, `status` and `sync --changed` pick the same hosts, and a known host is planned only if some app differs |
| `Protocol.TreesAreBuilt` | src/store.rs:702-758 | in every state of every run each commit's tree is the canonical one of some directory |
| `Protocol.CommandsAgreeInRuns` | src/plan.rs:584-594 | so in every run, for any driver and any directory to plan, the three commands pick the same hosts, and a known one only if some app differs |
| `Protocol.PlanCommitDescends` | src/plan.rs:728-735 | a finalized plan's commit is a strict descendant of every commit that it expects a host to be at |
| `Protocol.PlanKeeps` | src/plan.rs:569-626 | planning keeps the run invariant: graph, verdicts and expected commits of the new plan included |
| `Protocol.ReceiveKeeps` | src/agent.rs:319-329 | a locked host that writes the packfile for its expected commit has the plan's commit and everything below it |
| `Protocol.SendKeeps` | src/agent.rs:341-357 | a packfile of the host's newest commit completes the driver's store and holds the reported commit, however far the host has advanced |
| `Protocol.PrepareDeployAnswer` | src/agent.rs:428-443 | with a finalized plan and the lock neither assertion of a deploy fires |
| `Protocol.StepKeepsInv` | src/agent.rs:331-390 | every step of every participant keeps the run invariant |
| `Protocol.RunKeepsInv` | src/agent.rs:331-390 | the run invariant holds in every state of every run from empty stores |
| `Protocol.OnlyTheLockMovesRefs` | src/agent.rs:231-317 | at most one session per host is locked, and no other session's step changes the host |
| `Protocol.SessionOutlivesWipe` | src/main.rs:1200-1209 | what is left of a session whose agent has exited does not depend on the host's store or refs |
| `Protocol.CurrentOnlyDescends` | src/agent.rs:538-544 | between wipes `current` stays or moves to a strict descendant of itself, over any stretch of any run |
| `Protocol.PastWasCurrent` | src/agent.rs:538-544 | whatever is recorded as a past commit of a host was its `current` at an earlier state of the run |
| `Protocol.TrackingRefsAreHonest` | src/sync.rs:141-187 | a tracking ref never dangles, its whole ancestry is in the driver's store, and its commit was that host's `current` at some earlier time |
| `Protocol.AssertionsHold` | src/agent.rs:429-468 | in no run does an assertion of the agent fire, except the one on a reapply's target ref |
| `Protocol.ReapplyAnswer` | src/agent.rs:453-468 | that one fires exactly when the host's target ref has diverged; a reapply that passes has both refs at the requested commit |
| `Protocol.ReapplyAssertionCanFire` | src/reapply.rs:124-137 | from any state where a reapply connected while a deploy was in flight there is a run in which it fires |
| `Runs.DeployGoesThrough` | src/deploy.rs:587-630 | a plan whose host is at the expected commit and not locked can be run to its end from any reachable state: no check or assertion is in the way, and both refs and the tracking ref end at its commit |
| `Runs.ReapplyAssertionFires` | src/reapply.rs:124-137 | from empty stores a run reaches a state in which it has fired |
| `Protocol.RefDiscipline` | src/agent.rs:445-451 | whenever `current` is set, `target` is set, to the same commit or a strict descendant |
| `Protocol.ApplyRefs` | src/agent.rs:534-565 | when an apply completes both refs are at its commit; a reapply past its checks moves neither |
| `Protocol.NoWipesLine` | src/agent.rs:538-544 | a host that is never wiped has in its line all commits it was ever at |
| `Protocol.StaleFetchCompletes` | src/sync.rs:141-187 | if the driver's `have` commit was on the host's line at some state and the host was not wiped since, a request for objects is answered; the driver's store with what is sent holds the reported commit and stays closed under ancestry |
| `Protocol.UnwipedFetchCompletes` | src/sync.rs:141-187 | a host that was never wiped answers every request for objects |
| `Protocol.StaleFetchTeaches` | src/sync.rs:141-187 | a stale fetch that succeeds leaves the tracking ref at the reported commit, or gone for a wiped host |
| `Protocol.NextPlanExpectsReported` | src/deploy.rs:574-608 | the next plan omits such a host or expects exactly what it reported, and the lock then finds it stale exactly when its `current` has moved since |
| `Protocol.FetchRefused` | src/agent.rs:341-357 | a request for objects is refused exactly when the host lacks the driver's tracked commit, which takes a wipe, and leaves the driver as it was |
| `Protocol.RefusedAgain` | src/deploy.rs:580-586 | over any stretch of a run in which none of the driver's sessions moves the ref, every plan and connection expects that commit again, and every request for objects is refused again while the host lacks it |
| `Runs.FetchRefusalHappens` | src/deploy.rs:580-586 | from empty stores a run reaches a refused request for objects that leaves the driver as it was |
| `Activation.AwaitUnits` | src/main.rs:879-966 | terminates if all jobs do, at the first poll that is unreadable, or sees a unit failed, or finds all jobs done with every unit up or the deadline ten seconds past the last finished job; the answer lists exactly the units that failed in it. Failed and up are said of the status fields: load state, result and restart count against the status read right after the job, active state and settle window. Every poll before the last is announced with exactly the units that were not up in it |
| `Activation.UnitPolled` | src/main.rs:908-945 | one poll of one unit: its baseline is the first status read after its job ended; it is judged broken exactly if its fields say failed against that, and waited for exactly if they do not say up either |
| `Activation.DecidedAt` | src/main.rs:945-996 | whether the units come up is decided by the first poll that ends the wait, and then for good |
| `Activation.EarlyDeadline` | src/main.rs:879-900 | every poll but the last was before ten seconds after the last finished job |
| `Activation.LastReapAt` | src/main.rs:894-900 | once all jobs are done the deadline is ten seconds after the last of them |
| `Filesystem.OnlyDirsHaveEntries` | src/checkout.rs:593-635 | whatever has something below it is a directory |
| `Filesystem.HostFs.CreateDirAll` | src/checkout.rs:343-345 | on success exactly the missing directories are added; on failure a leading part of them; it fails only by a failing primitive or something other than a directory on the way |
| `ManagedLinks.CollectManaged` | src/checkout.rs:587-635 | collects exactly the symlinks through `current` at any depth, by relative name; symlinks are leaves, whatever they point at; an error only from a failing primitive or a root at or below something that is not a directory |
| `ManagedLinks.ThroughCurrentIff` | src/checkout.rs:570-578 | a symlink counts as managed exactly if its target is at or below some app's `current` |
| `ManagedLinks.PruneEmptyDirs` | src/checkout.rs:304-319 | removes directories from the given one upwards; without faults it stops only at the root or at a level that is not an empty directory, and all levels below that are gone |
| `ManagedLinks.PrunedWereEmpty` | src/checkout.rs:304-319 | a directory that is gone after reconciling led to a managed link that is not desired, and held nothing that had to be kept |
| `ManagedLinks.CreateManagedDir` | src/checkout.rs:282-297 | on success every directory down to the given one exists; only missing ones below the root were added |
| `ManagedLinks.ReconcileManagedSymlinks` | src/checkout.rs:234-272 | on success collecting again yields exactly the desired map, and nothing but directories was on the way to the root; success or not, nothing changes below the root but managed links, desired names, directories to them and emptied directories that led to undesired links; it succeeds if no primitive fails, the desired names are prefix-free and nothing unmanaged is in their way; and then no directory that led to an undesired managed link is left empty |
| `ManagedLinks.StillUnobstructedByLinks` | src/checkout.rs:234-272 | wherever reconciling stops, it has put nothing in the way of a desired map that includes the names of its own |
| `ManifestLinks.SameContents` | src/checkout.rs:505-541 | comparing two files of equal length chunk by chunk answers whether they are equal |
| `ManifestLinks.ClassifyLink` | src/checkout.rs:505-541 | recognises its own link, directories, and files with or without the source's contents |
| `ManifestLinks.CreateSymlink` | src/checkout.rs:438-485 | on success the link is there and nothing else changed; only a symlink or a file identical to the source is ever replaced; without faults it succeeds where the link, such a file, or nothing but a directory to put it in is there |
| `ManifestLinks.TakeAway` | src/checkout.rs:405-426 | takes away a link into the apps directory or a regular file and nothing else; fails only for another node or a failing primitive |
| `ManifestLinks.RemoveLinks` | src/checkout.rs:405-412 | whatever is gone was a removed path with a link into the apps directory or a regular file; if no primitive fails the pass succeeds exactly when there is nothing else at its paths |
| `ManifestLinks.ChangeLinks` | src/checkout.rs:413-420 | the same for the change pass, whose missing links need a directory to be put in |
| `ManifestLinks.CreateLinks` | src/checkout.rs:421-426 | the create pass replaces only symlinks, and files identical to the source |
| `ManifestLinks.ReconcileConfigSymlinks` | src/checkout.rs:405-426 | on success exactly the removes, changes and creates are done, and no removed or changed path held anything foreign; success or not, only named paths differ, and whatever was there and is gone or different was a link into the apps directory or a regular file on removes and changes, a link or a file identical to the source on creates; it succeeds if no primitive fails and each pass meets only what it may replace |
| `ManifestLinks.RemovedExactly` | src/checkout.rs:544-558 | the remove pass gets through a path exactly when neither a directory nor a link that points outside the apps directory is there, and then takes away what is |
| `ManifestLinks.OwnFileIsRemoved` | src/checkout.rs:397-400 | an operator's own regular file at a removed path passes the guard and is taken away |
| `ManifestLinks.DiffSourcesInside` | src/plan.rs:118-134 | for a valid target, the sources of a diff's links are inside the apps directory, so a changed link is recognised the next time |
| `ManifestLinks.LinksRunAt` | src/checkout.rs:405-426 | what the three passes make of one path: created, else changed, else removed, else untouched |
| `ManifestLinks.LinksConverge` | src/checkout.rs:405-426 | on the filesystem, the old commit's links become exactly the new commit's, dropped ones are gone, and no other path changes, under exactly the condition of `Desired.LinkChangesConverge` |
| `ManifestLinks.PartlyTransitive` | src/checkout.rs:405-426 | interrupted attempts at the same changes add up to one |
| `ManifestLinks.RetryConverges` | src/checkout.rs:405-485 | after any interrupted attempt, running the same changes again ends in the tree that a single attempt would have left |
| `ManifestLinks.LinksRollBack` | src/agent.rs:600-630 | however much of a rollback-safe change of links was done, the changes back leave the tree exactly as it was; all it asks is that the old declarations of each path agree |
| `Checkout.CheckoutApp` | src/checkout.rs:53-101 | on success exactly the new version with the links rotated, or left alone when `current` is there already; otherwise a state from which a rerun recovers |
| `Checkout.RotateLinks` | src/checkout.rs:82-98 | `current` is the new version and `previous` what `current` was; a failure leaves the links before, between or after the rotation; each step is one symlink, removal or rename, which fails where the operating system has it fail |
| `Checkout.InterruptedTransitive` | src/checkout.rs:53-101 | interrupted checkouts of one version add up to one |
| `Checkout.RerunCheckout` | src/checkout.rs:65-101 | a fresh checkout interrupted after any step and rerun ends with the same versions, `current` and `previous` as an uninterrupted one |
| `Checkout.RerunManyCheckouts` | src/checkout.rs:65-101 | the same for any number of interruptions |
| `Checkout.RemoveApp` | src/checkout.rs:104-110 | on success the app is gone, and no other app changes either way |
| `Checkout.GcAppDir` | src/checkout.rs:145-182 | links stay, and so do the versions that a link was read to name, which are all named ones if no such read failed; when all removals succeed exactly those versions stay; otherwise it is a collection with those removals failed |
| `Checkout.GatheredKeeps` | src/checkout.rs:145-150 | a collection keeps every named version exactly when it has read the link of each that exists |
| `Checkout.CheckoutKeepsHealthy` | src/checkout.rs:65-101 | a checkout leaves `current` and `previous` distinct and naming existing versions |
| `Checkout.CrashFreeRuns` | src/checkout.rs:145-182 | over any crash-free sequence of checkouts and collections, whichever removals fail, they stay so, and a collection that can remove everything leaves exactly the versions that they name |
| `Checkout.InstalledStays` | src/checkout.rs:145-182 | what an app was last installed with stays behind `current` through any number of collections, whichever removals fail |
| `HostState.FramedInArea` | src/checkout.rs:234-272 | reconciling one managed directory changes nothing outside the managed directories but adding directories that lead to them |
| `HostState.OtherRootsKeepLinks` | src/main.rs:680-790 | reconciling one managed directory leaves the managed links of the others as they are |
| `HostState.DesiredGoesThroughCurrent` | src/store.rs:387-406 | desired links go through `current`, so the next reconcile recognises them as managed |
| `HostState.DesiredUnique` | src/agent.rs:475-490 | a valid host has one desired state, whatever the order in which it was computed |
| `HostState.PrefixFreeIff` | src/checkout.rs:234-272 | desired names are prefix-free, as reconciling needs, exactly when no app's file lies where another app needs a directory |
| `HostState.ValidHostMayNotReconcile` | src/store.rs:516-608 | a host that validation accepts and whose units can never be reconciled |
| `Reach.FileReached` | src/store.rs:387-406 | the target of a desired link resolves, through `current`, to the blob in the app's tree that the link is named after |
| `Reach.ResolvesThrough` | src/store.rs:387-406 | a path resolves to something exactly if it goes through the `current` of an app whose current version has that below it |
| `Reach.ManagedLinksLead` | src/checkout.rs:234-272 | on a host at a commit there is a managed link exactly for each file of an app, and it resolves to that file |
| `Reach.AcceptedSources` | src/store.rs:590-597 | validation accepts exactly the sources that spell a path to something in the app's tree, with a trailing slash only to a tree |
| `Reach.SourceReached` | src/plan.rs:118-134 | the source of a valid manifest link resolves to what its declaration names |
| `Reach.ManifestLinksLead` | src/checkout.rs:405-426 | on a host at a valid commit every manifest link resolves to a source that an app declares for it |
| `Reach.HoldsBlob` | src/store.rs:590-597 | in a tree without empty subtrees such a source is a blob or holds one |
| `HostState.FreshCheckoutArrives` | src/checkout.rs:197-227 | checking out the changed apps takes the host from the old commit's apps to the new commit's, also over the remains of interrupted attempts |
| `HostState.ReuseCheckoutRestores` | src/checkout.rs:53-80 | a checkout that reuses complete version directories restores every app of the old commit |
| `HostState.RetriedTree` | src/checkout.rs:405-426 | a retry leaves, outside the managed directories, the same tree as a single attempt, but for directories that lead to managed ones |
| `HostState.RolledBackTree` | src/agent.rs:600-645 | a completed rollback leaves everything outside the managed directories as it was before the deploy, whatever links the commit had that is rolled back |
| `HostState.DeployedLinks` | src/checkout.rs:405-426 | a completed deploy has exactly the new commit's manifest links, and none that only the old one declared outside the managed directories |
| `HostState.SparedKeepsForeign` | src/checkout.rs:397-400 | outside the managed directories link changes leave every directory, and every link that points outside the apps directory where none is removed or created |
| `HostApply.CheckoutHost` | src/checkout.rs:197-227 | in any order, on success every changed app is checked out or removed and no other app changes; otherwise a primitive failed, and every app is in a state from which a rerun recovers |
| `HostApply.RerunApps` | src/checkout.rs:197-227 | a host checkout interrupted anywhere and rerun ends with the same app directories as an uninterrupted one |
| `HostApply.InterruptedAppsTransitive` | src/checkout.rs:197-227 | interrupted host checkouts of one commit add up to one |
| `HostApply.GcOldCheckouts` | src/checkout.rs:117-143 | no app and no link is lost, nor a named version unless reading its link failed; when all removals succeed no version is left that is not named |
| `HostApply.CollectedKeepsApps` | src/checkout.rs:117-143 | collecting garbage leaves every app's content as it is, also when removals fail half-way |
| `HostApply.DesiredStateOf` | src/agent.rs:475-490 | the desired links of all four managed directories; an error exactly when a subdirectory cannot be read |
| `HostApply.ReconcileSubdir` | src/main.rs:684-795 | one managed directory gets its desired links, those already done keep theirs; without faults it succeeds where nothing is in its way, and wherever it stops it puts nothing in the way of the others, or of desired links that include its own |
| `HostApply.ActivateUnits` | src/main.rs:766-877 | disables, reconciles, enables exactly the newly enabled and the restarted units, reloads and starts them, in this order up to the first action that fails and may not; the answer is whether there is none and the units came up; whatever links `disable` and `enable` remove or add, the unit links come out as desired |
| `HostApply.StartUnits` | src/main.rs:832-877 | every unit is started, or restarted for a deploy, in order before any is waited for; a job that cannot be started ends it; the answer is how the wait came out |
| `HostApply.ReloadNeeded` | src/main.rs:818-830 | systemd is reloaded exactly if a quadlet or a unit is desired, or some unit is enabled, restarted or disabled |
| `HostApply.Activate` | src/main.rs:654-998 | the planned actions are done in their order up to the first one that fails and may not, networkctl and systemd-sysusers exactly if their files changed; the answer is whether there is none, so on success every one of these succeeded and the wait for the units found all of them up; and then all link changes are done and every managed directory is as desired. Stopped anywhere, the links are part-way done and only the managed directories differ besides, with room for any desired links that include the new names; it succeeds if no primitive and no such action fails and nothing is in the way |
| `HostApply.EnableStillRuns` | src/main.rs:780-830 | what `systemctl enable` writes is in the way of no desired unit link at or above which it writes nothing |
| `Recovery.ChangeUnique` | src/plan.rs:481-506 | a host diff is determined by its two sides, up to the order of its lists |
| `Recovery.BackTouches` | src/agent.rs:605-611 | the diff back touches no app and no link that the diff there did not |
| `Recovery.BackIsPartOfAttempt` | src/agent.rs:600-645 | a rollback that stops anywhere leaves a state that an interrupted deploy could have left |
| `Recovery.DeployCompletes` | src/agent.rs:494-566 | a completed deploy takes a host exactly from the old commit to the new one: apps, managed links, manifest links, and dropped links are gone; it asks that the new links are placed and none is stranded |
| `Recovery.ReapplyRepairs` | src/agent.rs:409-417 | a completed reapply restores every app, link and managed directory of the commit from any state of the host |
| `Recovery.RollbackRestores` | src/agent.rs:494-645 | a rollback-safe deploy whose activation fails at any point and whose rollback completes leaves the old commit's apps, managed links and manifest links, and nothing else changed outside the managed directories; it asks nothing of the commit that failed |
| `Recovery.AttemptsAddUp` | src/agent.rs:393-566 | any number of interrupted attempts at one host tree, under any commits, add up to one |
| `Recovery.RetriesConverge` | src/agent.rs:393-566 | any number of interrupted attempts and then one that completes, against one uninterrupted deploy with the same host tree: same app contents, same managed links, same tree around them; and the host is at the new commit |
| `Retarget.OtherAppsLand` | src/agent.rs:393-566 | wherever a first deploy stopped, a second one from the same commit that completes arrives at its apps exactly when it changes every app that the first one changes |
| `Retarget.OtherLinksLand` | src/checkout.rs:405-426 | and its links end as if nothing had been done before exactly when it touches every link that the first one touches |
| `Retarget.OtherTreeArrives` | src/agent.rs:393-566 | if both are so, the host is at the second commit: apps, manifest links and managed directories |
| `Recovery.RoundStands` | src/agent.rs:494-645 | after one deploy the host is at the new commit if it completed and at the old one if it was rolled back, and everything that a later rollback relies on holds again; a commit that is rolled back is any commit |
| `Recovery.RoundsStand` | src/agent.rs:494-645 | over any sequence of completed and rolled-back deploys the host stays exactly at the commit of the last completed one |
| `Agent.AppliedIsRound` | src/agent.rs:494-645 | what the agent leaves on disk when an apply completes or is rolled back is such a round |
| `Obstacles.PresentRuns` | src/checkout.rs:234-272 | where the managed links of a commit are all there, nothing is in the way of making them |
| `Obstacles.BackRuns` | src/checkout.rs:405-426 | wherever a rollback-safe deploy from the old commit's links stopped, all three passes of the changes back get through, and leave what leads to managed directories alone |
| `Obstacles.RollbackClear` | src/agent.rs:600-645 | on a host at a valid commit whose managed links can be made and none of whose unit files lies where `systemctl enable` writes, a rollback-safe deploy that stops anywhere leaves nothing in the way of its rollback: neither for the links nor for any managed directory |
| `Obstacles.DeployedRescuable` | src/agent.rs:494-566 | a valid commit's host whose links and managed links are all there and whose managed directories can be entered, as a completed deploy leaves it, is such a host |
| `Agent.AgentSession.HandleLock` | src/agent.rs:231-317 | grants the lock exactly when it is free, the deployed name is the host's and `current` is what the driver expects; refusals leave the refs alone; it answers unless a primitive fails |
| `Agent.LockMeaning` | src/agent.rs:200-231 | a lock is granted exactly when it is free, what is deployed is the host's own, by the recorded name or, without one, by an entry in the current commit, and `current` is the expected commit; a refusal says which of these failed |
| `Agent.AgentSession.HandleReceivePack` | src/agent.rs:319-329 | a locked session's store gains exactly the objects that the driver packed for its expected commit, or nothing if a primitive fails |
| `Agent.AgentSession.PrepareApply` | src/agent.rs:393-472 | answers what the protocol's checks do, or refuses if a primitive fails; only when it passes, and only for a deploy, the target ref moves |
| `Agent.AgentSession.TryRollback` | src/agent.rs:600-645 | on success apps and links are changed back and `target` is `current` again; otherwise the refs stay and the host is as after an interrupted deploy; without faults it succeeds if its way is clear, and success takes that every action of its activation passed, so the old units are up |
| `Agent.AgentSession.HandleRollback` | src/agent.rs:577-598 | the outcome of the rollback is the outcome of the apply, with the refs that go with it; it is `RolledBack` if no primitive fails and the way back is clear |
| `Agent.AgentSession.FinishApply` | src/agent.rs:534-565 | `current` moves, then the name is recorded, then garbage is collected; a failed name write leaves `current` moved and the apply failed; it fails only by a failing primitive |
| `Agent.AgentSession.ApplyModification` | src/agent.rs:494-566 | every outcome with what it leaves on disk and in the refs |
| `Agent.AgentSession.HandleApply` | src/agent.rs:358-389 | a completed apply ran all actions of one activation without a failure, and exactly the enabled units of the changed apps were waited for and came up, so a failed unit never ends in `ApplyComplete`; a completed deploy has both refs and the whole host at the requested commit, a rolled-back one has the whole host at the commit that was there and `target` back at `current`, refused ones change nothing; it completes if the checks pass, no primitive fails and nothing is in its way; on a host as in `Obstacles.RollbackClear` a rollback-safe deploy of a valid commit completes or is rolled back if no primitive fails, and if nothing was in its way a single fault never ends in a failed rollback; a reapply never ends in a rollback, and when it completes every app, link and managed directory of its commit is restored whatever the host was like; no outcome touches what is foreign |
| `Agent.AgentSession.Deliver` | src/agent.rs:494-532 | checkout and activation: on success all is as the commit desires, stopped anywhere it is an attempt, and only a begun activation can be rolled back; without faults it succeeds if nothing is in the way, and a valid commit's activation begins; the answer is that of the activation |
| `Agent.ActivatedUnits` | src/main.rs:989-996 | an activation that failed no action waited for exactly the enabled units of the changed apps, and all of them came up |
| `Agent.AgentSession.Close` | src/main.rs:1200-1209 | at the end of the requests the lock is dropped, and the refs stay |
| `Agent.ReapplyAtCommit` | src/agent.rs:409-417 | a completed reapply restores its commit from any state, and leaves the host exactly at it if no other app was there |
| `AgentRuns.MoveStable` | src/agent.rs:331-390 | an agent's step does not depend on its driver, nor on commits that its host does not have |
| `AgentRuns.OthersLeave` | src/agent.rs:231-317 | while a session holds the lock no step of others changes the session or its host |
| `AgentRuns.AgentKeepsInv` | src/agent.rs:331-390 | whatever an agent does in a session, with any steps of others between its own, is a run of the cluster, taken in states that the agent knows, and keeps the invariant |
| `Agent.DeployNeverAsserts` | src/agent.rs:428-443 | in a cluster a deploy request never trips an assertion of the agent |
| `Agent.RolledBackAtCommit` | src/agent.rs:577-645 | what a rollback leaves on disk is the old commit, for every way the deploy and its rollback went |
| `Deployment.DeployProgress.NumFailed` | src/deploy.rs:116-119 | the number of hosts in a failure state |
| `Deployment.DeployProgress.Outcome` | src/deploy.rs:124-131 | success exactly when no host is in a failure state |
| `Deployment.TryConnect` | src/deploy.rs:301-347 | a connection exactly to a host that greets with the right name, if need be after an install; every other case shows as its error |
| `Deployment.ConnectAndLock` | src/deploy.rs:357-426 | every host is tried, and is among the locked or the stale, or shows its error, exactly by its answer |
| `Deployment.FetchFromStaleHost` | src/sync.rs:141-187 | it succeeds exactly when the store does not fail and the commit is there, sent, or none; then the tracking ref is at the reported commit or gone, and the store gained exactly what the host sent if the commit was missing; on failure the ref stays and the error is the host's or the store's |
| `Deployment.FetchStaleObjects` | src/sync.rs:128-139 | of each stale host, the tracking ref says what it reported, or its error shows, which takes a failing store or a host that did not send what was missing; no other ref moves |
| `Deployment.BuildPacks` | src/deploy.rs:562-572 | one packfile for each expected commit of the plan, and no other; it fails exactly when the store does or lacks one of the commits |
| `Deployment.ReadApplyMessages` | src/deploy.rs:497-556 | applied exactly when the stream ends in order after a completion and without a failure, at the last reported commit; rolled back exactly when that is the first message that ends it; every other end shows as the error that the messages or the stream end in |
| `Deployment.PushAndApplyHost` | src/deploy.rs:429-482 | a host that takes the pack and finishes with the plan's commit is done and tracked at it unless the store fails; the tracking ref moves for no other host; a rollback, an error and a refused pack show as what they are; it panics exactly when the agent reports another commit as applied |
| `Deployment.RunDeploy` | src/deploy.rs:587-630 | applies to all hosts or to none; succeeds if every host is locked and applies the commit and the store does not fail, and only when every host has applied the commit and is tracked at it; every other host shows how it ended; an abort reports the number of hosts not locked, and each shows its error or a refreshed tracking ref; panics exactly when an agent reports another commit, after all other hosts came out as usual |
| `Deployment.RunReapply` | src/reapply.rs:94-177 | runs on all hosts or none, also refusing when one greeted with an incomplete deploy; succeeds exactly when all are locked, none is incomplete and every host finishes with its commit; moves no tracking ref once all are locked; panics exactly when an agent reports another commit, or a rollback |
| `Deployment.RunSync` | src/sync.rs:71-120 | each host ends up to date, refreshed, or with its error and its tracking ref as it was; a host whose commit is there or sent is refreshed unless the store fails |
| `Exchange.DriverConcludes` | src/deploy.rs:462-479 | wherever the messages break off, the driver takes an apply for finished or rolled back only if the agent's ended so, with the commit that was asked for; so it never panics on what an agent sends, but for a rollback of a reapply, which no agent does |
| `Exchange.DriverLearns` | src/deploy.rs:497-556 | when all messages arrive, it takes exactly the completed applies for finished and the rolled-back ones for rolled back, and shows every other end as its error |
| `Exchange.FetchIsSteps` | src/sync.rs:141-187 | what a successful fetch does to the driver's store and ref are steps of the protocol |
| `Exchange.PushIsStep` | src/deploy.rs:462-479 | when the driver takes an apply for finished, moving its tracking ref is a step of the protocol |

## Left out

- SSH, process spawning, framing and encoding: messages are datatypes, and what a host answers is a value.
- Object hashing, packfile encoding, reflogs and Git's own garbage collection: a tree is its own object id, commits are an append-only graph, and a packfile is a set of commits.
- Manifest parsing: a file's contents carry the manifest that they parse to, or none.
- `systemctl`, `networkctl` and `systemd-sysusers`: how a command comes out is left open, and recorded. `disable` may remove any links and empty directories below the units directory; `enable` may add and replace links there that do not go through `current`, which is the form it records, at any paths of a set that is a parameter of the host. What restarted units do is a stream of polls for each wait, also a parameter of the host, in which every restart job ends some time.
- Filesystem.HostFs.CreateDirAll: a symlink to a directory on the path counts as a failure, where the operating system would follow it; the tree maps each path to what is there itself, without following links.
- Symlinked ancestors: creating a directory or a link below a symlink fails in the model, where the operating system would follow it. The properties hold under the stated condition that no unmanaged symlink is an ancestor of a desired name, which is where the two agree.
- File modes, `..`, non-UTF-8 names and path normalisation beyond empty and dot-free components.
- The apps directory is a map of app directories, each with its version directories and three links; foreign entries in it are not part of this model, and manifest links are taken to lie outside it.
- A removal or write of a directory that fails may leave any contents; a rename, a symlink and a removed file are atomic.
- The iteration order of ordered maps is left open: loops over them take any order.
- The driver's assertions on the agent's version and build commit: the greeting has neither.
- Threads of the driver: hosts are independent of each other, and are handled one after the other in any order.
- The driver's wait for all locks is not part of the protocol's steps, which only adds runs; `Deployment.RunDeploy` has it.
- Selecting hosts and connecting to them are one step for sync and reapply in `Protocol`.
- Host names are fixed: the legacy fallback that cannot see a swap of names is modelled, a swap itself is not.
- Commit prefixes: `Recovery.RollbackRestores` and `Recovery.RoundsStand` take the prefixes of the commits in play to be distinct, and the version directories named after the current commit to be complete, which `Recovery.RoundsStand` re-establishes after every deploy that no crash hits.
- The four managed directories are taken to be absolute and none inside another, as the standard ones are.
- Manifest links inside a managed directory: the results about deploys take the commit that they arrive at to have none (`LinksPlaced`). `LinkStrings` says for which strings validation provides that, and for which it does not.
- Desired.LinkChangesConverge: the only-if half is for an open insertion order. The source's maps are sorted on both sides, so there the incremental and the from-scratch links can agree although two declarations of one path do not.
- Checkout.CheckoutApp: a failing read of `current` (src/checkout.rs:77), after which the source rotates the links although `current` names the version already, is not part of this model.
- Of the poll loop's messages only the lists of waiting units are kept.
- Deployment.TryConnect: what a host shows while it is being worked on (connecting, installing, pushing, applying, waiting for units) is for display, and only what it shows in the end is stated; the same holds for Deployment.ReadApplyMessages and Deployment.PushAndApplyHost.
- `append` empties its second argument in the source; the model's `Append` returns the result and has no second argument to empty.
- Display, logging, command-line parsing, commit messages, setup and ping.
