# Kubernetes protocols, verified

This project models the stateful protocols and incremental algorithms at the core of a vendored Kubernetes 1.13.4 tree,
and proves what they promise over all inputs, all interleavings and all runs. `dafny verify dfyconfig.toml` covers the
whole project (Dafny 4.11).

| module | models |
|---|---|
| `PodWorkers` | the kubelet's per-pod goroutines: three maps under one lock, channels of capacity one that may be closed and replaced in the middle of a sync |
| `ChangeTracking`, `Endpoints`, `Services` | kube-proxy's change trackers, which collect changes per object, let them cancel out, and apply them to a table in map order |
| `TestNames`, `SigPrefixes` | test names as words, and the rewriting loop that compresses them into prefixes per sig |
| `Scheduler` | optimistic reservation in the scheduler cache and asynchronous binding |
| `RollingUpdate`, `OptimisticUpdate` | the arithmetic and progress of rolling updates, and updates with retries against a server that checks versions |
| `Admission`, `PodPhase` | admission of pods by the kubelet, and the phase it reports for them |
| `Expectations` | the creations and deletions a controller waits for |
| `NodeConditions` | the comparison of node conditions through a stable sort |
| `ClaimPods` | adoption and release of pods by a controller |
| `Options`, `Sequences`, `Strings` | types, facts and the insertion sort shared by the above |

A protocol is a `State`, a `Step` or `Action` and a function `Next`; a run is a sequence of states linked by enabled
steps, and the main results are about every state of every run. The code itself is a class or a method whose `ensures`
equates its new state with that function, or with a function that a lemma shows to be a run of such steps
(`Scheduler.ScheduleOneIsRun`, `Scheduler.RunBindingIsRun`, `RollingUpdate.StandIsAfter`), so a result about runs is a
result about the code.

Some promises turned out to hold only under a condition. The condition is then stated exactly, and a lemma shows what
happens without it:

- The prefix compression never ends if all tests share one sig (`SigPrefixes.StopsIffNotOneSig`).
- Listed tests always keep their sig. Any other name keeps it over a rewrite if and only if the new prefix does not
  cover it or carries that sig (`SigPrefixes.RewriteKeepsIff`), and over a run if and only if that holds of the last
  rewrite that covers it (`SigPrefixes.RunKeepsIff`); it can fail (`SigPrefixes.UnlistedMayChange`). Once the
  compression has ended, whatever it picked, the starting list alone decides (`SigPrefixes.EndKeepsIff`).
- No node is over-committed as long as no reservation that is still relied on leaves the cache
  (`Scheduler.CoveredIffNoLoss`). Three things can take one away, each of them alone: the expiry of a bound pod before
  the watch confirms it (`Scheduler.ExpiryOvercommits`), a bind that the server accepts but that is reported as failed
  (`Scheduler.LostReplyOvercommits`), and a second attempt at a pod whose first one is still under way
  (`Scheduler.SecondAttemptOvercommits`). Without them it does not happen (`Scheduler.BenignNeverOvercommits`).
- A rolling update whose new controller starts above its target ends only if there is an old replica left and room to
  surge (`RollingUpdate.CompletesIff`).
- Delete expectations are exact unless someone sets the counter beside the UID store (`Expectations.StepExact`), as
  announcing creations does (`Expectations.CreationsReset`).
- Conditions of one type in another order count as a change (`NodeConditions.OrderWithinKindMatters`).
- A pod that the API server shows as terminal stays so as long as syncs see copies that show it; with an old copy that
  does not, a report is terminal if and only if the pod is evicted or its containers make it so
  (`PodPhase.ReportTerminalIff`), so the phase can come back (`PodPhase.OldCopyRevives`).
- A removed pod leaves the scheduler cache at once if and only if the watch has added it before
  (`Scheduler.RemovalFrees`); otherwise its assumed entry stays until it expires (`Scheduler.UnseenRemovalLingers`).
- A second pass of `ClaimPods` is idle if and only if selector and filters agree on the patched pods
  (`ClaimPods.SecondPass`); a filter that looks at owners can make the passes alternate (`ClaimPods.OrphanFilterFlaps`).
  The second pass returns the patched copies; the first returns the copies it was given.

Assumptions about the surroundings: each proxy event's previous object is the one last
delivered; a nil table and an empty one hold the same but are not deeply equal; only this scheduler binds its pods and
the API server binds only pods that are neither bound nor deleted; a UID never changes its name; the API server refuses
a second controller reference and an update at another version than the stored one; whether pods fit on a host is a
matter that fewer pods cannot hurt, which holds of resources and ports but not of required affinity to other pods.

## Model

| member | source | states |
|---|---|---|
| `PodWorkers.OneUnitOfWork` | src/kubernetes-1.13.4/pkg/kubelet/pod_workers.go:157-289 | at every point of every interleaving of updates, forgets and goroutine steps, a pod that is marked as working has exactly one unit of work (buffered in some channel, open or closed, or being processed), and any other pod has none |
| `PodWorkers.NeverSyncedTwice` | src/kubernetes-1.13.4/pkg/kubelet/pod_workers.go:157-289 | two goroutines never sync the same pod at once, even if it was forgotten and added again in the middle of a sync |
| `PodWorkers.SendsAreSafe` | src/kubernetes-1.13.4/pkg/kubelet/pod_workers.go:199-289 | no send or close under the lock ever panics or blocks; an update waits undelivered only for a pod that is working and has a live, open channel |
| `PodWorkers.WorkGoesOn` | src/kubernetes-1.13.4/pkg/kubelet/pod_workers.go:157-194 | a pod that is marked as working is never stuck: one of its own goroutines can take its next step |
| `PodWorkers.KillIsNext` | src/kubernetes-1.13.4/pkg/kubelet/pod_workers.go:199-289 | a pending kill stays pending with nothing sent to its pod, or is the first update sent since, unless the worker is forgotten first |
| `PodWorkers.SendsFavoured` | src/kubernetes-1.13.4/pkg/kubelet/pod_workers.go:199-289 | between two sends to a pod with no forgetting in between, whatever else is interleaved, the second sends the first kill given after the first, or else the last update given; the same from the start and from a forgetting |
| `PodWorkers.WaitsForFavoured` | src/kubernetes-1.13.4/pkg/kubelet/pod_workers.go:224-289 | at every point since then, what waits for the pod is that update, and nothing if none was given |
| `PodWorkers.LatestWaits` | src/kubernetes-1.13.4/pkg/kubelet/pod_workers.go:227-233 | an update given to a pod at work, when no kill waits, is what waits right after |
| `PodWorkers.SyncedInOrder` | src/kubernetes-1.13.4/pkg/kubelet/pod_workers.go:157-289 | every update sent to a pod is taken up exactly once, in the order of sending, also across forgetting and hand-over; at most one is still under way, and it lies in a channel |
| `PodWorkers.ForgetsOnlyIt` | src/kubernetes-1.13.4/pkg/kubelet/pod_workers.go:236-262 | forgetting closes the channel of exactly the pods concerned and drops what waits for them; worker, channel and waiting update of every other pod stay |
| `PodWorkers.HandOver` | src/kubernetes-1.13.4/pkg/kubelet/pod_workers.go:199-247 | the hand-over is reachable: a run in which one pod has two goroutines, one of them syncing on a closed channel |
| `PodWorkers.StepKeeps` | src/kubernetes-1.13.4/pkg/kubelet/pod_workers.go:157-289 | every step keeps the inductive invariant: shape of channels and goroutines, undelivered updates only where they can be delivered, one token per working pod |
| `PodWorkers.DeliverKeeps` | src/kubernetes-1.13.4/pkg/kubelet/pod_workers.go:199-234 | UpdatePod keeps the invariant, whether it starts a worker, sends, or parks the update |
| `PodWorkers.RemoveKeeps` | src/kubernetes-1.13.4/pkg/kubelet/pod_workers.go:236-262 | forgetting any set of workers keeps the invariant and every unit of work |
| `PodWorkers.ReceiveKeeps` | src/kubernetes-1.13.4/pkg/kubelet/pod_workers.go:159-160 | taking an update from a channel, closed or not, keeps the invariant |
| `PodWorkers.EndSyncKeeps` | src/kubernetes-1.13.4/pkg/kubelet/pod_workers.go:176-192 | the end of a sync keeps the invariant |
| `PodWorkers.CheckKeeps` | src/kubernetes-1.13.4/pkg/kubelet/pod_workers.go:280-289 | checkForUpdates keeps the invariant: it hands the one token on to the parked update, or gives it up together with the working flag |
| `PodWorkers.ExitKeeps` | src/kubernetes-1.13.4/pkg/kubelet/pod_workers.go:159-194 | a goroutine that leaves a closed, drained channel keeps the invariant |
| `PodWorkers.IdleDrops` | src/kubernetes-1.13.4/pkg/kubelet/pod_workers.go:264-289 | the goroutine that wraps up holds the only unit of work of its pod |
| `PodWorkers.KillStep` | src/kubernetes-1.13.4/pkg/kubelet/pod_workers.go:224-233 | one step sends exactly the kill, or leaves it pending and sends nothing to its pod |
| `PodWorkers.SentGrows` | src/kubernetes-1.13.4/pkg/kubelet/pod_workers.go:199-289 | a step sends at most one update: the one given, if the pod was idle, or the one that waited |
| `PodWorkers.Workers.constructor` | src/kubernetes-1.13.4/pkg/kubelet/pod_workers.go:142-156 | no workers, and the invariant holds |
| `PodWorkers.Workers.StartWorker` | src/kubernetes-1.13.4/pkg/kubelet/pod_workers.go:207-223 | a pod without a worker gets an open, empty channel and an idle goroutine, others are untouched |
| `PodWorkers.Workers.SendTo` | src/kubernetes-1.13.4/pkg/kubelet/pod_workers.go:226 | a send appends to the one channel and nothing else |
| `PodWorkers.Workers.UpdatePod` | src/kubernetes-1.13.4/pkg/kubelet/pod_workers.go:199-234 | the three maps and the channels become what the delivery of the update demands, which SendsFavoured and WaitsForFavoured describe, and the invariant is kept |
| `PodWorkers.Workers.RemoveWorker` | src/kubernetes-1.13.4/pkg/kubelet/pod_workers.go:236-247 | closes and forgets the one channel and drops the parked update; the working flag stays |
| `PodWorkers.Workers.ForgetWorker` | src/kubernetes-1.13.4/pkg/kubelet/pod_workers.go:248-252 | exactly this pod loses its worker, and the invariant is kept |
| `PodWorkers.Workers.ForgetNonExistingPodWorkers` | src/kubernetes-1.13.4/pkg/kubelet/pod_workers.go:254-262 | in whatever order the map is walked, exactly the workers of pods that are not desired are forgotten |
| `PodWorkers.Workers.Receive` | src/kubernetes-1.13.4/pkg/kubelet/pod_workers.go:159-160 | the oldest buffered update is taken and its sync begins |
| `PodWorkers.Workers.EndSync` | src/kubernetes-1.13.4/pkg/kubelet/pod_workers.go:176-192 | only the phase of this goroutine changes |
| `PodWorkers.Workers.Exit` | src/kubernetes-1.13.4/pkg/kubelet/pod_workers.go:159-194 | only an idle goroutine on a closed and drained channel ends |
| `PodWorkers.Workers.CheckForUpdates` | src/kubernetes-1.13.4/pkg/kubelet/pod_workers.go:280-289 | the parked update is sent and no longer parked, or the pod stops being marked as working; the invariant is kept |
| `ChangeTracking.IncrementalIsRebuilt` | src/kubernetes-1.13.4/pkg/proxy/endpoints.go:116-270 | after any chain of events and applies that ends in an apply, the incrementally kept table is the union of the translations of all current objects, whatever the iteration orders and however many changes cancelled out |
| `ChangeTracking.OrderIrrelevant` | src/kubernetes-1.13.4/pkg/proxy/endpoints.go:244-256 | the table after an apply does not depend on the order in which the pending changes are visited |
| `ChangeTracking.AnyOrderApplies` | src/kubernetes-1.13.4/pkg/proxy/endpoints.go:244-256 | in any order, each port of a changed object ends up as that change says, and every other port stays |
| `ChangeTracking.OrdersAgree` | src/kubernetes-1.13.4/pkg/proxy/service.go:268-281 | merge, filter, unmerge has the same effect as unmerge, merge |
| `ChangeTracking.RecordChange` | src/kubernetes-1.13.4/pkg/proxy/endpoints.go:130-140 | the previous side of the first event and the current side of the last, or nothing if they are equal |
| `ChangeTracking.DeliverKeepsBase` | src/kubernetes-1.13.4/pkg/proxy/endpoints.go:116-142 | recording or cancelling a change never alters what the table must hold for an object before the next apply |
| `ChangeTracking.StepKeeps` | src/kubernetes-1.13.4/pkg/proxy/endpoints.go:116-270 | events and applies keep the invariant that ties table, pending changes and objects together |
| `ChangeTracking.PendingStartsAtTable` | src/kubernetes-1.13.4/pkg/proxy/endpoints.go:244-256 | the previous side of every pending change is what the table holds for that object |
| `ChangeTracking.PendingIffChanged` | src/kubernetes-1.13.4/pkg/proxy/endpoints.go:116-142 | in every run something is pending for an object if and only if its translation now is another than at the last apply, and it is exactly that difference |
| `Endpoints.EndpointsMapIsRebuilt` | src/kubernetes-1.13.4/pkg/proxy/endpoints.go:116-270 | after every apply the endpoints map equals a rebuild from all current Endpoints objects |
| `Endpoints.StaleIsDifference` | src/kubernetes-1.13.4/pkg/proxy/endpoints.go:244-314 | over each apply, the stale endpoints are exactly the pairs of port and endpoint present before without an equal one under that port after, and the newly backed ports exactly those that had no endpoint and now have one |
| `Endpoints.ListedIffOffered` | src/kubernetes-1.13.4/pkg/proxy/endpoints.go:187-239 | an endpoint is listed under a port if and only if some subset pairs a port of that name and a nonzero number with a usable address |
| `Endpoints.MapShowsObjects` | src/kubernetes-1.13.4/pkg/proxy/endpoints.go:163-270 | after every apply an endpoint is listed under a port if and only if the current object has a subset with a port of that name and nonzero number and a nonempty address of the right family; it is their host and port, and local exactly if the address is on the proxy's node |
| `Endpoints.ListedMeans` | src/kubernetes-1.13.4/pkg/proxy/endpoints.go:187-239 | the same for the table of one object |
| `Endpoints.LocalsMean` | src/kubernetes-1.13.4/pkg/proxy/endpoints.go:273-287 | the local addresses counted for an object are exactly those of its listed endpoints that are on the proxy's node |
| `Endpoints.SubsetsListedInOrder` | src/kubernetes-1.13.4/pkg/proxy/endpoints.go:187-239 | the list under a port follows the order of the object: what earlier subsets give comes first |
| `Endpoints.PortsListedInOrder` | src/kubernetes-1.13.4/pkg/proxy/endpoints.go:197-236 | within a subset, what earlier ports give comes first |
| `Endpoints.AddressesListedInOrder` | src/kubernetes-1.13.4/pkg/proxy/endpoints.go:207-228 | within a port, what earlier addresses give comes first |
| `Endpoints.AppendAddress` | src/kubernetes-1.13.4/pkg/proxy/endpoints.go:208-228 | one address is appended as an endpoint, unless it is empty or of another family |
| `Endpoints.AppendAddresses` | src/kubernetes-1.13.4/pkg/proxy/endpoints.go:207-228 | the innermost loop appends, in order, the endpoints of the usable addresses under one port and touches no other port |
| `Endpoints.AppendPort` | src/kubernetes-1.13.4/pkg/proxy/endpoints.go:198-228 | a port number of zero adds nothing; any other adds its usable addresses |
| `Endpoints.AppendPorts` | src/kubernetes-1.13.4/pkg/proxy/endpoints.go:197-236 | one subset extends each named list by its endpoints in order |
| `Endpoints.EndpointsToEndpointsMap` | src/kubernetes-1.13.4/pkg/proxy/endpoints.go:187-239 | no object gives no table; an object gives a table with exactly the nonempty lists of its named ports |
| `Endpoints.DetectStaleConnections` | src/kubernetes-1.13.4/pkg/proxy/endpoints.go:291-314 | appends exactly the endpoints that have no equal one left, and the ports that went from no endpoint to some |
| `Endpoints.StaleOfPort` | src/kubernetes-1.13.4/pkg/proxy/endpoints.go:292-306 | for one port, exactly the endpoints without an equal one left are added |
| `Endpoints.EndpointChangeTracker.constructor` | src/kubernetes-1.13.4/pkg/proxy/endpoints.go:98-106 | nothing is pending |
| `Endpoints.EndpointChangeTracker.Update` | src/kubernetes-1.13.4/pkg/proxy/endpoints.go:116-142 | the first event of an object fixes its previous side, later ones replace its current side, a change that nets out is dropped, and the answer tells whether anything is pending |
| `Endpoints.EndpointsMap.Merge` | src/kubernetes-1.13.4/pkg/proxy/endpoints.go:259-263 | the other table wins, all other ports stay |
| `Endpoints.EndpointsMap.Unmerge` | src/kubernetes-1.13.4/pkg/proxy/endpoints.go:266-270 | exactly the other table's ports are gone |
| `Endpoints.EndpointsMap.Apply` | src/kubernetes-1.13.4/pkg/proxy/endpoints.go:244-256 | nothing without a tracker; otherwise every pending change is applied in the order of some visit, none is left pending, and the stale lists are those of the changes |
| `Endpoints.Proxier.constructor` | src/kubernetes-1.13.4/pkg/proxy/endpoints.go:98-106 | an empty run |
| `Endpoints.Proxier.OnEndpointsUpdate` | src/kubernetes-1.13.4/pkg/proxy/endpoints.go:116-142 | an event whose previous object is the one last delivered extends the run by that delivery |
| `Endpoints.Proxier.UpdateEndpointsMap` | src/kubernetes-1.13.4/pkg/proxy/endpoints.go:163-178 | extends the run by an apply, after which the map is the rebuilt one and shows exactly the current objects, what is reported is exactly its difference to the map before, and the sizes are the numbers of different local addresses of each object that has any |
| `Endpoints.GetLocalEndpointIPs` | src/kubernetes-1.13.4/pkg/proxy/endpoints.go:273-287 | exactly the objects with a local endpoint, each with exactly the addresses of these, whatever the order of the map |
| `Services.ServiceMapIsRebuilt` | src/kubernetes-1.13.4/pkg/proxy/service.go:173-343 | after every apply the service map equals a rebuild from all current Service objects |
| `Services.MapShowsObjects` | src/kubernetes-1.13.4/pkg/proxy/service.go:77-264 | after every apply there is an entry for exactly the ports of the services with a cluster IP of the right family; it has the number, protocol and node port of the last port of that name, the affinity and its timeout, exactly the external IPs and source ranges of the right family in order, and a health check port only for a load balancer with local traffic policy |
| `Services.TableShows` | src/kubernetes-1.13.4/pkg/proxy/service.go:234-264 | the same for the table of one object |
| `Services.KeepSifts` | src/kubernetes-1.13.4/pkg/util/net/net.go:51-61 | what a filter keeps are exactly the strings wanted, in order |
| `Services.StaleIsDifference` | src/kubernetes-1.13.4/pkg/proxy/service.go:268-343 | an apply reports exactly the cluster IPs of UDP ports present before and absent after, and unmerge never meets a missing port |
| `Services.HealthPortsDetermined` | src/kubernetes-1.13.4/pkg/proxy/service.go:212-226 | after every apply all ports of a service carry that service's own health check port, so the reported map is independent of iteration order |
| `Services.HealthCheckNodePorts` | src/kubernetes-1.13.4/pkg/proxy/service.go:217-224 | a service is reported if and only if one of its ports has a health check port, with the low 16 bits of it |
| `Services.OwnHealthPort` | src/kubernetes-1.13.4/pkg/proxy/service.go:77-129 | every port made from a service belongs to it and carries the health check port that the service asks for |
| `Services.NewBaseServiceInfo` | src/kubernetes-1.13.4/pkg/proxy/service.go:77-129 | the entry for one port, which TableShows describes |
| `Services.FilterWithCondition` | src/kubernetes-1.13.4/pkg/util/net/net.go:51-61 | splits the strings into those with the expected value and the others, each in order |
| `Services.ServiceToServiceMap` | src/kubernetes-1.13.4/pkg/proxy/service.go:234-264 | no service, a service without cluster IP or of another IP family gives no table; otherwise each port name maps to the last port listed under it |
| `Services.ServiceChangeTracker.constructor` | src/kubernetes-1.13.4/pkg/proxy/service.go:156-163 | nothing is pending |
| `Services.ServiceChangeTracker.Update` | src/kubernetes-1.13.4/pkg/proxy/service.go:173-199 | the first event of an object fixes its previous side, later ones replace its current side, a change that nets out is dropped |
| `Services.Filter` | src/kubernetes-1.13.4/pkg/proxy/service.go:319-326 | keeps exactly the ports that the other table does not have |
| `Services.ServiceMap.Merge` | src/kubernetes-1.13.4/pkg/proxy/service.go:301-316 | the other table wins, all other ports stay |
| `Services.ServiceMap.Unmerge` | src/kubernetes-1.13.4/pkg/proxy/service.go:330-343 | exactly the other table's ports are gone, the cluster IPs of their UDP ports are added to the stale ones, and the error is logged exactly if one was missing |
| `Services.ServiceMap.ApplyChange` | src/kubernetes-1.13.4/pkg/proxy/service.go:271-277 | one change replaces the ports of its previous side by those of its current side, and reports the cluster IPs of the UDP ports it drops |
| `Services.ServiceMap.Apply` | src/kubernetes-1.13.4/pkg/proxy/service.go:268-281 | every pending change is applied in the order of some visit, none is left pending, and the stale IPs are those of the UDP ports dropped on the way |
| `Services.OwnedInAnyOrder` | src/kubernetes-1.13.4/pkg/proxy/service.go:268-281 | where every change keeps to the ports of its own object, what an apply reports does not depend on the order |
| `Services.Proxier.constructor` | src/kubernetes-1.13.4/pkg/proxy/service.go:156-163 | an empty run |
| `Services.Proxier.OnServiceUpdate` | src/kubernetes-1.13.4/pkg/proxy/service.go:173-199 | an event whose previous object is the one last delivered extends the run by that delivery |
| `Services.Proxier.UpdateServiceMap` | src/kubernetes-1.13.4/pkg/proxy/service.go:212-226 | extends the run by an apply, after which the map is the rebuilt one and shows exactly the current objects, the stale IPs are those of the UDP ports that went, no port was missing, and each service's health check port is its own |
| `SigPrefixes.RunMeans` | src/kubernetes-1.13.4/hack/update_owners.py:138-150 | at every point of every run of the rewriting loop, the longest entry that is a prefix of an original test still carries its sig |
| `SigPrefixes.RunFacts` | src/kubernetes-1.13.4/hack/update_owners.py:138-150 | no sig is lost or invented and no name is listed twice; unless there is exactly one sig, every rewrite shortens the names in total |
| `SigPrefixes.StopsIffNotOneSig` | src/kubernetes-1.13.4/hack/update_owners.py:138-150 | with exactly one sig no run ever reaches a point where the loop stops; otherwise the length of every run is bounded by the characters in the names |
| `SigPrefixes.OneSigNeverStops` | src/kubernetes-1.13.4/hack/update_owners.py:143-148 | with exactly one sig every entry stays reducible |
| `SigPrefixes.RewriteLookup` | src/kubernetes-1.13.4/hack/update_owners.py:143-148 | what any name, listed or not, looks up after a rewrite: the new prefix if that covers it, and otherwise what it looked up before, if anything |
| `SigPrefixes.RewriteKeepsIff` | src/kubernetes-1.13.4/hack/update_owners.py:143-148 | a name keeps its sig over a rewrite if and only if the new prefix does not cover it or carries that sig |
| `SigPrefixes.RewriteFindsIff` | src/kubernetes-1.13.4/hack/update_owners.py:143-148 | a name that found nothing finds a sig after a rewrite if and only if the new prefix covers it and carries that sig |
| `SigPrefixes.RunLookup` | src/kubernetes-1.13.4/hack/update_owners.py:138-150 | at any point of any run a name looks up the prefix made by the last rewrite that covered it, or what it looked up at the start if none did |
| `SigPrefixes.RunKeepsIff` | src/kubernetes-1.13.4/hack/update_owners.py:138-150 | a name has its sig at the end of a run if and only if no rewrite covered it or the last one that did carries that sig |
| `SigPrefixes.RunSparesIff` | src/kubernetes-1.13.4/hack/update_owners.py:138-150 | it has its sig all along if and only if every rewrite spares it |
| `SigPrefixes.UnlistedMayChange` | src/kubernetes-1.13.4/hack/update_owners.py:138-150 | the condition can fail: a family of rewrites after which a name that was never listed looks up another sig |
| `SigPrefixes.EndIsFinal` | src/kubernetes-1.13.4/hack/update_owners.py:138-150 | unless there is exactly one sig, where a run ends is determined by the list it starts from, whatever entry each pass picks: the fewest first words of each test that only its sig uses, the tests that have none, and nothing that begins with another such prefix |
| `SigPrefixes.PicksDoNotMatter` | src/kubernetes-1.13.4/hack/update_owners.py:138-150 | unless there is exactly one sig, any two runs from one list that end, end with the same entries |
| `SigPrefixes.EndKeepsIff` | src/kubernetes-1.13.4/hack/update_owners.py:138-150 | unless there is exactly one sig, a name, listed or not, that finds a sig at the start has it at the end if and only if no test of another sig shrinks to a prefix of it |
| `SigPrefixes.RunFollows` | src/kubernetes-1.13.4/hack/update_owners.py:138-150 | unless there is exactly one sig, at every point every entry is a test or first words of one that only its sig uses, every test is there or covered by such words that stand alone, and whether one sig alone uses a prefix that some entry has is as at the start |
| `SigPrefixes.RewriteMeans` | src/kubernetes-1.13.4/hack/update_owners.py:143-148 | one rewrite keeps what a listed test looks up |
| `SigPrefixes.RewriteShrinks` | src/kubernetes-1.13.4/hack/update_owners.py:143-148 | one rewrite strictly lowers the total length unless all entries share one sig |
| `TestNames.ShorterIsPrefix` | src/kubernetes-1.13.4/hack/update_owners.py:143 | dropping the last word of a normalized name gives a normalized proper prefix |
| `TestNames.NormalizeJoinsWords` | src/kubernetes-1.13.4/hack/update_owners.py:40-43 | normalize leaves exactly the words outside bracketed tags, separated by single spaces |
| `TestNames.UntaggedTwice` | src/kubernetes-1.13.4/hack/update_owners.py:41 | removing the shortest bracketed tags of each line once leaves none, not even one made by the removal |
| `TestNames.NoTagLeft` | src/kubernetes-1.13.4/hack/update_owners.py:41 | at no position of what is left does an opening bracket have a closing one of its kind after it on the same line |
| `TestNames.UntaggedIff` | src/kubernetes-1.13.4/hack/update_owners.py:41 | exactly the names in which no tag begins are left as they are |
| `TestNames.TagIsCut` | src/kubernetes-1.13.4/hack/update_owners.py:41 | a tag that follows a text without opening brackets is cut out up to its first closing bracket, the text stays, and what comes after is treated likewise |
| `TestNames.WordsOfJoin` | src/kubernetes-1.13.4/hack/update_owners.py:40-43 | splitting undoes joining with single spaces |
| `SigPrefixes.Collect` | src/kubernetes-1.13.4/hack/update_owners.py:131-136 | the list holds exactly the tests in whose name "k8s.io/" does not occur and that have a sig, with that sig |
| `SigPrefixes.Sort` | src/kubernetes-1.13.4/hack/update_owners.py:139 | a sorted permutation |
| `SigPrefixes.Matches` | src/kubernetes-1.13.4/hack/update_owners.py:144-145 | tells whether anything starts with the prefix and whether all that does has the sig |
| `SigPrefixes.FindReducible` | src/kubernetes-1.13.4/hack/update_owners.py:140-145 | a reducible entry of the list, or proof that there is none |
| `SigPrefixes.Filter` | src/kubernetes-1.13.4/hack/update_owners.py:146 | exactly the entries that do not start with the prefix, in order |
| `SigPrefixes.Compress` | src/kubernetes-1.13.4/hack/update_owners.py:138-150 | the loop makes a run and ends whenever there is not exactly one sig, in a sorted list in which nothing is reducible, no sig is lost, every listed test finds its sig, and exactly the entries of EndIsFinal are left |
| `SigPrefixes.Group` | src/kubernetes-1.13.4/hack/update_owners.py:152-154 | regroups exactly the entries by sig |
| `SigPrefixes.Run` | src/kubernetes-1.13.4/hack/update_owners.py:128-156 | every test that had a sig finds it by longest prefix, no sig is lost, no name is listed twice, no prefix could lose its last word without covering a test of another sig, and what is listed is determined by the tests alone |
| `Scheduler.NeverOvercommitted` | src/kubernetes-1.13.4/pkg/scheduler/scheduler.go:436-604 | in every interleaving in which no reservation is lost, each pod bound or being bound is in the cache on its host, and what is committed to a host fits there |
| `Scheduler.CoveredIffNoLoss` | src/kubernetes-1.13.4/pkg/scheduler/scheduler.go:436-604 | the condition is exact: a step keeps every pod covered if and only if it does not expire or forget an entry that another binding relies on |
| `Scheduler.BenignNeverOvercommits` | src/kubernetes-1.13.4/pkg/scheduler/scheduler.go:436-604 | no host is over-committed in any interleaving in which no bound pod expires before the watch confirms it, no accepted bind is reported as failed, and no pod is taken again while it is still being worked on |
| `Scheduler.BenignLosesNothing` | src/kubernetes-1.13.4/pkg/scheduler/scheduler.go:436-604 | in such interleavings no reservation is ever lost, and the invariant holds |
| `Scheduler.ExpiryOvercommits` | src/kubernetes-1.13.4/pkg/scheduler/internal/cache/cache.go:519-550 | from the start and with no other fault: a bound pod expires from the cache, and its host is bound to a pod that does not fit there as well |
| `Scheduler.LostReplyOvercommits` | src/kubernetes-1.13.4/pkg/scheduler/scheduler.go:482-510 | from the start and with no other fault: a bind that the server accepted is reported as failed, the pod is forgotten, and its host is bound to a pod that does not fit there as well |
| `Scheduler.SecondAttemptOvercommits` | src/kubernetes-1.13.4/pkg/scheduler/scheduler.go:482-510 | from the start and with no other fault: a pod is taken again before the goroutine of its failed bind has asked it to leave, loses its new reservation to that, and its host is bound to a pod that does not fit there as well |
| `Scheduler.RemovalsAgree` | src/kubernetes-1.13.4/pkg/scheduler/internal/cache/cache.go:355-358 | without loss the watch never reports a removal on another node than the cache has, so the fatal branch is not taken |
| `Scheduler.CachedForAReason` | src/kubernetes-1.13.4/pkg/scheduler/internal/cache/cache.go:174-369 | in every run, with or without loss, a cached pod is bound and not seen to be gone, or an attempt is binding it to that host or has yet to finish or undo that, or it was removed without ever being added and may expire at once |
| `Scheduler.ConfirmedIffSeen` | src/kubernetes-1.13.4/pkg/scheduler/internal/cache/cache.go:279-369 | a pod is confirmed in the cache exactly from the moment the watch adds it to the moment the watch removes it |
| `Scheduler.RemovalFrees` | src/kubernetes-1.13.4/pkg/scheduler/internal/cache/cache.go:342-369 | after a removal the pod is in the cache if and only if it was there before and the watch has never added it |
| `Scheduler.UnseenRemovalLingers` | src/kubernetes-1.13.4/pkg/scheduler/internal/cache/cache.go:353-367 | the other case is real: from the start and with no fault, a pod that is bound, deleted and removed without being added stays in the cache after its attempt is over |
| `Scheduler.RemovalNeverFatal` | src/kubernetes-1.13.4/pkg/scheduler/internal/cache/cache.go:355-359 | in every run, with or without loss, a confirmed pod is cached on the host it is bound to, so the fatal branch is not taken |
| `Scheduler.EntriesStay` | src/kubernetes-1.13.4/pkg/scheduler/internal/cache/cache.go:219-246 | no step touches the entry of another pod, and an attempt that asks its pod to leave takes away neither a confirmed entry nor a reservation on another host |
| `Scheduler.SkippedIffDeleting` | src/kubernetes-1.13.4/pkg/scheduler/scheduler.go:513-525 | a pod taken from the queue is skipped if and only if it is being deleted then |
| `Scheduler.OutcomesAccounted` | src/kubernetes-1.13.4/pkg/scheduler/scheduler.go:290-306 | on every path and interleaving an attempt that is over was bound once, or handed to the error handler once, or skipped; a pod handed back after being assumed was asked to leave the cache before |
| `Scheduler.AttemptsEnd` | src/kubernetes-1.13.4/pkg/scheduler/scheduler.go:513-604 | no attempt is ever stuck, and none takes more than eight steps of its own |
| `Scheduler.StepKeeps` | src/kubernetes-1.13.4/pkg/scheduler/scheduler.go:436-604 | every step that loses no reservation keeps the invariant (covered, exclusive, one serial attempt, room on every host) |
| `Scheduler.LossUncovers` | src/kubernetes-1.13.4/pkg/scheduler/internal/cache/cache.go:219-246 | a step that loses a reservation leaves some bound pod uncovered |
| `Scheduler.NodesAreCachedOn` | src/kubernetes-1.13.4/pkg/scheduler/internal/cache/cache.go:249-277 | what the algorithm reads for a host is what the pod states say |
| `Scheduler.SchedulerCache.constructor` | src/kubernetes-1.13.4/pkg/scheduler/internal/cache/cache.go:91-103 | an empty cache |
| `Scheduler.SchedulerCache.PlaceOn` | src/kubernetes-1.13.4/pkg/scheduler/internal/cache/cache.go:249-256 | the pod joins its host, other hosts stay |
| `Scheduler.SchedulerCache.TakeOff` | src/kubernetes-1.13.4/pkg/scheduler/internal/cache/cache.go:268-277 | the pod leaves its host; a host without pods and without node object disappears |
| `Scheduler.SchedulerCache.AssumePod` | src/kubernetes-1.13.4/pkg/scheduler/internal/cache/cache.go:174-193 | adds an assumed, unfinished entry, or fails and changes nothing if the pod is there |
| `Scheduler.SchedulerCache.FinishBinding` | src/kubernetes-1.13.4/pkg/scheduler/internal/cache/cache.go:200-217 | lets an assumed entry expire from now on, and ignores any other pod |
| `Scheduler.SchedulerCache.ForgetPod` | src/kubernetes-1.13.4/pkg/scheduler/internal/cache/cache.go:219-246 | removes an assumed entry on this host, and fails on any other |
| `Scheduler.SchedulerCache.AddPod` | src/kubernetes-1.13.4/pkg/scheduler/internal/cache/cache.go:279-312 | confirms, moves or re-adds the pod on the host the watch saw, and fails if it was confirmed already |
| `Scheduler.SchedulerCache.RemovePod` | src/kubernetes-1.13.4/pkg/scheduler/internal/cache/cache.go:342-369 | removes a confirmed entry on this host, ends the process if it is on another, and fails on any other pod |
| `Scheduler.SchedulerCache.ExpirePod` | src/kubernetes-1.13.4/pkg/scheduler/internal/cache/cache.go:543-550 | removes one entry |
| `Scheduler.SchedulerCache.CleanupAssumedPods` | src/kubernetes-1.13.4/pkg/scheduler/internal/cache/cache.go:519-541 | removes exactly the late entries that are assumed and finished |
| `Scheduler.ScheduleOneIsRun` | src/kubernetes-1.13.4/pkg/scheduler/scheduler.go:513-576 | from any point of any run at which no other attempt is in its serial part, what ScheduleOne does extends the run, to exactly its phase, cache and log, if the algorithm answers only with a host on which the pod fits |
| `Scheduler.RunBindingIsRun` | src/kubernetes-1.13.4/pkg/scheduler/scheduler.go:482-604 | from any point of any run, what RunBinding does for an attempt that is being bound extends the run, to exactly its phase, cache, log and binding at the server, if the server accepts only pods that are neither bound nor deleted |
| `Scheduler.ScheduleOne` | src/kubernetes-1.13.4/pkg/scheduler/scheduler.go:513-576 | skipped exactly if deleting, handed back exactly if some call fails or the pod is cached already, otherwise assumed and on its way; the cache changes only then |
| `Scheduler.RunBinding` | src/kubernetes-1.13.4/pkg/scheduler/scheduler.go:482-604 | bound exactly if volumes and bind succeed, otherwise handed back; a failed bind finishes and then forgets the reservation |
| `RollingUpdate.RunIsSafe` | src/kubernetes-1.13.4/pkg/kubectl/rolling_updater.go:239-411 | throughout any run, new replicas stay at most desired, old ones only shrink, and the total never exceeds the larger of the start and desired + maxSurge |
| `RollingUpdate.TotalIsBounded` | src/kubernetes-1.13.4/pkg/kubectl/rolling_updater.go:239-411 | the bound on the total holds for a resumed update that starts above its target as well |
| `RollingUpdate.DownIsLeast` | src/kubernetes-1.13.4/pkg/kubectl/rolling_updater.go:362-411 | a scale-down never takes old plus available pods from at or above desired - maxUnavailable to below it, goes as low as that allows, and does nothing below it |
| `RollingUpdate.AvailabilityKept` | src/kubernetes-1.13.4/pkg/kubectl/rolling_updater.go:239-411 | as long as no new pod becomes unavailable again, an update that has all but maxUnavailable of the desired pods available, old and new together, has so many at every later moment of any run |
| `RollingUpdate.NeverUnderByScaling` | src/kubernetes-1.13.4/pkg/kubectl/rolling_updater.go:362-411 | whatever becomes unavailable, no scale-down of any run takes the pods it counts below that, and below it none removes any |
| `RollingUpdate.LoopKeepsAvailable` | src/kubernetes-1.13.4/pkg/kubectl/rolling_updater.go:274-314 | the same for every pass of the loop, also one that fails |
| `RollingUpdate.UpIsGreatest` | src/kubernetes-1.13.4/pkg/kubectl/rolling_updater.go:328-357 | a scale-up stays within target and surge, and goes as high as they allow |
| `RollingUpdate.PassProgresses` | src/kubernetes-1.13.4/pkg/kubectl/rolling_updater.go:274-314 | with new pods ready in time, every pass finishes, empties the old controller, or lowers it by maxSurge + min(maxUnavailable, desired) |
| `RollingUpdate.BoundedPasses` | src/kubernetes-1.13.4/pkg/kubectl/rolling_updater.go:274-314 | the update is finished after one pass per stride of the old controller and one more |
| `RollingUpdate.PassesForIsCeiling` | src/kubernetes-1.13.4/pkg/kubectl/rolling_updater.go:274-314 | that number is the old replicas divided by the stride, rounded up, plus one |
| `RollingUpdate.CompletesIff` | src/kubernetes-1.13.4/pkg/kubectl/rolling_updater.go:274-314 | with new pods ready in time, the update ends if and only if the new controller does not start above its target, or an old replica is left and there is room to surge |
| `RollingUpdate.AcceptedIffCompletes` | src/kubernetes-1.13.4/pkg/kubectl/rolling_updater.go:234-236 | what Update accepts is exactly what always ends, with new pods ready in time, from any start within the target |
| `RollingUpdate.StuckAbove` | src/kubernetes-1.13.4/pkg/kubectl/rolling_updater.go:328-357 | otherwise the new controller never moves |
| `RollingUpdate.StandIsAfter` | src/kubernetes-1.13.4/pkg/kubectl/rolling_updater.go:274-314 | the passes of the loop are runs of scale steps, so what holds of those holds of it |
| `RollingUpdate.EndIsSafe` | src/kubernetes-1.13.4/pkg/kubectl/rolling_updater.go:274-314 | however an update that starts within its target ends, also by an error in the middle of a pass, the bounds on both controllers and on the total hold |
| `RollingUpdate.ReadyIsPasses` | src/kubernetes-1.13.4/pkg/kubectl/rolling_updater.go:274-314 | if all new pods are available at each scale-down, what the loop does is exactly those passes |
| `RollingUpdate.FavourableMoves` | src/kubernetes-1.13.4/pkg/kubectl/rolling_updater.go:274-314 | then no pass of an unfinished update changes nothing |
| `RollingUpdate.FavourableFinishes` | src/kubernetes-1.13.4/pkg/kubectl/rolling_updater.go:274-314 | and if the start is within the target, enough passes finish it |
| `RollingUpdate.FailsMeans` | src/kubernetes-1.13.4/pkg/kubectl/rolling_updater.go:280-304 | a pass fails exactly if a report fails, or a request that would change a size, or the count of pods while there are old ones |
| `RollingUpdate.ReportIsDetermined` | src/kubernetes-1.13.4/pkg/kubectl/rolling_updater.go:274-314 | outcome, number of passes and final sizes are determined by the start and by what the outside does |
| `RollingUpdate.ScaleUpRc` | src/kubernetes-1.13.4/pkg/kubectl/rolling_updater.go:328-357 | the new controller gets exactly the size that UpIsGreatest describes, the old one is untouched, and a request is sent exactly if the size changes |
| `RollingUpdate.ScaleDownRc` | src/kubernetes-1.13.4/pkg/kubectl/rolling_updater.go:362-411 | the old controller gets exactly the size that DownIsLeast describes, the new one is untouched, and a request is sent exactly if the size changes |
| `RollingUpdate.OnePass` | src/kubernetes-1.13.4/pkg/kubectl/rolling_updater.go:275-309 | both controllers move by one scale-up and one scale-down, and progress is made exactly if that changed something; it fails exactly if a scale request, the count of pods or OnProgress that is made fails, and leaves what was done before that |
| `RollingUpdate.Loop` | src/kubernetes-1.13.4/pkg/kubectl/rolling_updater.go:234-314 | both controllers stand where that many passes take them; rejected exactly if no progress is allowed; completed as soon as it is finished; timed out by the first late pass that changes nothing; an error from the first pass that fails |
| `RollingUpdate.Update` | src/kubernetes-1.13.4/pkg/kubectl/rolling_updater.go:234-314 | the same, and if all new pods are available at each scale-down, nothing fails, the start is within the target and the passes suffice, it completes and so never times out |
| `OptimisticUpdate.UpdateRcWithRetries` | src/kubernetes-1.13.4/pkg/kubectl/rolling_updater.go:785-808 | with any other writers interleaved there is at most one write, and success means one; it applies the update to the object stored immediately before, except that the first attempt counts what the caller had changed in its own copy; it succeeds if nobody deletes the object and one of its four attempts is undisturbed after attempts that failed by conflicts only and a read that succeeded, or the first is undisturbed and the copy is up to date |
| `OptimisticUpdate.ScaleSimple` | src/kubernetes-1.13.4/pkg/kubectl/scale.go:118-135 | at most one write, which replaced a state meeting the precondition and changed only the replica count; without faults, and as long as the object exists, it fails only by a conflict, which needs another writer, or because what is stored does not meet the precondition |
| `OptimisticUpdate.ScaleWithRetries` | src/kubernetes-1.13.4/pkg/kubectl/scale.go:82-155 | over all polls at most one write, which replaced a state meeting the precondition and changed only the replica count; success means there was one, and if asked to wait that the size was reached or reset by someone else; there is one if nobody deletes the object and some try is undisturbed after tries that failed by conflicts only, or else what is stored does not meet the precondition |
| `OptimisticUpdate.WaitForScale` | src/kubernetes-1.13.4/pkg/kubectl/scale.go:159-188 | only reads, and succeeds exactly with the first poll that sees the size reached or reset by someone else; times out only after all polls saw neither |
| `OptimisticUpdate.Validate` | src/kubernetes-1.13.4/pkg/kubectl/scale.go:100-108 | passes exactly if size and version are either unset or the ones found |
| `OptimisticUpdate.Int32` | src/kubernetes-1.13.4/pkg/kubectl/scale.go:129 | the requested size as a signed 32-bit number, congruent to it |
| `OptimisticUpdate.Server.Update` | src/kubernetes-1.13.4/pkg/kubectl/rolling_updater.go:791-795 | accepted only at the stored version; a conflict is reported only for a version that is out of date for good, and an undisturbed update at the stored version is accepted |
| `OptimisticUpdate.Server.Get` | src/kubernetes-1.13.4/pkg/kubectl/rolling_updater.go:798-801 | returns what is stored, or that there is nothing |
| `Admission.ActivePodsFit` | src/kubernetes-1.13.4/pkg/kubelet/kubelet.go:2046-2084 | if the handlers admit only what fits with the other pods, fitting is closed under subsets and terminated pods stay terminated, then at every point of every run the pods known and not terminated fit together |
| `Admission.AddKeeps` | src/kubernetes-1.13.4/pkg/kubelet/kubelet.go:2046-2084 | one addition keeps that, whatever the handlers decide |
| `Admission.AddOneActive` | src/kubernetes-1.13.4/pkg/kubelet/kubelet.go:2006-2084 | after an addition the pod is active exactly if it was admitted and is not terminated, no other pod changed, and it was handed to a worker, with its mirror pod, exactly if it is active; a mirror pod changes none |
| `Admission.OthersAre` | src/kubernetes-1.13.4/pkg/kubelet/kubelet_pods.go:843-949 | in every run, the others that admission looks at are exactly the pods known before whose status, cached or else their own, is not Succeeded or Failed, and that are not being deleted with every container ended or waiting |
| `Admission.RefusedFails` | src/kubernetes-1.13.4/pkg/kubelet/kubelet.go:1772-1778 | a pod that is not terminated and that some handler refuses becomes Failed, is not handed to a worker, and no other status changes |
| `Admission.DeletedIsEnded` | src/kubernetes-1.13.4/pkg/kubelet/status/status_manager.go:268-287 | a pod that is being deleted and terminated is not handed to a worker; every container and init container is recorded as ended with code 0, and the phase stays |
| `Admission.NameFindsLatest` | src/kubernetes-1.13.4/pkg/kubelet/pod/pod_manager.go:156-205 | in every run, the pod or mirror pod found under a name is the one last made known under it, unless a pod of that name was removed since |
| `Admission.MirrorsTranslated` | src/kubernetes-1.13.4/pkg/kubelet/pod/pod_manager.go:186-203 | in every run, a mirror pod whose pod is known is translated to that pod's UID |
| `Admission.WorkCarriesMirror` | src/kubernetes-1.13.4/pkg/kubelet/kubelet.go:2035-2084 | work for a pod goes out as a creation with the mirror pod of its name; a mirror pod sends its pod out as an update, with that mirror pod |
| `Admission.HaveStopped` | src/kubernetes-1.13.4/pkg/kubelet/kubelet_pods.go:929-936 | yes exactly if every container has ended or waits |
| `Admission.RejectShrinks` | src/kubernetes-1.13.4/pkg/kubelet/kubelet.go:1772-1778 | a rejected pod is not active any more |
| `Admission.DispatchShrinks` | src/kubernetes-1.13.4/pkg/kubelet/kubelet.go:2006-2032 | dispatching never makes a pod active or inactive, and hands exactly the active ones to a worker |
| `Admission.OtherStepKeeps` | src/kubernetes-1.13.4/pkg/kubelet/kubelet.go:2088-2130 | updates, removals and status changes that do not revive a terminated pod never add an active pod |
| `Admission.FilterOutTerminatedPods` | src/kubernetes-1.13.4/pkg/kubelet/kubelet_pods.go:940-949 | exactly the pods that are not terminated |
| `Admission.CanAdmitPod` | src/kubernetes-1.13.4/pkg/kubelet/kubelet.go:1785-1798 | yes exactly if every handler admits; otherwise the reason of the first one that does not |
| `Admission.SortByCreationTime` | src/kubernetes-1.13.4/pkg/kubelet/kubelet.go:2048 | a permutation, oldest first |
| `Admission.Kubelet.constructor` | src/kubernetes-1.13.4/pkg/kubelet/pod/pod_manager.go:132-140 | no pods are known |
| `Admission.Kubelet.GetPods` | src/kubernetes-1.13.4/pkg/kubelet/pod/pod_manager.go:234-238 | exactly the known pods |
| `Admission.Kubelet.AddPod` | src/kubernetes-1.13.4/pkg/kubelet/pod/pod_manager.go:156-205 | a regular pod is indexed by UID and name, a mirror pod in its own indices by UID and name, and the mirror pod's UID is translated to that of the regular pod of its name |
| `Admission.Kubelet.PodIsTerminated` | src/kubernetes-1.13.4/pkg/kubelet/kubelet_pods.go:843-853 | by the cached status if there is one, else by that of the object: a terminal phase, or deleted with no container running |
| `Admission.Kubelet.DispatchWork` | src/kubernetes-1.13.4/pkg/kubelet/kubelet.go:2006-2032 | work of the given kind and with the given mirror pod for a pod that is not terminated; for one that is, its containers and init containers are recorded as ended if it is being deleted |
| `Admission.Kubelet.RejectPod` | src/kubernetes-1.13.4/pkg/kubelet/kubelet.go:1772-1778 | the cached status becomes Failed, nothing else changes |
| `Admission.Kubelet.HandlePodAddition` | src/kubernetes-1.13.4/pkg/kubelet/kubelet.go:2054-2083 | admission sees exactly the active pods known before, and the state becomes what the verdict demands |
| `Admission.Kubelet.HandlePodAdditions` | src/kubernetes-1.13.4/pkg/kubelet/kubelet.go:2046-2084 | a batch is a trace of additions, oldest first, of exactly its pods |
| `PodPhase.GetPhase` | src/kubernetes-1.13.4/pkg/kubelet/kubelet_pods.go:1205-1312 | the phase that the container states mean, as PhaseMeans spells out |
| `PodPhase.PhaseMeans` | src/kubernetes-1.13.4/pkg/kubelet/kubelet_pods.go:1205-1312 | on the container states alone: Pending until all init containers have run and all app containers, of which there are some, run or have run; then Running while one runs, and after that Succeeded if all ended without error and are not restarted, Failed if not and the policy is Never, else Running; but Failed at once if an init container broke under Never |
| `PodPhase.PhaseIsUnique` | src/kubernetes-1.13.4/pkg/kubelet/kubelet_pods.go:1205-1312 | the four meanings exclude each other |
| `PodPhase.TerminalStays` | src/kubernetes-1.13.4/pkg/kubelet/kubelet_pods.go:1316-1343 | over a whole run, once the API server shows a terminal phase and as long as the copies that syncs see show it too, every later report is terminal, and the same one unless a sync handler evicted the pod |
| `PodPhase.ReportTerminalIff` | src/kubernetes-1.13.4/pkg/kubelet/kubelet_pods.go:1316-1343 | a report is terminal if and only if the pod is evicted, the copy seen is terminal, or the containers alone make it so |
| `PodPhase.ReportsTerminalIff` | src/kubernetes-1.13.4/pkg/kubelet/kubelet_pods.go:1316-1343 | the same for any stretch of a run, with copies as old as may be |
| `PodPhase.OldCopyRevives` | src/kubernetes-1.13.4/pkg/kubelet/kubelet_pods.go:1335-1342 | an old copy can bring a pod back: a run in which the server shows Succeeded and the next report is Running |
| `PodPhase.GenerateAPIPodPhase` | src/kubernetes-1.13.4/pkg/kubelet/kubelet_pods.go:1316-1343 | Failed on eviction, else the terminal phase already reported, else what the containers mean |
| `PodPhase.CountInit` | src/kubernetes-1.13.4/pkg/kubelet/kubelet_pods.go:1206-1238 | positive counts exactly if an init container is pending or failed |
| `PodPhase.CountApps` | src/kubernetes-1.13.4/pkg/kubelet/kubelet_pods.go:1240-1272 | how many app containers are in each state |
| `PodPhase.AppCounts` | src/kubernetes-1.13.4/pkg/kubelet/kubelet_pods.go:1274-1312 | the counts decide the states that the phases speak of |
| `Expectations.CounterIsExact` | src/kubernetes-1.13.4/pkg/controller/controller_utils.go:216-387 | in a run in which nothing else sets the delete counter, it is the number of announced deletions not yet seen, so it is never negative, and with no creation outstanding the expectations are fulfilled exactly when none is left |
| `Expectations.WaitsIff` | src/kubernetes-1.13.4/pkg/controller/controller_utils.go:181-220 | in such a run a controller waits if and only if fewer creations were seen than announced last, or an announced deletion is not seen yet, and the announcement is not older than five minutes |
| `Expectations.CreationsAreExact` | src/kubernetes-1.13.4/pkg/controller/controller_utils.go:216-251 | in every run the creation counter is what was announced last less what was seen since |
| `Expectations.NothingAnnounced` | src/kubernetes-1.13.4/pkg/controller/controller_utils.go:181-206 | a controller that announced nothing since it last dropped its expectations does not wait |
| `Expectations.StepExact` | src/kubernetes-1.13.4/pkg/controller/controller_utils.go:216-387 | a step keeps the counter exact if and only if it goes through the UID store or leaves the counter at the number awaited |
| `Expectations.AwaitedIsExpected` | src/kubernetes-1.13.4/pkg/controller/controller_utils.go:338-381 | in every run the awaited UIDs are those announced and since then neither seen, nor replaced by another announcement, nor dropped |
| `Expectations.RunExact` | src/kubernetes-1.13.4/pkg/controller/controller_utils.go:216-387 | the counter stays exact over runs of harmless steps |
| `Expectations.CreationsReset` | src/kubernetes-1.13.4/pkg/controller/controller_utils.go:222-224 | announcing creations while a deletion is awaited resets the counter, and the deletion then takes it to -1 |
| `Expectations.ObservedTwice` | src/kubernetes-1.13.4/pkg/controller/controller_utils.go:357-367 | a deletion seen twice counts once, and one that is not awaited does not count |
| `Expectations.ObservedInAnyOrder` | src/kubernetes-1.13.4/pkg/controller/controller_utils.go:357-367 | deletions may be seen in any order |
| `Expectations.UIDTrackingControllerExpectations.constructor` | src/kubernetes-1.13.4/pkg/controller/controller_utils.go:385-387 | nothing is expected |
| `Expectations.UIDTrackingControllerExpectations.SatisfiedExpectations` | src/kubernetes-1.13.4/pkg/controller/controller_utils.go:181-206 | no exactly if there are expectations that are neither fulfilled nor older than five minutes |
| `Expectations.UIDTrackingControllerExpectations.SetExpectations` | src/kubernetes-1.13.4/pkg/controller/controller_utils.go:216-220 | replaces both counters and the time of this controller |
| `Expectations.UIDTrackingControllerExpectations.LowerExpectations` | src/kubernetes-1.13.4/pkg/controller/controller_utils.go:231-237 | lowers both counters if there are any |
| `Expectations.UIDTrackingControllerExpectations.RaiseExpectations` | src/kubernetes-1.13.4/pkg/controller/controller_utils.go:240-246 | raises both counters if there are any |
| `Expectations.UIDTrackingControllerExpectations.ExpectCreations` | src/kubernetes-1.13.4/pkg/controller/controller_utils.go:222-224 | sets the creations and resets the deletions |
| `Expectations.UIDTrackingControllerExpectations.CreationObserved` | src/kubernetes-1.13.4/pkg/controller/controller_utils.go:249-251 | one creation fewer |
| `Expectations.UIDTrackingControllerExpectations.GetUIDs` | src/kubernetes-1.13.4/pkg/controller/controller_utils.go:330-335 | the awaited UIDs, none if there is no set |
| `Expectations.UIDTrackingControllerExpectations.ExpectUIDDeletions` | src/kubernetes-1.13.4/pkg/controller/controller_utils.go:338-354 | awaits exactly the listed UIDs, each once, and counts them |
| `Expectations.UIDTrackingControllerExpectations.UIDDeletionObserved` | src/kubernetes-1.13.4/pkg/controller/controller_utils.go:357-367 | an awaited UID is taken out of the set and of the counter, any other is ignored |
| `Expectations.UIDTrackingControllerExpectations.DeleteAllExpectations` | src/kubernetes-1.13.4/pkg/controller/controller_utils.go:371-381 | both the set and the counters are gone |
| `NodeConditions.NodeConditionsHaveChanged` | src/kubernetes-1.13.4/pkg/kubelet/kubelet_node_status.go:601-623 | no exactly if, type by type, both lists hold as many conditions, which differ in nothing but the heartbeat, in the same order; hence only if they are permutations up to heartbeat; and with one condition per type exactly if each condition of either has its like, in status, transition, reason and message, in the other |
| `NodeConditions.LikeIsSame` | src/kubernetes-1.13.4/pkg/kubelet/kubelet_node_status.go:614-622 | to agree up to heartbeat is to agree in type, status, transition, reason and message |
| `NodeConditions.MatchedIsSame` | src/kubernetes-1.13.4/pkg/kubelet/kubelet_node_status.go:601-623 | with one condition per type, lists agree exactly if each condition of either has its like in the other |
| `NodeConditions.SortedSame` | src/kubernetes-1.13.4/pkg/kubelet/kubelet_node_status.go:611-612 | stable sorting by type is canonical: sorted lists that agree type by type are equal up to heartbeat |
| `NodeConditions.SameIsPermutation` | src/kubernetes-1.13.4/pkg/kubelet/kubelet_node_status.go:601-623 | lists that agree type by type are permutations up to heartbeat |
| `NodeConditions.PermutationIsSame` | src/kubernetes-1.13.4/pkg/kubelet/kubelet_node_status.go:601-623 | with one condition per type the converse holds |
| `NodeConditions.OrderWithinKindMatters` | src/kubernetes-1.13.4/pkg/kubelet/kubelet_node_status.go:601-623 | two different conditions of one type in another order always count as a change, although they are a permutation |
| `NodeConditions.SortStable` | src/kubernetes-1.13.4/pkg/kubelet/kubelet_node_status.go:611-612 | in place: sorted by type, and the order within each type is untouched |
| `NodeConditions.CompareCopies` | src/kubernetes-1.13.4/pkg/kubelet/kubelet_node_status.go:614-622 | differs exactly if some position differs up to heartbeat |
| `NodeConditions.Copy` | src/kubernetes-1.13.4/pkg/kubelet/kubelet_node_status.go:606-609 | a fresh array with the same contents, so the arguments are not sorted |
| `ClaimPods.SecondPass` | src/kubernetes-1.13.4/pkg/controller/controller_ref_manager.go:66-206 | after a pass over fresh copies without errors, a second pass over the patched pods claims the same pods, sends no patch and asks nothing, if and only if the patches settle their pods |
| `ClaimPods.ClaimedAreOwn` | src/kubernetes-1.13.4/pkg/controller/controller_ref_manager.go:66-206 | whatever the lists, errors and lost patches, a claimed pod matches, and in the copy listed it is this controller's, or nobody's and neither it nor the controller is being deleted |
| `ClaimPods.ClaimsExactly` | src/kubernetes-1.13.4/pkg/controller/controller_ref_manager.go:171-206 | a pass over fresh copies without errors claims, in order, exactly the listed pods that match and whose controller at the server it then is |
| `ClaimPods.PassDecides` | src/kubernetes-1.13.4/pkg/controller/controller_ref_manager.go:66-119 | such a pass releases exactly its own pods that do not match, adopts exactly the matching ones that nobody controls and that are not being deleted, leaves all others as they are, and patches none while the controller is being deleted |
| `ClaimPods.OthersUntouched` | src/kubernetes-1.13.4/pkg/controller/controller_ref_manager.go:171-206 | no pod that is not listed changes |
| `ClaimPods.LostPatchIsError` | src/kubernetes-1.13.4/pkg/controller/controller_ref_manager.go:171-206 | a patch that is lost shows as an error of the pass |
| `ClaimPods.GoneIsNoError` | src/kubernetes-1.13.4/pkg/controller/controller_ref_manager.go:83-117 | with no patch lost and nobody to ask, pods that are gone from the server cause no error and are claimed only if their copies show them as its own |
| `ClaimPods.AdoptsWithConsent` | src/kubernetes-1.13.4/pkg/controller/controller_ref_manager.go:42-49 | over all passes of a manager with a CanAdoptFunc, an adopting patch is sent only after its one call agreed |
| `ClaimPods.ControllerIsFirst` | src/kubernetes-1.13.4/staging/src/k8s.io/apimachinery/pkg/apis/meta/v1/controller_ref.go:33-40 | the controller of a pod is the first reference marked as controller |
| `ClaimPods.OwnerBlindSettles` | src/kubernetes-1.13.4/pkg/controller/controller_ref_manager.go:175-187 | selectors and filters that do not look at owner references always settle |
| `ClaimPods.OrphanFilterFlaps` | src/kubernetes-1.13.4/pkg/controller/controller_ref_manager.go:66-206 | others need not: with a filter for pods without owners the first pass adopts and claims an orphan, and the second releases it again and claims nothing |
| `ClaimPods.AsksOnceEver` | src/kubernetes-1.13.4/pkg/controller/controller_ref_manager.go:42-49 | over all passes of one manager CanAdoptFunc runs at most once, and if it refuses no adopting patch is ever sent |
| `ClaimPods.AsksOnce` | src/kubernetes-1.13.4/pkg/controller/controller_ref_manager.go:171-221 | in one pass an earlier answer is never asked for again, and a refusal makes every adoption an error and claims none of those pods |
| `ClaimPods.PassIsSafe` | src/kubernetes-1.13.4/pkg/controller/controller_ref_manager.go:66-248 | with any list, however stale, and any lost patches, a pass changes nothing but this controller's own references, and no pod ever gets two controllers |
| `ClaimPods.FirstPass` | src/kubernetes-1.13.4/pkg/controller/controller_ref_manager.go:171-206 | a pass over fresh copies without errors claims exactly the pods kept and taken, and patches exactly those taken and dropped |
| `ClaimPods.SettledIsQuiet` | src/kubernetes-1.13.4/pkg/controller/controller_ref_manager.go:66-119 | a patch settles its pod exactly if the pod is then left alone and is owned as decided |
| `ClaimPods.Adopted` | src/kubernetes-1.13.4/pkg/controller/controller_ref_manager.go:210-221 | the adopting patch makes this controller the only one and keeps the references of others |
| `ClaimPods.Released` | src/kubernetes-1.13.4/pkg/controller/controller_ref_manager.go:225-248 | the releasing patch leaves an orphan |
| `ClaimPods.ApiServer.PatchPod` | src/kubernetes-1.13.4/pkg/controller/controller_ref_manager.go:216-229 | a patch is logged; it is refused for a missing pod, another UID or a second controller, and changes owner references only |
| `ClaimPods.PodControllerRefManager.constructor` | src/kubernetes-1.13.4/pkg/controller/controller_ref_manager.go:138-154 | CanAdoptFunc has not been called |
| `ClaimPods.PodControllerRefManager.CanAdopt` | src/kubernetes-1.13.4/pkg/controller/controller_ref_manager.go:42-49 | the first call asks and remembers, later ones repeat the answer |
| `ClaimPods.PodControllerRefManager.Match` | src/kubernetes-1.13.4/pkg/controller/controller_ref_manager.go:175-187 | the selector and all filters |
| `ClaimPods.PodControllerRefManager.GetControllerOf` | src/kubernetes-1.13.4/pkg/controller/controller_ref_manager.go:67 | the first reference marked as controller |
| `ClaimPods.PodControllerRefManager.AdoptPod` | src/kubernetes-1.13.4/pkg/controller/controller_ref_manager.go:210-221 | a refusal is an error without a patch; otherwise one patch is sent |
| `ClaimPods.PodControllerRefManager.ReleasePod` | src/kubernetes-1.13.4/pkg/controller/controller_ref_manager.go:225-248 | one patch is sent; a missing pod or an invalid patch is no error |
| `ClaimPods.PodControllerRefManager.ClaimObject` | src/kubernetes-1.13.4/pkg/controller/controller_ref_manager.go:66-119 | owned by another: ignored; owned and matching: claimed without action; owned and not matching: released; matching orphan: adopted; nothing is patched while the controller is deleted, and a missing pod is no error |
| `ClaimPods.PodControllerRefManager.ClaimPods` | src/kubernetes-1.13.4/pkg/controller/controller_ref_manager.go:171-206 | the claimed pods in order and all errors; an error does not stop the pass |

## Left out

- Clocks, jitter, sleeps, metrics, logging and events: replaced by arbitrary order or parameters, or dropped.
- PodWorkers: the work queue that asks for the next sync, the pod cache and what syncPodFn does; a sync just starts and ends.
- Admission: one pod of a batch is handled in one step; status changes by other goroutines happen between pods. The probe manager, the DNS check and the kill path of HandlePodRemoves are not modelled.
- Admission.Kubelet.AddPod: does not model the pod manager's checkpoints and its registration of secrets and config maps, because they are calls to other components.
- Endpoints, Services: hooks that build richer infos; JoinHostPort, IPPart and the parsing of addresses are parameters.
- SigPrefixes: the JSON encoding of the result.
- SigPrefixes.Compress: requires that there is not exactly one sig, because the loop does not end then (SigPrefixes.StopsIffNotOneSig).
- SigPrefixes.Run: requires the same, for the same reason, and names that normalize has made.
- Scheduler: the scheduling algorithm, preemption and the volume binder are abstract; pods bound by other schedulers, UpdatePod and the node events of the cache are not modelled. Required affinity between pods is not closed under subsets and so is not covered by the notion of fitting.
- Scheduler.ScheduleOne: takes the answers of the calls it makes as parameters and lets nothing happen between them; Scheduler.ScheduleOneIsRun places it among the interleavings of Next.
- Scheduler.RunBinding: lets nothing happen between bind, finish and forget; Scheduler.RunBindingIsRun places it among the interleavings of Next.
- RollingUpdate: 32-bit wrap-around of replica counts, the creation, cleanup and renaming of controllers, the resolution of percentages, AbortRollingUpdate.
- RollingUpdate.Loop: a scale request is honoured in full or fails; what a failed one may have done at the server is not modelled, because the loop ends there.
- OptimisticUpdate: updatePodWithRetries, which repeats the pattern of updateRcWithRetries.
- OptimisticUpdate.UpdateRcWithRetries: requires a version that the server has handed out, because the object was read from it.
- PodPhase: the conditions and container statuses of generateAPIPodStatus beside the phase.
- Expectations: 64-bit wrap-around of the counters, and the separate atomic updates of the two counters of one controller.
- NodeConditions: the merging phase of the library's stable sort; SortStable is its insertion sort, which has the same result.
- ClaimPods: the managers for ReplicaSets and ControllerRevisions, which repeat the same steps, and where in the list a strategic merge puts a new reference.
