# Mechon: a verified model of its reconciler and panel

Mechon hosts bots. A panel keeps subscriptions, bots and deploys in a database and turns each bot row into
a *spec*; an agent on every node converges a container and a disk image onto each spec. Both sides cope with
requests that overtake each other, with failures at any point, and with reconnects. This project models that
logic in Dafny and proves what it keeps.

`dafny verify dfyconfig.toml` checks everything.

| file | what it models |
|---|---|
| `Proto.dfy` | specs, the checks they pass, what the runtime reports |
| `Worker.dfy` | one bot's worker: its request slots, its own fields, and every stretch of code that runs on them, as a class and as functions |
| `WorkerLoop.dfy` | one turn of the worker's loop and one firing of its timer, as methods that run the steps of the reconciler |
| `Reconciler.dfy` | all workers at once: requests, pokes, the drain loop, the worker map and retirement, in every interleaving |
| `Backoff.dfy` | the wait before a crashed bot is restarted |
| `SyncConvergence.dfy` | a full sync and its removal pass, interleaved with the workers |
| `Hub.dfy` | the specs the panel builds from its rows, the set it sends to a node, and what the node ends up with |
| `Volume.dfy` | the disk image and the swap of next/, app/ and prev/, every call failing or not |
| `Docker.dfy` | `Apply`, `Restart` and `Remove` over that volume and one container |
| `Demux.dfy` | cutting Docker's multiplexed log stream into lines |
| `LogHub.dfy` | the panel's log subscriptions and their buffers |
| `Firewall.dfy` | the firewall rules and the replacement of a chain, call by call |
| `Limiter.dfy` | the rate limiter |
| `Quota.dfy` | plan quotas, node capacity and placement, with limits raised and lowered and updates that overlap |
| `Deploys.dfy` | deploy records under progress reports in any order |
| `Termination.dfy` | terminating a subscription, again after a failure, while bots are created on it, statement by statement |
| `Paths.dfy`, `Extract.dfy` | lexical paths; the agent's checks of archive names and links |
| `Artifact.dfy` | the panel's normalisation of an upload |
| `Unpack.dfy` | the agent's extraction, and an upload's whole way from the panel to the bot's directory |

How it is modelled. Objects whose methods change fields are classes; each method is proved equal to a function of
the old state, or against what it promises. Concurrent code is a transition system whose steps are the stretches
of code no other goroutine (or transaction) can split. Engine, filesystem, kernel and database calls are steps
that may fail: which ones do is a parameter (`fails`), so every contract holds for every pattern of failures, and
`history` fields record every intermediate state. Time is a parameter. A Linux container's configuration digest
is the configuration itself. Integers are unbounded; the source's 32-bit sums are assumed not to wrap.
Overcommit is a real, and the truncation of capacity times overcommit, both non-negative, is its floor.

## What the code does not keep

Each of these is a lemma or part of a contract; where a condition decides whether the property holds, it is stated exactly.

- "Treat a failed start like another crash" (`internal/agent/worker.go:309`): the retry timer restarts the bot exactly if the failed restart still reports a stopped container, and the Docker runtime reports none (`Backoff.FailedRestartRetriedIff`, `DockerRuntime.Docker.Restart`).
- After a manual restart a bot runs whatever its spec says; applying a spec then ends in the run state that spec asks for exactly unless it is the one applied already and asks for a stopped bot (`SyncConvergence.ApplyAfterRestart`, `SyncConvergence.SyncSettlesRunState`).
- A bot applied after a sync arrived may be removed by it: exactly if it is not in the sync's set when the list of removals is still to be made, and exactly if it is still on the list afterwards (`SyncConvergence.ApplyDuringSyncRemovedIff`, `SyncConvergence.LateApplyRemovedIffListed`).
- "Every bot it should run" (`internal/panel/hub.go:506`): a bot whose template is gone or whose environment cannot be decrypted is left out of the set, and so removed from the node (`Hub.NodeHoldsItsRows`).
- A spec the panel builds passes the agent's checks exactly if no environment value has a NUL in it; one that has is never applied (`Hub.BuiltSpecValidIff`, `Hub.NulLeavesBotAlone`).
- "On any error the running version is untouched" (`internal/runtime/deploy.go:25-26`): if only writing the record fails, app/ holds the new code under the old id; and if both the second move of the swap and the moving back fail, and in no other case before that, app/ is gone and the old code left in prev/ (`BotVolume.Volume.Deploy`).
- Code left in prev/ in that way is not fetched again: the next apply of the recorded deploy makes an empty app/, finds the record as wanted and runs that. The code that runs is the wanted deploy's exactly if it was fetched now or app/ held it before (`DockerRuntime.Docker.Apply`).
- A deploy record that cannot be read counts as none: applying a spec that names no deploy then deletes the container (`DockerRuntime.Docker.Apply`).
- A growth that extended the image but failed to resize the filesystem is not taken up again for the same size, only when a later, larger size grows it (`BotVolume.Volume.EnsureVolume`).
- A log stream loses the partial line it holds of a stream exactly if it is cut off inside a frame of an unknown stream, and nothing else of what was read (`Demux.NothingLostUnlessSkipping`, `Demux.CutWhileSkippingDropsPartialLines`).
- "Traffic is never unfiltered" (`internal/runtime/firewall.go:43-45`): not if an earlier run got as far as everything but the renaming, from whatever state it started (`Firewall.LeftoverAloneLeaks`, `Firewall.FailedRenameLeaksNextTime`).
- A late failed report takes the bot off a newer deploy that is still on its way (`Deploys.LateFailureAbandonsNewest`). A report about another bot's deploy breaks the one-live, sound-current rule exactly if it makes a second one live or fails the one that bot is on (`Deploys.MismatchBreaksIff`).
- A termination that failed can be taken up again exactly if the status had not been set yet, or a status change that had passed its look can still set it back; otherwise the subscription is terminated and the rest of its bots stay (`Termination.RetryCanFinishIff`, `Termination.FailedTerminationStays`).
- A status change that passed its look at the subscription before it was terminated can revive it (`Termination.StaysTerminatedIff`).
- Two overlapping updates of one bot: the later one is checked against the size the bot had when it was loaded, so a node can end over its capacity. A resize keeps the limits exactly if the node has room beside the size the bot has now (`Quota.StepWithinIff`, `Quota.StaleResizeOverbooks`).
- "Disk can grow but not shrink" (`internal/panel/bots.go:286`): some accepted size of an update shrinks it exactly if the disk has grown since the update was loaded and the plan leaves room for any update of the bot (`Quota.StaleUpdateShrinksIff`, `Quota.DiskOnlyGrows`).
- "Everything created is owned by uid:uid" (`internal/runtime/extract.go:24`): folders created on the way to a listed folder are not (`Unpack.OwnedIff`).

## Model

| member | source | states |
|---|---|---|
| Proto.IdTakenIff | internal/runtime/spec.go:51-53 | which ids are accepted, by their characters |
| Proto.ValidIdIsOnePart | internal/runtime/spec.go:51-56 | an accepted id is one part of a path and starts like a name, so it can stand in paths and container names |
| Proto.SpecTakenIff | internal/runtime/spec.go:60-97 | which specs the agent takes, exactly, by their fields |
| Reconciler.RequestsCoalesce | internal/agent/worker.go:61-99 | any number of requests between two batches leave what a queue of them comes to: the newest apply or removal and its uid, a restart unless a removal came after it, every exit in order; the call in flight is cancelled exactly if one of them supersedes it |
| WorkerLoop.WorkBatch | internal/agent/worker.go:145-169 | one turn of the loop is a run of the reconciler's steps; it takes all that is pending and ends idle, removed, or with the asked spec held and counted as applied exactly if it was skipped as that or its call succeeded |
| WorkerLoop.FireTimer | internal/agent/worker.go:296-316 | a firing timer is a run of the reconciler's steps; it restarts a bot that is to run and crashed, counts that, and is armed again exactly if the restart fails |
| WorkerLoop.ReceiveRequests | internal/agent/worker.go:54-99 | the request methods, called one after another, leave the slots, the cancellation and the token that the requests as a queue come to |
| WorkerLoop.Serve | internal/agent/worker.go:21-23 | whatever requests come between two turns, the next turn does what the newest asks: removed exactly if that is a removal, else holding the newest spec, applied exactly if it was or the call succeeds; a restart no removal overtook is carried out |
| Reconciler.StepInv | internal/agent/worker.go:131-171 | every step of any goroutine keeps the invariant: one worker a bot and that one in the map, slots never both apply and remove, what was carried out a selection of the request log that accounts for all of it |
| Reconciler.NoRequestStranded | internal/agent/agent.go:508-538 | in every interleaving a bot has at most one running worker; one with something pending is running and in the map, and if it is parked a kick or a poke is due |
| Reconciler.NewestRequestWins | internal/agent/worker.go:21-23 | the slots refine the request log: carried-out requests are a selection in order, and an idle bot's last one is the newest request, with exactly its spec held and applied nothing or that spec |
| Reconciler.OnlyValidSpecsApplied | internal/agent/agent.go:369-379 | over every run a worker carries out nothing but removals and specs of its own bot that passed the checks |
| Reconciler.RuntimeAfter | internal/agent/worker.go:193-208 | what the runtime has of a bot after each step: changed only as a call on it returns, to the spec applied and the container reported |
| Reconciler.DrainStepCost | internal/agent/worker.go:145-169 | every step but a new request lowers a measure of the work left in the whole agent, save that a crash restart that fails and reports a stopped container may raise it by less than four |
| Reconciler.DrainTerminates | internal/agent/worker.go:131-171 | without new requests, any schedule of all goroutines and any outcome of the runtime calls ends after at most that many steps, and four more for each such failed restart |
| Reconciler.DrainContinues | internal/agent/worker.go:133-152 | until every worker is parked with nothing on its way, some goroutine can step: no deadlock |
| Reconciler.QuiescentMeansDone | internal/agent/agent.go:526-538 | when nothing more can step, no slot holds a request and every bot's newest request was carried out |
| Backoff.WaitInRange | internal/agent/worker.go:14-19 | over every run a worker has at most one timer armed, with a wait between 1 second and 5 minutes |
| Backoff.DeadlineIsNowPlusBackoff | internal/agent/worker.go:286-293 | only an exit or a failed restart arms the timer, and always for now plus the backoff |
| Backoff.BackoffDoubles | internal/agent/worker.go:286-290 | over any series of crashes from a reset, n in a row that came quickly end in a wait of min(2^(n-1), 300) seconds; a run of ten minutes begins a new row; every restart is counted and the spec kept |
| Backoff.StartedWhenBegins | internal/agent/worker.go:222-224 | the start of a bot is set to the moment at which it is newly seen to run or is restarted by hand, and at no other step |
| Backoff.WhatIsReported | internal/agent/agent.go:340-356 | after a call: the state, exit code, deploy and error that are reported of an instance, exactly |
| Backoff.WhatIsPrimed | internal/agent/agent.go:340-356 | what a worker takes from a container found before any spec is known |
| Backoff.ExitIsReported | internal/agent/worker.go:260-277 | an old container's exit changes nothing; any other is reported with how it ended, as stopped exactly if that was asked for |
| Backoff.RestartsAreReported | internal/agent/worker.go:234-236 | each crash restart counts once, whatever comes of it, and every call reports the count |
| Backoff.WaitCountsCrashes | internal/agent/worker.go:260-337 | over every run, whatever is interleaved and whatever calls come to: a worker's wait is that of its row - one more for a crash less than ten minutes after the present stretch of running began or for a failed restart, one for a later crash, none after a manual restart - and its start of the bot is when that stretch began |
| Backoff.BackoffDoublesInRuns | internal/agent/worker.go:260-316 | every series of crashes and restarts does occur: it is a run of the whole agent, from any state with the worker idle, that ends with that wait and the bot running |
| Backoff.FailedRestartRetriedIff | internal/agent/worker.go:307-314 | the timer armed after a failed restart restarts the bot exactly if the runtime still reported a container that does not run |
| SyncConvergence.MoveInv | internal/agent/agent.go:467-506 | every move of the sync or of any worker keeps: sent specs are applied or owed, bots outside the set are gone, owed a removal, or still to be removed |
| SyncConvergence.SyncConverges | internal/agent/agent.go:465-506 | from any reachable state, a sync drained without failure leaves the runtime with every valid synced bot on its last valid spec and no bot outside the set |
| SyncConvergence.SyncSettlesRunState | internal/agent/agent.go:465-506 | a synced bot for which no restart or exit was waiting also ends in the run state its spec asks for, unless its worker took that very spec as applied while the container was in another; exactly unless, if the worker owed nothing |
| SyncConvergence.InvalidSpecLeftAlone | internal/agent/agent.go:465-477 | a well-named bot with no valid spec in the set is asked nothing at any point of the sync |
| SyncConvergence.RepeatedSyncAppliesNothing | internal/agent/worker.go:193-197 | repeating a converged sync with distinct ids: at no point of it is any worker inside an Apply |
| SyncConvergence.MoveDecreases | internal/agent/agent.go:467-506 | every move lowers a well-founded measure of sync and workers together |
| SyncConvergence.SyncContinues | internal/agent/agent.go:467-506 | until the sync is handed out and all workers are parked, some move is possible |
| SyncConvergence.RemovalsAsk | internal/agent/agent.go:499-504 | handing out the removals asks each bot for exactly what the list says: one removal if it is on it, nothing if not |
| SyncConvergence.LateApplyRemovedIffListed | internal/agent/agent.go:499-504 | a bot applied while the removals are handed out is gone from the runtime in the end if it is still on the list, and there on its spec if not |
| SyncConvergence.ApplyDuringSyncRemovedIff | internal/agent/agent.go:481-504 | a bot applied between a sync's arrival and the making of the list is gone in the end exactly if it is not in the set, and else on its spec |
| SyncConvergence.ApplyAfterRestart | internal/agent/worker.go:332-336 | after a successful manual restart, an apply ends in the run state its spec asks for exactly unless the spec is applied already and asks for a stopped bot |
| Hub.BuiltSpecValidIff | internal/panel/hub.go:474-504 | the spec of a valid row passes the agent's validation exactly if no environment value has a NUL in it |
| Hub.SyncSet | internal/panel/hub.go:474-521 | one spec for each row that can be built and nothing else, telling just what the row says: to run exactly if it is not stopped, its subscription active and its owner not suspended; its own limits; a deploy exactly if it has one with an artifact; no two bots on one uid |
| Hub.NodeHoldsItsRows | internal/panel/hub.go:506-525 | from the panel's rows to the runtime: after a drained sync each buildable, NUL-free bot is there on a spec that tells just what its row says, and no bot without a buildable row is |
| Hub.NodeRunsItsRows | internal/panel/hub.go:484-487 | and it is not down if its row says it is to run, and not up if not, unless a restart or an exit was waiting or its worker took the spec as applied in another run state |
| Hub.NulLeavesBotAlone | internal/agent/agent.go:470-477 | a bot with a NUL in its environment is asked nothing at any point of a sync |
| BotVolume.Volume.CreateVolume | internal/runtime/volume.go:80-99 | a new image of the asked size with an empty filesystem in it, no code and no record; or no image if clearing up works, and one without a filesystem if not |
| BotVolume.Volume.Grow | internal/runtime/volume.go:150-162 | the image is extended exactly if that call works, and the filesystem exactly if all calls do |
| BotVolume.Volume.EnsureVolume | internal/runtime/volume.go:74-146 | an existing image never shrinks and ends as large as asked or as it was; a shrink is reported exactly when asked for; the filesystem has the asked size exactly if made or grown now or right before; a fresh image has an empty app/ and no record; it fails exactly if a call this volume needs does; a volume as asked is not touched |
| BotVolume.Volume.BuildNext | internal/runtime/deploy.go:44-65 | the new tree is whole in next/ exactly if every call works, and nothing but next/ changes at any moment |
| BotVolume.Volume.Swap | internal/runtime/deploy.go:67-80 | at every moment the old tree is whole in app/ or prev/; success moves next/ to app/ and app/ to prev/; a failure leaves app/ as it was exactly unless the second move and the moving back both fail |
| BotVolume.Volume.Deploy | internal/runtime/deploy.go:25-83 | over a whole deploy with any failures: wherever it stops the recorded code is whole in app/ or prev/, the record never names code that is not in app/, new code once in app/ stays; the stages and the end state of success, the end state and of every failure, app/ lost in exactly one pattern, and the one stale-record case |
| DockerRuntime.ConfigOfIs | internal/runtime/docker.go:334-364 | what a container is set up with for a spec and a deploy, field by field, and that its label tells any two apart |
| DockerRuntime.Docker.Destroy | internal/runtime/docker.go:262-275 | succeeds exactly if stopping and removing do; a failed one leaves the same container, at most stopped |
| DockerRuntime.Docker.Obtain | internal/runtime/docker.go:195-212 | a container of exactly this configuration: one that has it is not touched, and one is made exactly if there was none or one made for another configuration |
| DockerRuntime.Docker.Converge | internal/runtime/docker.go:177-227 | from any container, success means one set up for spec and deploy in the run state asked for (none if nothing is deployed); such a one is not touched, one set up right survives every failure, and one is made exactly if there was none set up so - always for another deploy |
| DockerRuntime.Docker.ApplyCode | internal/runtime/docker.go:148-165 | when a deploy is attempted, what is recorded and in app/ afterwards, and which error is reported, for every pattern of failures, a failed reading of the record included |
| DockerRuntime.Docker.Apply | internal/runtime/docker.go:141-175 | self-stabilising from any record and container; a second Apply changes nothing; the image never shrinks; without an image every named deploy is attempted; a failed deploy keeps app/ exactly unless its one losing pattern occurs, and still converges; the wanted code runs exactly if fetched now or there before; one outcome a deploy, live only if recorded and converged on a container made for it |
| DockerRuntime.Docker.Restart | internal/runtime/docker.go:397-419 | never creates or deletes a container, and reports no container whenever it fails |
| DockerRuntime.Docker.Remove | internal/runtime/docker.go:368-395 | the image is only deleted once nothing runs on it and it is unmounted, code and record go with it and not before, and removing what is gone succeeds |
| DockerRuntime.Docker.RemoveAndApply | internal/runtime/docker.go:141-175 | a removed bot that is applied again is deployed anew, even with the same deploy, and matches its spec if nothing fails |
| Demux.ScanChunk | internal/runtime/dockerapi.go:437-451 | one chunk: the loop hands over and keeps what the scanning function says |
| Demux.ReadPayload | internal/runtime/dockerapi.go:428-452 | a payload in chunks, cut short only at a whole chunk |
| Demux.DemuxLines | internal/runtime/dockerapi.go:396-454 | for every input, complete or cut anywhere: the lines the run over it hands over, in order, and an error exactly if reading fails in a header |
| Demux.RunFrames | internal/runtime/dockerapi.go:410-421 | complete frames are taken apart exactly as they were put together |
| Demux.FramingDoesNotMatter | internal/runtime/dockerapi.go:396-454 | with all lines short, whatever the framing, interleaving and chunks: the lines of a stream are its text split at newlines, a last partial one included |
| Demux.NothingLost | internal/runtime/dockerapi.go:396-454 | with lines of any length: a stream's pieces make up its text without newlines, nothing crosses streams, and no piece exceeds the maximum less one plus a chunk |
| Demux.NothingLostUnlessSkipping | internal/runtime/dockerapi.go:396-454 | for every input and wherever it is cut: the pieces of a stream make up what was read of it exactly unless the input ends in a frame of an unknown stream while a partial line is held, and that line is all that is missing |
| Demux.LinesOfCutInput | internal/runtime/dockerapi.go:396-454 | with short lines, exactly which lines a cut input gives |
| Demux.CutWhileSkippingDropsPartialLines | internal/runtime/dockerapi.go:421-425 | an input for which that happens |
| LogHub.LogHub.Subscribe | internal/agent/logs.go:43-50 | a fresh subscription with an empty buffer replaces the bot's old one |
| LogHub.LogHub.Drain | internal/agent/logs.go:139-143 | one buffer is handed over whole and in order, in batches of 1 to 500 lines |
| LogHub.LogHub.Flush | internal/agent/logs.go:128-151 | whatever order the map is walked in, every bot's buffer is handed over whole and ends empty |
| LogHub.BuffersStayBounded | internal/agent/logs.go:16 | over every run no buffer exceeds 10000 lines |
| LogHub.HandedAreSurvivors | internal/agent/logs.go:87-97 | over every run a bot's lines are handed over in order and at most once, all but those with 10000 newer ones before the next tick and those of a subscription that ended |
| LogHub.OnlySurvivorsAreHanded | internal/agent/logs.go:128-151 | the same from an empty hub, where exactly the surviving lines are handed over |
| Firewall.LettingRules | internal/runtime/firewall.go:110-117 | the first rules match exactly established traffic and questions to allowed resolvers, and drop none |
| Firewall.EgressRules | internal/runtime/firewall.go:110-121 | forwarded traffic is dropped exactly if bound for a blocked net and not let through |
| Firewall.BlockedIsLocal | internal/runtime/firewall.go:22-34 | an address is in a blocked net exactly if its octets make it private, loopback, link-local, shared, benchmarking, multicast or reserved |
| Firewall.EgressByAddress | internal/runtime/firewall.go:110-121 | a packet to an address is dropped exactly if that is such an address and it is not let through |
| Firewall.Holes | internal/runtime/firewall.go:90-103 | the resolvers that get a hole: exactly the IPv4 ones at such addresses |
| Firewall.ResolversAreReached | internal/runtime/firewall.go:87-121 | every resolver a node is given is reached on port 53, and no other new traffic to such an address gets out |
| Firewall.InputRules | internal/runtime/firewall.go:126-136 | traffic to the host is dropped exactly if not let through |
| Firewall.Iptables.DeleteJumps | internal/runtime/firewall.go:76-83 | terminates; takes out only jumps to that chain, at every call; without failures takes out all |
| Firewall.Iptables.PrepareTemporary | internal/runtime/firewall.go:46-52 | the old chain and every other jump are untouched at every call; an empty temporary chain, or the leftover one if clearing failed |
| Firewall.Iptables.AppendRules | internal/runtime/firewall.go:53-57 | the rules end up behind what the temporary chain held, and nothing else changes at any call |
| Firewall.Iptables.BuildTemporary | internal/runtime/firewall.go:46-60 | the traffic stays guarded at every call, and success puts a complete chain in front |
| Firewall.Iptables.DropNamed | internal/runtime/firewall.go:61-71 | the new chain stays in front at every call |
| Firewall.Iptables.ReplaceChain | internal/runtime/firewall.go:43-74 | after every single call, whichever fail: the old chain as it was is in force or a complete new one is in front, and foreign rules keep their order; success with the leftover cleared leaves exactly one jump to exactly these rules; what is left if only the renaming fails |
| Firewall.GuardedBlocks | internal/runtime/firewall.go:43-45 | in a guarded state, a packet that the new rules drop and that was dropped without the temporary chain's help is dropped |
| Firewall.LeftoverAloneLeaks | internal/runtime/firewall.go:48-50 | a failure-free replacement passes a state that drops a packet exactly if it was dropped without the temporary chain's help |
| Firewall.FailedRenameLeaksNextTime | internal/runtime/firewall.go:43-74 | for any kernel and rules: after a replacement of which only the renaming fails, what its rules drop is dropped; the next one passes a state where it is not, unless a rule of someone else drops it |
| Limiter.Limiter.Sweep | internal/panel/ratelimit.go:44-53 | drops exactly the expired windows |
| Limiter.AtMostTwiceTheLimit | internal/panel/ratelimit.go:8-36 | over every run, any interval as long as the window has at most 2*max allowed attempts with both ends, 2*max-1 with one |
| Limiter.AllowedIffAmongFirst | internal/panel/ratelimit.go:25-36 | after any run of attempts, sweeps and resets: an attempt is allowed exactly if it is among the first max of its window, refused ones counted |
| Limiter.TwiceTheLimitIsReached | internal/panel/ratelimit.go:25-36 | for every limit and window, a run that reaches the bound |
| Limiter.SweepingChangesNoAnswer | internal/panel/ratelimit.go:25-53 | removing all sweeps from any run changes no answer |
| Quota.UsedExcept | internal/db/subscriptions.sql.go:267-274 | leaving one bot out of a subscription's usage takes away exactly its part |
| Quota.OverrideDecides | internal/panel/tenancy.go:499-512 | where a subscription sets a limit itself, what its plan says there makes no difference |
| Quota.Panel.CheckQuota | internal/panel/bots.go:137-158 | refuses exactly if the bot does not fit beside the others, each limit the subscription's own if it sets one and else the plan's, with a reason that holds |
| Quota.TakesIff | internal/panel/bots.go:268-273 | rounding capacity down refuses nothing that fits: a node takes a bot exactly if it is online, not in maintenance, has gVisor for a hardened one, and memory and CPU times overcommit and real disk suffice |
| Quota.Panel.Place | internal/panel/bots.go:261-283 | no node only if none takes the bot; else the first of those with the most free memory |
| Quota.Panel.CreateBot | internal/panel/bots.go:162-259 | creates the bot exactly if its sizes, the subscription, its own or its plan's limits and some node allow it, on the best node, and otherwise changes nothing |
| Quota.Panel.FitsNode | internal/panel/bots.go:358-376 | whether the bot's own node is online and has room for the new size, the old one not counted |
| Quota.Panel.UpdateLoaded | internal/panel/bots.go:306-347 | resizes exactly if sizes, own or plan limits and, when it grows what was loaded, the node allow it, whatever came between the loading and the check |
| Quota.Panel.UpdateBot | internal/panel/bots.go:285-356 | an update that nothing comes between resizes exactly if owner, sizes, quota and node allow it, otherwise changes nothing, and keeps everything within its limits |
| Quota.Panel.DeleteBot | internal/panel/bots.go:378-392 | marks the bot deleted exactly if it is there and the caller's |
| Quota.StepWithinIff | internal/panel/bots.go:137-158 | every create, delete, resize and change of a plan, a subscription or a node keeps everything within its limits exactly if it leaves room |
| Quota.StaysWithinLimitsIff | internal/panel/bots.go:137-376 | over every run of them, every subscription fits its effective plan and every node its capacity at every moment exactly if each step leaves room |
| Quota.SetPlanWithinIff | internal/panel/tenancy.go:130-157 | a changed plan keeps everything within its limits exactly if every subscription on it fits its own effective form of the new plan |
| Quota.AllocationsFit | internal/panel/tenancy.go:130-131 | whatever was lowered before, an accepted create leaves its subscription within its limits as they are now, and an accepted resize within its sizes |
| Quota.UsageNeverGrowsOver | internal/panel/tenancy.go:130-131 | over every run, a subscription's use never exceeds the larger of its use at the start and the highest limit it had, in any respect |
| Quota.FreshResizeLeavesRoom | internal/panel/bots.go:358-376 | a resize checked against the bot as it is now, or as it was when no larger, leaves room |
| Quota.StaleResizeOverbooks | internal/panel/bots.go:288-338 | two overlapping updates after which a node is over its memory |
| Quota.StaleUpdateShrinksIff | internal/panel/bots.go:285-313 | some accepted size of an update shrinks the bot's disk exactly if the disk grew after the update was loaded and its plan leaves room for any update; it does if nothing is over its limits |
| Quota.DiskOnlyGrows | internal/panel/bots.go:285-313 | over every run in which each update was loaded with no less disk than the bot has, no bot's disk ever shrinks |
| Deploys.Table.CreateDeploy | internal/db/deploys.sql.go:29-34 | the bot's highest number plus one, queued, at the end of the table |
| Deploys.Table.Supersede | internal/db/deploys.sql.go:222-250 | supersedes exactly the bot's live, or pending, deploys but one |
| Deploys.Table.LastLiveDeploy | internal/db/deploys.sql.go:128-130 | the bot's live deploy with the highest number, none only if none is live |
| Deploys.Table.StartDeploy | internal/panel/deploys.go:196-221 | the new deploy is current and the only pending one of the bot, or nothing happens |
| Deploys.Table.OnDeployProgress | internal/panel/hub.go:409-461 | the effect of a report with any phase, deploy and bot |
| Deploys.OwnReport | internal/panel/hub.go:409-461 | a report about the bot's own deploy, by its phase: live makes it the only live one and leaves the current one, failed sends the bot back to its last live one or none, fetching and installing only say so, anything else does nothing |
| Deploys.NewDeploy | internal/panel/deploys.go:196-221 | a started deploy is current, queued and numbered above all others; those on their way are superseded, a live one and other bots' are not |
| Deploys.DeploysStayOkIff | internal/panel/hub.go:409-461 | under any order of reports and deploys, at every moment: numbers 1 to n in creation order, at most one live deploy a bot, a current deploy that is none or the bot's own and not failed; exactly if every report is harmless, as those about the bot's own deploy are |
| Deploys.NumberedOrdered | internal/db/deploys.sql.go:29-34 | a bot's later deploy has a higher number |
| Deploys.LastLiveIsTheLiveOne | internal/db/deploys.sql.go:128-130 | the query finds a deploy exactly if it is the bot's one live deploy |
| Deploys.LateFailureAbandonsNewest | internal/panel/hub.go:448-458 | any failed report moves a bot off its pending deploy, which stays pending exactly if it is not the one that failed |
| Deploys.MismatchBreaksIff | internal/panel/hub.go:409-461 | a report that names another bot than its deploy's breaks that exactly if it makes a second deploy of the bot live or fails the one it is on |
| Termination.StepInv | internal/panel/tenancy.go:671-707 | every statement keeps: the lock has one holder; once the status is set no transaction gets in, and every bot is deleted or listed |
| Termination.TerminatedHasNoBots | internal/panel/tenancy.go:671-707 | however createBot transactions and deletions interleave, a finished termination leaves no bot and none on its way |
| Termination.RefusedForGood | internal/panel/tenancy.go:637-640 | a creation or a status change that is refused for the status never goes on, whatever comes after, and a change sets the status only once |
| Termination.StaysTerminatedIff | internal/panel/tenancy.go:632-679 | a terminated subscription can get a bot later exactly if another status change had passed its look at the status |
| Termination.RevivalHappens | internal/panel/tenancy.go:632-679 | a run in which that happens |
| Termination.RetryCanFinishIff | internal/panel/tenancy.go:637-679 | after a termination that failed anywhere, a later request can be carried through exactly if the status had not been set, or another change that passed its look can set it back |
| Termination.FailedTerminationStays | internal/panel/tenancy.go:637-640 | if not, the bots that were left stay undeleted, whatever else happens but deletions by their owner |
| Termination.FailureHappens | internal/panel/tenancy.go:637-707 | a run that leaves a bot only its owner can delete |
| Termination.TerminatedForGood | internal/panel/bots.go:196-249 | with createBot transactions and deletions alone there is no bot then, nor ever after |
| Extract.LinkAcceptedIff | internal/runtime/extract.go:130-145 | a link is accepted exactly if its target is non-empty, relative, NUL-free and its walk from the link's directory never leaves the root |
| Extract.RootLinkAcceptedIff | internal/runtime/extract.go:130-145 | the same for a target taken from the root |
| Extract.SafeNamesAreSafe | internal/runtime/extract.go:114-128 | an accepted name becomes "." or plain names below the root |
| Artifact.TarGzEntries | internal/panel/artifact.go:137-188 | accepted exactly if all names are good, only folders and files occur, and count and total fit; then exactly the kept members in order |
| Artifact.SoleRoot | internal/panel/artifact.go:190-207 | the one top-level directory everything lies under, or none |
| Artifact.StripCommonRoot | internal/panel/artifact.go:190-217 | strips that directory from every name and drops its own entries, or changes nothing |
| Artifact.WriteNormalised | internal/panel/artifact.go:219-287 | written exactly if there is a file, the total fits and no name has a NUL in it; every entry in order |
| Artifact.Normalise | internal/panel/artifact.go:49-83 | taken exactly if it is acceptable, has a file, fits and keeps no name with a NUL; then exactly its entries without their common root are written, in order, each accepted by the agent and read back as the entry's |
| Artifact.CleanNameIs | internal/panel/artifact.go:85-104 | which names are refused (rooted, with a drive, climbing), which dropped (nothing left, or what macOS adds), and that any other is kept as its telling parts in order |
| Artifact.KeptNameIsGood | internal/panel/artifact.go:85-104 | a kept name is made of plain names without backslash, and has no NUL the upload did not have |
| Artifact.WrittenIsReadBack | internal/runtime/extract.go:114-128 | the agent reads a written name back as the entry's, unless a NUL is in it |
| Artifact.StrippingRoundTrip | internal/panel/artifact.go:190-217 | putting the root back gives the entries again, in order, all but the root's own, which are folders |
| Artifact.StrippingKeepsDistinct | internal/panel/artifact.go:190-217 | different paths stay different |
| Unpack.Root.MkParents | internal/runtime/extract.go:147-168 | creates exactly the missing folders above a member, the bot's user's; fails exactly if a file is in the way before the last place |
| Unpack.Root.MkdirAll | internal/runtime/extract.go:51-57 | creates exactly the missing folders of a path, the agent's user's; fails exactly if a file is among them |
| Unpack.Root.ExtractTarGz | internal/runtime/extract.go:20-112 | succeeds exactly if all names are safe, no file is at or above another member's place and the sizes fit; then the directory holds exactly the files written, and their folders |
| Unpack.OwnedIff | internal/runtime/extract.go:20-24 | a place belongs to the bot's user exactly unless no member is for it and a folder member first created it on its way |
| Unpack.LoneFolderLeavesParents | internal/runtime/extract.go:51-57 | a folder listed without those above it leaves them the agent's |
| Unpack.Deliver | internal/runtime/deploy.go:134-136 | an upload is taken exactly if acceptable, and then extracted exactly if no file is at or above another entry's place; then the directory holds exactly the upload's own files, with their contents, and their folders |

## Left out

- Transports and foreign calls: WebSocket, HTTP, JSON, TLS, the Docker Engine API, git, gzip, tar and zip decoding, mount and mkfs are steps that may fail, or are absent.
- Postgres, migrations and generated query code: each SQL statement the model needs is one step on a table.
- Cryptography: digests are injective labels, tokens and sessions are absent.
- The web interface, sessions, API keys, audit, settings, webhooks, metrics and usage queries, files and statistics: they would only add easy members.
- The order in which the panel's pushes reach an agent: every push is sent by its own goroutine, so newest-wins is stated for requests as the agent receives them.
- Contexts and shutdown: that a call's context is cancelled is recorded, not that the runtime obeys; a worker that stops because the agent does is absent, and a request that lands before a call's context exists does not cancel it.
- State frames the agent sends, and the suppression of equal ones.
- Wall-clock time, jitter, ping timeouts and reconnect pacing; timers fire at any time after they are armed.
- `hostname` is a parameter of the container's configuration, and the parts of it that come from the node's own settings are constant.
- The install container, `Logs` and `List` of the runtime, its event stream and its expected-exit bookkeeping.
- Log subscriptions: the tail that answers the request, and the goroutine that follows the container's output.
- `checkFirewall`, and parsing the resolvers' addresses.
- Uploads in zip form: their names and entries go the same way as those of a tar archive.
- Symbolic and hard links while extracting: their targets are checked by the modelled functions, but the extracted tree has folders and files only, and so are setuid bits and file modes but for the execute bit.
- `path.Clean`, `path.Dir` and `path.Join` are modelled on the parts between slashes, as Go documents them.
- Go's tar writer: only that it refuses a name with a NUL in it.
- The worker's `run` as one loop: other goroutines act between its statements, so its whole life is the worker's steps in `Reconciler.dfy`; `WorkerLoop.dfy` has one turn of it with nothing coming between.
- SyncConverges: assumes no other request during the sync; `ApplyDuringSyncRemovedIff` and `LateApplyRemovedIffListed` say what one does.
- NodeHoldsItsRows: assumes what the tables' constraints and the checks before writes make sure of, such as UUIDs and 64-digit digests, and built-in templates with an image and a start command.
- StaysWithinLimitsIff: a `createBot` transaction is one step. Two on different subscriptions can interleave up to the query for candidate nodes, which locks the nodes; what that query reads after waiting for such a lock is not modelled.
- DeploysStayOkIff: each handler is one step.
- TerminatedHasNoBots: one terminating request at a time, a new one after a failure; the same statement for overlapping ones needs no more ideas.
- ReplaceChain: the parent's other rules are kept in order but may be any; a packet they let go before the jump was never filtered.
- AtMostTwiceTheLimit: for a key that is never reset, as a reset is meant to allow more.
