# Verified model of the Chutes validator API

The validator schedules miners' GPUs behind private and public "chutes", bills their use and scores the miners. This
project models the parts of it that keep state and that race with each other, and proves what they keep over whole
runs.

The handlers that write a shared table are steps on one state, with their commit as the atomic point: a handler that
raises before it commits changes nothing, a rejection that commits first persists, and a handler that sleeps between its
transactions is several steps. What a handler asks of the network, of S3, of a token or of a hardware proof is an
arbitrary outcome carried by the step. Each such handler is also written as a method on a class with the handler's own
fields, branches and loops, and its `ensures` equates the new state with the step; the theorems are about runs of steps.

| file | what it models |
|---|---|
| `Launch.dfy`, `LaunchSafety.dfy`, `LaunchFacts.dfy`, `LaunchEffects.dfy`, `LaunchDesk.dfy` | launch configs, instances, GPU rows and jobs: tables and steps, the invariant, its consequences, what exactly changes each fact, the handlers in place |
| `JobHistory.dfy`, `JobOutcome.dfy`, `Verification.dfy` | the miner history of a job, the outcome of a job and the verdict on a launch config, each under overlapping requests |
| `Rollout.dfy` | deploys, image upgrades, rolling-update handlers and the watchtower's cleanup of one fleet of chutes |
| `PrivateCap.dfy` | the instance cap of a private chute under activations, passes and bounties |
| `Autoscaler.dfy`, `Downsizing.dfy` | the autoscaler's decision loop and its removal loop |
| `Routing.dfy`, `Connections.dfy`, `Prefixes.dfy` | least-connection target lists, the tracked connections, the prefix sizes |
| `Ledger.dfy`, `Pricing.dfy`, `Gpu.dfy` | the pending ledger and its flush, the price of a call, the GPU price list |
| `Scoring.dfy` | the scores of a scoring interval |
| `Affine.dfy` | acceptance of affine chute code by its syntax tree |
| `AdaptiveEma.dfy` | the adaptive moving average |
| `Base.dfy` | nullable columns and facts about finite sets |

Amounts, rates and scores are `real`; times are integers except where the source subtracts fractions of a second. A
draw from `random` is any choice.

## Where the code does not keep what it seems to promise

Each of these is proved, with the exact condition under which the promise holds.

- **A losing claim evicts the winner of a job.** The loser's config is marked failed, and the trigger
  `fn_reset_job_assignment` (`api/migrations/20250705010101_jobs.sql:60-73`) then clears the job's holder and instance,
  which are the winner's. `LaunchFacts.HolderIsLost` says beforehand when a holder loses a job, and `LaunchFacts.LosingClaimEvicts`
  that every losing claim does it. The second transaction of a claim fires the trigger again, so a config claimed anew
  after a failure evicts whoever took the job meanwhile (`LaunchFacts.ReclaimEvictsLater`). (The ORM class still names the constraint `uq_job_launch_config`; the migration
  `20250720084231` drops it, and the model follows the migrations.)
- **A job's finish time can be written twice.** The billing loop commits job by job from one query and does not look
  again (`LaunchFacts.FinishedIsFrozen`, `LaunchFacts.StaleBillingRewrites`). Nothing else rewrites it.
- **`purge` never fails the job of the instance it deletes**, because the foreign key clears the reference before the
  job is looked up (`LaunchFacts.PurgeLeavesJobUnfinished`).
- **The cap of a private chute needs serialised activations.** With two between check and commit the count passes every
  number (`PrivateCap.CapHoldsIffSerialised`).
- **The flush deducts twice what a scan returns twice**; Redis does not promise that SCAN returns a key once. It is exact
  if and only if the repeated positions add up to nothing (`Ledger.RepeatedKeyOvercharges`).
- **A watchtower purge can remove a current instance**, exactly when the last deploy since the comparison named the
  instance's own version again (`Rollout.PurgeRemovesCurrentIff`, `Rollout.PurgeCanRemoveCurrent`).
- **An image upgrade that overlaps a deploy writes a rolling-update record for the replaced version**, and the handler of
  that record then deletes the current instances and spares the old ones. The first such overlap is exactly when the
  records stop naming current versions (`Rollout.UpdatesNameCurrentVersion`, `Rollout.OverlappingUpgradeMisnames`,
  `Rollout.MisnamedUpdateDeletesCurrent`).
- **A claim that a deploy overlaps launches the replaced version**, uncounted by the deploy's record
  (`Rollout.LateClaimIsBehind`).
- **A deploy during the last transaction of an update handler loses its record**, which that transaction deletes by its
  key (`Rollout.LateDeployLosesRecord`).
- **Overlapping requests for a job's launch config break "at most 15 miners" and "none twice"**; with at most k at a time
  the bounds are 14 + k and k, and both are reached (`JobHistory.PromisesHoldIffSerialised`).
- **Overlapping verifications leave a config both verified and failed**, with its verified instance deleted
  (`Verification.OneVerdictIff`, `Verification.VerifiedIsKeptIff`); but an instance that exists always matches its config
  (`Verification.InstanceMatchesConfig`).
- **A job can be "complete" over files that were just reset**, when completing overlaps finishing
  (`JobOutcome.CompleteMeansUploadedIff`); and an upload that commits after its file's declaration was dropped sets the
  column with all files to null (`JobOutcome.LateUploadErases`).
- **A higher utilisation can lower an autoscaling target**; `Autoscaler.TargetsFollowLoad` has the condition, for any
  rate-limit ratios.
- **A chute discount outside (-3, 1] is advertised but not billed** (`Pricing.BilledAsAdvertised`).
- **Accepted affine code may rebind `chute`** after the builder call (`Affine.RebindingIsAccepted`), and a call is compared
  with the refused functions only when its function is written as a name or an attribute (`Affine.ComputedCallIsAccepted`).
  The builder's result survives exactly if nothing later binds the name and the top level does nothing the check leaves
  open (`Affine.BuilderSurvivesIff`).

## Model

| member | source | states |
|---|---|---|
| LaunchSafety.EveryRunIsSafe | api/instance/router.py:458-831 | in every reachable state an active instance is verified and its config was claimed and is verified; no config is both verified and failed; a config has at most one instance and only one claim of it ever created one; no GPU is held twice, and each instance holds exactly its selector's number of verified, suitable GPUs of its miner on its host; job histories contain the holder and, handlers being atomic here, are distinct and at most 15 long; "complete" implies every file uploaded |
| LaunchSafety.StepKeeps | api/instance/router.py:368-831 | every handler keeps that invariant, from any state that has it |
| LaunchSafety.ClaimKeeps | api/instance/router.py:458-746 | so does a claim, through each of its committing and rolled-back exits |
| LaunchSafety.VerifyKeeps | api/instance/router.py:872-1075 | so does a verification, through each of its exits (what each does is `LaunchEffects.VerificationDecides` and `LaunchEffects.RejectionDeletes`) |
| LaunchSafety.CompleteKeeps | api/job/router.py:379-417 | so does closing a job, with its instance deleted |
| LaunchSafety.BillingKeeps | balance_refresher.py:57-76 | so does a billing termination, however stale its batch |
| LaunchFacts.BilledAtMostItsGpus | api/instance/router.py:609-629 | an instance's stored hourly rate is at most the sum of the hourly rates of the GPUs it holds |
| LaunchFacts.InstancesComeFromClaims | api/instance/router.py:610-638 | only a claim creates an instance, and no config's second claim does |
| LaunchFacts.RemovalFreesGpus | api/instance/router.py:283-341 | in every reachable state, deleting an instance undoes its claim: the very GPUs it held pass every check again for the same miner, chute and host, and no GPU of another instance comes free |
| LaunchFacts.FinishedIsFrozen | balance_refresher.py:34-60 | no handler touches a finished job's status, files or finish time; the finish time changes exactly when the billing loop reaches, at another time, a job that finished after it was selected |
| LaunchFacts.OutcomeIsFinal | api/job/router.py:276-305 | over any run without such a stale turn, a finished job keeps its outcome |
| LaunchFacts.StaleBillingRewrites | balance_refresher.py:34-60 | such a turn does happen after any run: selection, deletion by the miner, billing |
| LaunchFacts.HistoryIsKept | api/instance/router.py:420-427 | a job's miner history only ever grows at its end |
| LaunchFacts.EveryHolderIsInHistory | api/instance/router.py:406-427 | whoever held a job at any time of a run is in its history, which for atomic handlers has at most 15 entries and none twice |
| LaunchFacts.HolderIsLost | api/migrations/20250705010101_jobs.sql:60-73 | a held job leaves its holder exactly under a guard that can be told beforehand: an unretrieved config for it is claimed without an exception (one that failed for its GPUs before, as far as price, ports and encryption let it), the second transaction of a claim stamps a config for it that has failed before or since, a verification of any config for it fails or finds no instance, or the holder releases it unfinished |
| LaunchFacts.LosingClaimEvicts | api/instance/router.py:594-606 | a claim that loses the race clears the winner's hold on the job while the winner's instance runs on |
| LaunchFacts.ReclaimEvictsLater | api/instance/router.py:722-728 | a config that failed before and is claimed again evicts whoever takes its job between the two transactions of that claim, while the evicted miner's instance runs on |
| LaunchFacts.PurgeLeavesJobUnfinished | watchtower.py:198-227 | a purge leaves the instance's job as it was but for the reference; a deletion by the miner finishes it if it was unfinished |
| LaunchFacts.LaunchSucceeds | api/instance/router.py:749-831 | a config whose job, if any, is free becomes an active verified instance with exactly its GPUs by one claim, verification and activation, and its miner then holds the started job |
| LaunchEffects.RejectionDeletes | api/instance/router.py:903-1008 | a failed verification of a config deletes its instance with every GPU row of it, fails the config, and touches no other instance or row |
| LaunchEffects.RejectedNeverReturns | api/instance/router.py:903-1008 | after a failed verification no later state of any run has an instance of that config |
| LaunchEffects.InstanceIsLostIff | api/instance/router.py:872-1235 | an instance disappears exactly if a verification of its config fails, its miner deletes it, it is purged or removed, its job is completed without raising, or the billing loop gets to a job it selected with it |
| LaunchEffects.RowsFollowInstances | api/instance/router.py:310-341 | a GPU row survives a step exactly if its instance does |
| LaunchEffects.GpusAreAcceptedIff | api/instance/router.py:275-341 | the GPUs of a claim are accepted exactly if they are as many as asked, each known, verified, the miner's, of an admitted model and in no instance, all of one host, which is the instance's but for the case of letters |
| LaunchEffects.ClaimDecides | api/instance/router.py:468-727 | what a claim leaves of its config: placed, it is retrieved; turned down, retrieved and failed; without acceptable GPUs, failed but still to be claimed; else untouched; and the instance exists exactly in the first case |
| LaunchEffects.PlacedAsClaimed | api/instance/router.py:609-713 | the instance and the GPU rows a claim adds, field by field, and who holds the job |
| LaunchEffects.VerificationDecides | api/instance/router.py:880-1050 | a config is verified exactly if its verification passes for an instance, with the ports of a job open; failed exactly if it does not pass or finds no instance |
| LaunchEffects.ConfigsChange | api/instance/router.py:380-449 | no other handler changes a config but the claim's second transaction; a request adds one exactly for an existing chute that is scalable or whose job's history is neither full nor has the miner, and ends that history with the miner |
| LaunchEffects.InstanceChanges | api/instance/router.py:749-1050 | an instance becomes active exactly by a permitted activation of its verified config and verified exactly by a verification; nothing else changes one |
| LaunchEffects.JobIsCreatedIff | api/job/router.py:81-190 | a job appears exactly when created for a chute, free and pending |
| LaunchEffects.JobFinishesIff | api/job/router.py:379-417 | a job finishes exactly if the miner of its instance deletes that, it is completed without raising, or the billing loop gets to it; with which status |
| LaunchEffects.JobStartsIff | api/instance/router.py:1013-1038 | a job starts exactly when its instance is verified |
| LaunchEffects.FilesAreWritten | api/job/router.py:275-369 | what a finishing request and an upload write, flag by flag |
| LaunchEffects.BatchIsUnfinished | balance_refresher.py:34-51 | the billing loop selects exactly the unfinished jobs of users without balance, each with its instance |
| LaunchEffects.WhatIsOwed | balance_refresher.py:52-76 | a job stays selected until the loop gets to it, a claim owes its second transaction until that runs |
| LaunchDesk.Desk.GetLaunchConfig | api/instance/router.py:380-449 | the handler is the step: job history, its limits, the new config |
| LaunchDesk.Desk.ValidateNodes | api/instance/router.py:310-341 | succeeds exactly if the distinct GPUs are as many as asked, each the miner's, verified, free and suitable, all of one host, the instance's; then exactly their rows are added |
| LaunchDesk.Desk.ClaimLaunchConfig | api/instance/router.py:468-727 | the handler is the step, with what each exit commits or rolls back |
| LaunchDesk.Desk.FinishJob | api/job/router.py:275-305 | the handler is the step, every declared file reset to not uploaded |
| LaunchDesk.Desk.CompleteJob | api/job/router.py:389-415 | the handler is the step, including the exit that raises |
| JobHistory.HistoryIsBounded | api/instance/router.py:406-427 | with at most k requests between the check of a job's history and the append, the history has at most 14 + k entries and names nobody more than k times |
| JobHistory.BoundsAreReached | api/instance/router.py:406-427 | both bounds are attained for every k |
| JobHistory.PromisesHoldIffSerialised | api/instance/router.py:406-427 | at most 15 miners and none twice holds in every run with k overlapping requests exactly when k is at most one |
| Verification.InstanceMatchesConfig | api/instance/router.py:880-1075 | however many verifications of a config overlap, with activation and deletion in between, an instance that exists has a config that did not fail, is verified exactly if its config is, and is active only then |
| Verification.OneVerdictIff | api/instance/router.py:880-1075 | a config is never both verified and failed in every run with k overlapping verifications exactly when k is at most one |
| Verification.VerifiedIsKeptIff | api/instance/router.py:880-1075 | no verification deletes a verified instance in every such run exactly when k is at most one |
| Verification.StepEnds | api/instance/router.py:880-1075 | the instance disappears exactly by deletion or by the rejection of a verification that found it; a verification ends exactly by being accepted, rejected or raising |
| JobOutcome.CompleteMeansUploadedIff | api/job/router.py:270-417 | "complete" implies every declared file uploaded, in every run with k overlapping finishing and completing requests and any uploads, exactly when k is at most one |
| JobOutcome.UploadsStayDeclared | api/job/router.py:291-369 | every upload on its way is for a declared file, up to and exactly up to the first request that finishes the job anew without that file |
| JobOutcome.LateUploadErases | api/job/router.py:354-369 | until then an upload sets its own flag only; an upload of a file no longer declared sets the whole column to null |
| JobOutcome.FilesAreErased | api/job/router.py:354-369 | that happens even with finishing requests one after the other |
| JobOutcome.CompletionReads | api/job/router.py:389-411 | the status a completing request will write, from the status and the files it read |
| JobOutcome.FinishesIff | api/job/router.py:413-415 | a job finishes exactly by the commit of a completing request or by being failed |
| JobOutcome.Row.BeginFinish | api/job/router.py:275-303 | the status and the declared files that a finishing request is going to write |
| JobOutcome.Row.BeginComplete | api/job/router.py:389-411 | the status a completing request is going to write, by the files it has read |
| Rollout.UpdatesNameCurrentVersion | api/chute/router.py:942-974 | over every interleaving of deploys, claims, image upgrades, sleeping update handlers and the watchtower, every rolling-update record names its chute's current version, up to and exactly up to the first image upgrade that commits a version a deploy replaced meanwhile |
| Rollout.EndReadsOutdated | api/graval_worker.py:681-702 | in every state reachable without such an overlap the last transaction of a handler goes on exactly if an update is in progress and the handler's version is the chute's, and then reads exactly the chute's instances off the current version for deletion; a superseded handler stops |
| Rollout.FinishDeletesOnlyOutdated | api/graval_worker.py:681-713 | its commit removes exactly those of them that still exist, none of another chute or on the handler's version, and the chute's record, whichever it is by then; if there is a record, the chute is still on the handler's version exactly if the record is still the handler's |
| Rollout.LateDeployLosesRecord | api/graval_worker.py:681-713 | a deploy between the reads and that commit can follow any run, and its newer record is then gone |
| Rollout.InstanceIsLostIff | api/graval_worker.py:701-713 | an instance disappears exactly if its chute is deleted or purged, a handler that read it for deletion commits, the watchtower gets to it, or it is deleted on its own |
| Rollout.InstanceIsNewIff | api/instance/router.py:610-719 | one appears exactly by the commit of a claim while its chute exists, on the version the claim had loaded |
| Rollout.LateClaimIsBehind | api/instance/router.py:484-719 | a claim that a deploy overlaps can follow any run; its instance is on the replaced version and not in the quota of the deploy's record |
| Rollout.DeployRecords | api/chute/router.py:942-974 | a deploy leaves a record exactly if the chute has instances, from the old version to the new, with each miner permitted as many relaunches as it has instances |
| Rollout.RecordIsLostIff | watchtower.py:1227-1245 | a record disappears exactly if its chute is deleted, or deployed or upgraded without instances, a handler of the chute commits its end, or it is an hour old when the watchtower drops such |
| Rollout.StartEndsIff | api/graval_worker.py:592-624 | the first transaction ends a handler exactly if its chute is gone or without instances |
| Rollout.VisitEndsIff | api/graval_worker.py:624-652 | a round ends it exactly if its next instance still exists and its update is not the one in progress |
| Rollout.WholeUpdateDeletesOutdated | api/graval_worker.py:592-713 | a handler that nothing interleaves with leaves exactly the chute's instances on its version and all of other chutes |
| Rollout.ScanListsExactly | watchtower.py:1247-1268 | the watchtower lists an instance exactly if it has a version, its chute has another, and no update of the chute is in progress |
| Rollout.PurgesEveryListed | watchtower.py:1247-1268 | it then deletes exactly the listed instances, in order |
| Rollout.MisnamedUpdateDeletesCurrent | api/graval_worker.py:681-713 | after an overlap of an image upgrade with a deploy the end of a handler deletes every instance on the current version and spares those on its own |
| Rollout.OverlappingUpgradeMisnames | api/image/forge.py:1044-1083 | such an overlap can follow any run |
| Rollout.SupersededIsInert | api/graval_worker.py:624-713 | once its chute is on another version a handler that has not read its end yet changes no chute, record or instance for the rest of the run, through all its visits and its end, as long as its own version is not deployed again |
| Rollout.PurgeRemovesCurrentIff | watchtower.py:1247-1268 | of an instance that existed after n steps and still does, the cleanup purges one on the current version exactly when the last deploy of its chute since then, or the version at that time, names the instance's own |
| Rollout.PurgeOfCurrentNeedsRedeploy | watchtower.py:1247-1268 | in particular the chute was redeployed since the comparison |
| Rollout.PurgeCanRemoveCurrent | watchtower.py:1247-1268 | a run in which that happens |
| Rollout.SleepsFitBeforeExpiry | api/graval_worker.py:611-618 | a handler's sleeps together stay under the hour after which its record is dropped exactly when it started with fewer than 3600 instances |
| Rollout.Registry.CountPermitted | api/chute/router.py:945-949 | the permitted map counts each miner's instances |
| Rollout.Registry.DeployChute | api/chute/router.py:942-974 | the version change with its rolling-update record is the step |
| Rollout.Registry.StartUpdate | api/graval_worker.py:592-624 | the first transaction of the handler is the step |
| Rollout.Registry.LoadEnd | api/graval_worker.py:682-703 | the reads of the handler's last transaction are the step: the loop finds exactly the instances off its version |
| Rollout.Registry.DropStaleUpdates | watchtower.py:1227-1245 | exactly the records at least an hour old are dropped |
| Rollout.Registry.FindOutdated | watchtower.py:1247-1268 | exactly the outdated instances of chutes without an update are found |
| PrivateCap.CapHolds | api/instance/router.py:775-829 | with activations serialised, over every run of passes with stale counts, bounties, activations and deletions, the published scale and the active count of a private chute stay within max_instances |
| PrivateCap.CapHoldsIffSerialised | api/instance/router.py:778-829 | the cap holds in every run with at most k overlapping activations exactly when k is at most one |
| PrivateCap.OverlapDrifts | chute_autoscaler.py:359-411 | with two overlapping activations, runs reach every count |
| PrivateCap.GatesDiffer | api/instance/router.py:246-272 | the two situations in which the claim gate and the activation gate disagree |
| PrivateCap.ActivationAlone | api/instance/router.py:791-829 | an activation goes through exactly if the chute is empty with a bounty or below its scale, and takes the bounty with it |
| PrivateCap.BountyStarts | chute_autoscaler.py:353-411 | the pass that finds a private chute empty publishes one with a bounty and none without, whenever the bounty came or went since the count |
| Autoscaler.DecisionsAreConsistent | chute_autoscaler.py:344-579 | for every chute of the query the action agrees with the sign of target minus count, the queued removal is the difference, the written scale key is the target, and outside manual overrides no public chute is sized down below its failsafe minimum |
| Autoscaler.PrivateTargetsRespectCap | chute_autoscaler.py:353-411 | a private target is within the cap exactly if the count was, or a count one too high is being shrunk |
| Autoscaler.TargetsFollowLoad | chute_autoscaler.py:344-579 | for any chute and any rate-limit ratios, exactly when a higher utilisation never lowers the target: always if the load does not decide, else if what it is given below the threshold is within the first step above it |
| Autoscaler.GrowthSteps | chute_autoscaler.py:440-579 | an ordinary public chute grows exactly at or above either threshold, by the whole part of the stated percentage for the band it is in, at least the stated minimum, and at least to its failsafe |
| Autoscaler.ShrinkSteps | chute_autoscaler.py:440-579 | it shrinks exactly if it is idle and above its failsafe, by a fifth, a tenth or one, never below the failsafe |
| Autoscaler.IdleSettles | chute_autoscaler.py:440-579 | an idle chute whose targets are met comes to its failsafe minimum from any size within as many passes, and stays there |
| Autoscaler.FixedTargets | chute_autoscaler.py:412-455 | an empty public chute is given its failsafe minimum, a pinned one its manual number, one being updated is skipped |
| Autoscaler.NewChuteTargets | chute_autoscaler.py:440-579 | a new chute is sized to ten or its failsafe |
| Autoscaler.PrivateSteps | chute_autoscaler.py:353-411 | a private chute grows by one exactly if loaded and below its cap, shrinks by one exactly if not loaded and above one, and is started from nothing exactly for a bounty |
| Autoscaler.PassRecordsDecisions | chute_autoscaler.py:344-579 | a pass leaves exactly its decisions in the tables and the scale keys; a chute the query missed gets only the default target |
| Autoscaler.QueueBridgesTheGap | chute_autoscaler.py:387-570 | exactly the sized-down chutes are queued, once each, for the difference to their target |
| Autoscaler.CandidatesAsk | chute_autoscaler.py:440-579 | exactly the chutes that ask for instances are candidates, once each, with what they ask for |
| Autoscaler.Pass.AnalyzeChute | chute_autoscaler.py:344-579 | one turn of the decision loop records the decision |
| Autoscaler.Pass.Analyze | chute_autoscaler.py:344-579 | the loop fills the tables as specified |
| Downsizing.PurgeMalformed | chute_autoscaler.py:627-643 | splits the live instances that run no job into those with a wrong number of GPUs, purged, and the others |
| Downsizing.KickAtRandom | chute_autoscaler.py:688-928 | removes min(rounds, established) distinct instances, all established |
| Downsizing.Downsize | chute_autoscaler.py:602-928 | removes nothing twice, all malformed ones, random ones only among established ones and exactly min(requested - malformed, established) of them, or none below five sound instances; the chute keeps at least count - requested exactly if malformed <= requested |
| Routing.LeastConnManager.GetTargets | api/instance/util.py:164-222 | plain: a duplicate-free permutation of the available instances under concurrency in non-decreasing load; with prefixes: cached near-minimum ones first, the others after; overload exactly when every instance is at concurrency |
| Routing.LeastConnManager.HandlePrefixRouting | api/instance/util.py:224-260 | the same for its own part |
| Routing.HeadIsNearMinimum | api/instance/util.py:195-260 | the head of a plain list is least loaded, that of a prefix list within two of the minimum and least loaded among the routable |
| Routing.PrefixListFront | api/instance/util.py:241-260 | a prefix list starts with the three least loaded routable instances and goes on with exactly the unroutable ones under concurrency; routable is cached and within two of the minimum |
| Routing.MeanIsWhole | api/instance/util.py:182-187 | the recorded mean is the whole part of the quotient |
| Routing.FirstHitDecides | api/instance/util.py:225-241 | the longest prefix with any hit decides the cached set |
| Routing.SortByCount | api/instance/util.py:248-252 | a duplicate-free listing by load |
| Routing.GroupByCount | api/instance/util.py:195-203 | groups exactly the instances under concurrency by count |
| Routing.Flatten | api/instance/util.py:217-222 | lists the groups in order of count, less the skipped |
| Prefixes.PromptPrefixHashes | api/invocation/util.py:157-164 | the sizes are exactly the values 1024 * 2^k below the prompt's length, descending, each with the hash of that prefix |
| Prefixes.SizesDouble | api/invocation/util.py:157-164 | the sizes start at 1024 and double |
| Connections.CapacityBound | api/instance/util.py:262-293 | with at most K requests between count and registration, no count ever exceeds concurrency - 1 + K in plain routing and concurrency + 1 + K with prefixes; the invariant is on tracked plus pending |
| Connections.BoundIsReached | api/instance/util.py:262-293 | that bound is attained for every K |
| Connections.TrackedAreOpen | api/instance/util.py:276-325 | tracked connections belong to open contexts unless their removal failed |
| Connections.OpenIsSeen | api/instance/util.py:79-162 | the converse, over every run: a count sees every request that registered less than an expiry ago and has not been closed, and none that registered longer ago |
| Connections.OpenIsBounded | api/instance/util.py:262-293 | so the bound holds for the open requests of an instance themselves, with those about to register there |
| Connections.ContextEndsIff | api/instance/util.py:276-325 | a request ends exactly when it is closed, whether its removal succeeds or not; a removal sweeps out at most ten others |
| Connections.ForgettingIsInvisible | api/instance/util.py:125-162 | cleanup and key expiry change no count read at a later time |
| Connections.RemovalIsExact | api/instance/util.py:90-101 | a removal takes its own connection out of every later count and no other, whatever expired members it sweeps |
| Connections.HeadMayBeChosen | api/instance/util.py:262-293 | whatever list get_targets returns, its head is a choice the bound covers |
| Connections.ConnectionStore.AddConnection | api/instance/util.py:79-87 | the add script stores the score and returns the live count, both at the whole second |
| Connections.ConnectionStore.RemoveConnection | api/instance/util.py:90-101 | the remove script, with its piggybacked expiry of at most ten |
| Connections.ConnectionStore.CleanupExpiredConnections | api/instance/util.py:125-143 | the cleanup removes exactly the expired members of every key, and the number it returns is by how many the tracked connections went down |
| Connections.ConnectionStore.GetConnectionCounts | api/instance/util.py:147-162 | each instance's count of connections younger than the expiry |
| Ledger.LedgerIsExact | api/payment/usage_tracker.py:33-113 | for every run with charges landing between any two steps of a flush and a crash anywhere, if each listing names a key once: a balance is its start less what was deducted, a pending hash is what is pending under its key, usage rows are what was deducted or waived there |
| Ledger.ChargesAreConserved | api/payment/usage_tracker.py:33-113 | over every run whose listings name each key once, what was charged under a key is in its pending hash or in the usage rows of its user and chute, or staged, or dropped for want of a user, or lost; and a paying user's balance is down by what the usage rows of the user come to |
| Ledger.BalancesFollowUsage | api/payment/usage_tracker.py:66-103 | the latter over every run whatever, keys listed twice included; the balance of an account that is free and not invoiced is never down |
| Ledger.FatesAreFinal | api/payment/usage_tracker.py:90-113 | a charge that is deducted, waived, dropped or lost stays so: it is deducted at most once |
| Ledger.LossSources | api/payment/usage_tracker.py:100-113 | the exact two ways to lose a charge: added between read and delete of its hash, or deleted by a flush that does not commit |
| Ledger.WholeFlushIsExact | api/payment/usage_tracker.py:16-117 | with no crash and no interleaved charge nothing is lost, paying users' balances fall by what was pending, and usage rows grow by exactly the pending amounts of existing users |
| Ledger.WholeFlushSettles | api/payment/usage_tracker.py:66-113 | where every single charge is after such a flush |
| Ledger.StampIsLast | api/chute/util.py:1020-1032 | over every run a pending hash carries the timestamp of the last increment pending under its key that had one |
| Ledger.WholeFlushBooks | api/payment/usage_tracker.py:66-89 | such a flush books what is pending of an existing user to the one usage row of the user, the chute and the hour of that timestamp, and changes no other row |
| Ledger.RepeatedKeyOvercharges | api/payment/usage_tracker.py:21-30 | a flush takes from a paying user what was pending, of either sign, and again the amount of every repeated position of the listing; for positive amounts that is nothing exactly if no key is repeated |
| Ledger.TotalIsStaged | api/payment/usage_tracker.py:44-46 | a user's accumulated total is what is staged for the user |
| Ledger.UsageTracker.DeleteKeys | api/payment/usage_tracker.py:105-112 | the deletion loop is the step |
| Ledger.UsageTracker.CommitFlush | api/payment/usage_tracker.py:33-113 | the totals loop, the upserts and the deductions together are the step |
| Pricing.BilledAsAdvertised | api/chute/util.py:939-970 | billed and advertised token prices agree for a call with tokens exactly when billing honours the chute's discount, although floor, factor and discount come in different orders |
| Pricing.TokensAtAdvertisedPrice | api/chute/util.py:939-998 | without override, reroll or user discount a million times the charge of a call is its input tokens times the advertised input price plus its output tokens times the advertised output price |
| Pricing.BillForTokens | api/chute/util.py:949-970 | that charge in one formula of the hourly price, the slots, the discount and the tokens |
| Pricing.BillForSteps | api/chute/util.py:973-979 | an image costs half a cent of the hourly price per step, less the discount |
| Pricing.BillForTime | api/chute/util.py:981-987 | a call without tokens or steps costs its compute units at the price basis per hour, less the discount |
| Pricing.AdjustmentsScale | api/chute/util.py:886-998 | what is not billable or discounted in full is free; a reroll and the caller's discount scale whatever a call would cost |
| Pricing.OverrideBill | api/chute/util.py:889-937 | what an override makes of a call: tokens at its prices per million, steps at its price, or its price per request |
| Pricing.SharedCallNetsToZero | api/chute/util.py:1005-1032 | a call to a shared private chute nets to zero across caller and owner; elsewhere the caller pays the whole charge; the call and its tokens are counted once, for the caller |
| Pricing.OverrideFixesPrice | api/chute/util.py:889-998 | where an override applies the charge follows from it and the use alone: discounts, reroll, concurrency and compute time do not matter, and the hourly price only for a token price the override leaves open |
| Pricing.StandardPrice | api/chute/util.py:939-987 | the standard branch computes the standard charge |
| Pricing.PriceCall | api/chute/util.py:883-998 | the steps together compute the charge |
| Pricing.BillInvocation | api/chute/util.py:883-1032 | the billing part leaves exactly the specified ledger entries |
| Pricing.AdvertisePrices | api/chute/util.py:1261-1270 | the price list is the advertised prices |
| Gpu.PriceIsAFloor | api/chute/schemas.py:108-164 | whatever suitable GPUs a miner brings, the price is at most the sum of their rates, and some suitable GPU attains it |
| Gpu.FloorIsReached | api/chute/schemas.py:108-164 | that many of some suitable model cost exactly the price |
| Gpu.AdmittedExactly | api/chute/schemas.py:145-164 | a selector admits exactly the verified GPUs of an included model, or of any on the list, that is not excluded and has the memory asked for |
| Gpu.PriceIsCheapestFit | api/chute/schemas.py:116-143 | the price is the GPU count times the least rate admitted: the scale of the multiplier cancels |
| Gpu.SupportedPriceRange | api/gpu.py:11-472 | on the list as it stands an hour costs between 0.1 and 3.5 per GPU, and no more than the rates of whatever suitable GPUs a miner brings |
| Gpu.NormalizeScores | api/gpu.py:454-467 | each score times the dearest rate gives back the rate; scores are in (0, 1] and one is 1 |
| Scoring.GetScores | metasync/shared.py:61-187 | no hotkeys give no scores; otherwise it divides by zero exactly if no unique count is positive, and then fails on a hotkey without a coldkey; else final scores are positive and sum to one; each coldkey keeps at most one scoring hotkey, exactly one if any had a positive score, and none of its hotkeys had a greater pre-penalty score; no survivor's score falls; and a hotkey that dominates another in all four features has at least its pre-penalty score |
| Scoring.ScoreRaw | metasync/shared.py:122-187 | the same from the raw features on, with the scores tied to the split at the median |
| Scoring.PreScore | metasync/shared.py:122-166 | the pre-penalty scores are those of the raw features split at their median |
| Scoring.FinalScores | metasync/shared.py:168-187 | the promises of the final scores, from the pre-penalty scores |
| Scoring.DominanceIsRewarded | metasync/shared.py:126-166 | dominance in the raw features gives at least the pre-penalty score, also across the median split |
| Scoring.PreScoresBounded | metasync/shared.py:153-166 | pre-penalty scores are non-negative, sum to at most one, and one is positive |
| Scoring.PreScoresTotal | metasync/shared.py:141-166 | all pre-penalty scores together are the weights of the features that anyone has |
| Scoring.UniqueSharesFollowCurve | metasync/shared.py:132-157 | unique shares are as the counts over the highest, raised to 1.3 from the median on and to 2.2 below it |
| Scoring.Penalize | metasync/shared.py:169-183 | keeps exactly the score of each coldkey's best hotkey, the earliest of equals |
| Scoring.SortDescending | metasync/shared.py:169-171 | a stable descending order of all hotkeys |
| Scoring.Median | metasync/shared.py:132-140 | half of the sorted counts are on either side of the result |
| Scoring.Normalize | metasync/shared.py:141-157 | shares of each feature's total, and shares of the curved unique counts |
| Scoring.Collect | metasync/shared.py:66-116 | each hotkey's features are those of its rows, and the highest unique count is the maximum |
| Scoring.PrivateWorkCounts | metasync/shared.py:88-116 | private instances add their compute to the compute, their number to the bounties and their whole seconds to the invocations of the hotkey's last row |
| Scoring.UniquesListCounts | metasync/shared.py:126-131 | the median is taken over the unique counts that are not zero, each as often as it occurs |
| Affine.AcceptedCode | api/affine.py:103-493 | an accepted tree imports only the permitted names at every node, nests no function, is within the limits on size, nodes and depth, gives exactly one top-level target, "chute", an imported builder's result, and every other top-level name is "chute" or a loop variable |
| Affine.AcceptedCalls | api/affine.py:175-215 | no call in an accepted tree names a refused builtin, directly or as an attribute, a string method or a serialising module |
| Affine.AcceptedExpressions | api/affine.py:103-296 | nor is there a hidden name, a dangerous attribute, another member of "os", an overlong string, a formatted or mixed concatenation, or a refused node |
| Affine.AcceptedStatements | api/affine.py:262-372 | the environment has literal keys unless deleted from, nothing else is deleted, only calls and attributes but not chute.cord decorate, and no attribute of "chute" is assigned |
| Affine.AcceptedBuilder | api/affine.py:374-455 | the builder's keywords are named, its image a literal of sglang or vllm, and its engine arguments literals that do not trust remote code |
| Affine.CheckAffineCode | api/affine.py:73-495 | accepts exactly the trees that satisfy every rule |
| Affine.GetAstDepth | api/affine.py:90-97 | the cut-off depth exceeds the limit exactly when the true depth does |
| Affine.NestingIsFound | api/affine.py:311-316 | comparing nodes by identity finds exactly the functions that hold another |
| Affine.Walk | api/affine.py:83 | the breadth-first walk visits every node as often as it occurs |
| Affine.FindsNested | api/affine.py:311-316 | the triple loop finds a nested function exactly if there is one |
| Affine.CheckBindings | api/affine.py:374-470 | accepts the top level exactly if every builder result is bound as permitted and one target is |
| Affine.ExtraNames | api/affine.py:472-487 | is empty exactly if every top-level name is "chute" or a loop variable |
| Affine.BuilderSurvivesIff | api/affine.py:103-493 | in an accepted tree "chute" ends as what the one builder call returned, in every way the module can execute, exactly if no later target of that assignment and no later top-level statement binds the name, be it by an assignment of any form, a loop, an import, a function, an annotation or a pattern, and the top level leaves nothing open: it calls only builders, NodeSelector and reads of the environment, by names that nothing but imports bind, decorates nothing, and stores nothing in an attribute or, the environment apart, in a subscript |
| Affine.AppendingIsAccepted | api/affine.py:73-495 | an accepted tree with room for it stays accepted with any statement at its end whose nodes pass on their own, that defines no function, deletes nothing, has no from-import, assigns no builder's result and assigns to no name but "chute" |
| Affine.RebindingIsAccepted | api/affine.py:374-493 | an accepted tree stays accepted when a literal is assigned to "chute" at its end, and the builder's result is then lost |
| Affine.ComputedCallIsAccepted | api/affine.py:175-183 | a call is compared with the refused functions only if its function is written as a name or an attribute: a call of an element of a list of any visible name is accepted, and leaves open what "chute" ends as |
| Affine.ExampleIsAccepted | api/affine.py:73-495 | some code is accepted and keeps its builder's result |
| AdaptiveEma.RunBounds | api/metrics/aema.py:36-82 | after any updates with any timestamps the average is within the values seen, the count is their number, the rate is positive and the alpha within its limits |
| AdaptiveEma.AverageIsConvex | api/metrics/aema.py:66-74 | the average is a convex combination of all values ever recorded |
| AdaptiveEma.FirstUpdate | api/metrics/aema.py:36-50 | the first update stores its value with the greatest weight and a rate of one |
| AdaptiveEma.AlphaFollowsRate | api/metrics/aema.py:52-74 | each later one moves the rate a tenth of the way to one per elapsed second, or not at all if none elapsed, and weighs the value by one over rate times window within the limits |
| AdaptiveEma.NextIsWritten | api/metrics/aema.py:52-68 | no update divides by zero, and the stored hash stays well formed |
| AdaptiveEma.ReadyForever | api/metrics/aema.py:83-87 | readiness is reached at the minimum count and never lost |
| AdaptiveEma.SteadyRate | api/metrics/aema.py:52-60 | under steady arrivals the error of the rate shrinks by a tenth per update |
| AdaptiveEma.Tracker.Update | api/metrics/aema.py:36-87 | the script, branch by branch, is the state transition |

## Left out

- Network, S3, Redis and SQL clients, tokens, encryption, GPU proofs, filesystem hashes and environment dumps: their outcome is an input of the step that asks for it.
- LaunchSafety.EveryRunIsSafe: handlers of a launch config are atomic at their commit, but for the claim's two transactions. What overlaps do is in `PrivateCap.dfy` for activations, `JobHistory.dfy` for requests for a job's launch config, `Verification.dfy` for verifications of a config and `JobOutcome.dfy` for finishing, completing and uploading; two overlapping claims of one config are not modelled.
- Deletion of users, chutes, jobs and GPU nodes, and changes of a selector after a claim: they change what the allocation invariant is about.
- The text of error messages and of `error_detail`; a job only records whether it has one.
- Exhaustion of the `permitted` map of a rolling update: it is decremented in place on a plain JSONB column, and whether that persists cannot be seen here.
- Rollout.FinishDeletesOnlyOutdated: for runs in which no image upgrade overlaps a deploy; `Rollout.MisnamedUpdateDeletesCurrent` is the other case. A deploy is one step; validation of its arguments and image building are not part of it.
- LaunchFacts.BilledAtMostItsGpus: takes each chute's price as computed from its selector; the fetch of the TAO price that can fail is an absent price.
- PrivateCap.CapHolds: fixes max_instances, which the request schema keeps at one or more, and holds for serialised activations only; `PrivateCap.CapHoldsIffSerialised` proves that it holds for no more. Bounty amounts and lifetimes are left out: a bounty is there or not.
- Connections.CapacityBound: fixes the concurrency and the set of instances, and leaves out the fallbacks after a read error or a timeout; `Connections.BoundIsReached` proves that no smaller bound holds.
- The order in which the remove script picks its ten expired members, and the joining of chat messages into a prompt.
- Ledger.LedgerIsExact: leaves out other writers of a user's balance between the flush's read and its commit.
- Ledger.UsageTracker.CommitFlush: does the upserts and deductions of the transaction in one method after the deletion of the keys; the source queues them before it, invisibly until the commit.
- Scoring.GetScores: takes the rows of the three queries as inputs, non-negative and with each hotkey once among the unique counts, as the query groups them, and the two powers as any functions on [0, 1] that are monotone, fix 0 and 1 and are ordered; the SQL is left out.
- Floating-point rounding, in scores, prices and averages, and Redis's truncation of the moving average's reply.
- The commented-out selection of victims by imbalance and the unused set of compatible chutes in the autoscaler. `chute_autoscaler.py:612` reads `Instance.launch_config`, which the ORM class calls `config`; the model reads the config's job.
- Affine.BuilderSurvivesIff: which conditional statements execute is any choice, and exceptions end the module; what attributes of the built object are set to is left out. A call that is not vetted, a decorator and a store in an attribute may do anything, so a harmless one counts as open too; a vetted call, an import and the operators on what these give are taken to bind no name of the module.
- Affine.CheckAffineCode: returns the verdict without the message; the parser is left out, and `Affine.NestingIsFound` assumes of it that two definitions are two objects.
- Image building, logos, price fetching, sockets, pagination, HTML, API keys and the GPU config guesser: plumbing.
