# transcodarr: a model of its hard parts

transcodarr is a fleet transcoder: a server plans, dispatches and accounts for encodes, agents run them
and replace media files in place. This project states, in Dafny, what the code does where a mistake costs
a file or wedges a queue, and proves what follows for every input, run or interleaving.

* **The commit ritual** (`Ritual`, `RitualRuns`, `CommitRitual`, `RitualRecovery`, `RitualVerdicts`,
  `Worker`, `WorkerRuns`). The disk is a map from paths to content tokens, with the journal and its
  half-written staging files beside it; a step is one system call, and a crash may fall between any two, also
  inside a journal write and inside recovery. The imperative ritual, journal and recovery are a class proved
  equal to the step machine; the theorems are about every run of it.
* **The dispatcher and its ledger** (`Jobs`, `Plans`, `Capability`, `Capacity`, `CapacityRuns`, `Dispatch`,
  `JobFit`). Classes with the cache and the ledger as fields, proved equal to a dispatcher that matches
  afresh, and what that one decides on the fields of agents and jobs.
* **The server** (`Hardening`, `Store`, `Reconcile`, `Server`, `ServerInvariant`, `ServerPass`, `ServerRuns`,
  `ServerMessages`, `ServerGuarantees`, `ServerHandOvers`, `ServerCapacity`, `RoundRules`, `Orchestrator`). The
  store is the job table and the commit-intent ledger behind their guarded writes; `Orchestrator` is the pass
  as loops over rows, `Server` what it is proved to do, and the other modules are about what a pass or a
  message decides and about runs.
* **Agent and server together** (`AgentServer`, `LateFailureRun`, `SharedDisk`, `WholeSystem`,
  `WholeOutcomes`): installs that run beside a connection which drops, re-registers and recovers, with grants
  and reports that may be late or lost; and the same with the agent's disk beneath it, one system call at a
  time, on which jobs follow one another at the same destinations and report how their installs ended.
* **The edges** (`Policy`, `Evaluator`, `Transfer`, `Fencing`, `FencingRuns`, `Reconnect`, `Shutdown`,
  `Command`).

To verify: `dafny verify dfyconfig.toml`.

## What is assumed

* A crash is a process crash: what a completed system call wrote is there afterwards.
* The three paths of an install differ, and nothing else writes them; an installed replacement may disappear.
  Those of different installs are disjoint in `RitualRuns` and what builds on it; in `SharedDisk` and
  `WholeSystem` only temporary files are private and trash goes with destination.
* An output is not byte for byte what it replaces. In `WholeSystem` recoveries come one after another, and one
  of a record that a later install has overtaken sees its destination if it is there
  (`LeftoverLosesExactlyWhen` shows what it costs if not).
* A pass of the dispatch loop, and the handling of one message, are each one step for the others; a write
  the store accepts is not lost. `CutPlacementWedges` and `CutRequeueStrands` show what a cut costs.
* Agents keep to what `ServerRuns.Legal` says: a failed result arrives before its job is past `Running`, and
  an install is reported only after it was asked for. Both conditions are shown to be exact, and in
  `AgentServer` the second is proved of the agent rather than assumed.
* The order of a query is total and lists each row once. Ids, paths and labels are strings; job ids of the
  ritual are numbers. Hashes and the text of a bucket key are taken to be injective, except in `Transfer`,
  where nothing is assumed of the signature. Cores are real numbers.

## Where the code and its words differ

The code is followed; each difference is stated as a theorem.

* A crash after the retiring rename and before its record does not recover by itself: it ends as needing an
  operator, the original being whole in the trash (`GivingUpMeansRetiredButNotLogged`,
  `CrashWhileRetiringIsAmbiguous`).
* A crash after a restoring rename and before the record is cleared makes the next recovery report an
  install that did not happen (`VerdictsAreTruthfulExactlyWhen`, `TheFalseVerdictIsReached`).
* A path that cannot be looked at counts as one that does not exist: recovery may then ask for an operator
  over an original that is where it was, or put an original back over an installed replacement. Nothing is
  lost by it; these and the stale records are all the verdicts that can be false
  (`RecoveryTellsTheTruthExactlyWhen`).
* A revocation is kept by job and not by attempt: it stops the attempt that comes after the one it was meant
  for, and the end of any attempt drops it (`MarkedExactlyWhen`, `ARevocationStopsTheNextAttempt`,
  `TheEndOfAnAttemptDropsTheRevocation`).
* `commit` clears its record even when it needs an operator; `recover_all` keeps such records
  (`InstallStep`, `RecoverAllClearsTheSettled`).
* The trash holds one original per path (`SecondInstallOverwritesTheTrash`).
* `admits` demands coverage of streaming agents that `satisfies` excuses (`StreamingAgentsAreTurnedAway`).
  "Every capable agent is full" is never the reason given (`EveryOutcomeIsJustified`).
* The guard of `disconnect` cannot tell two streams of one process apart
  (`TeardownEvictsOnlyTheSameProcess`).
* A retry is queued at once; the delay that was computed is not used (`RequeuedIs`).
* A result is heeded whatever attempt it is about (`ResultKeepsSoundExactlyWhen`,
  `LateFailureLetsRecoveryIn`, `AnOverlapIsReached`, `AnOverlapLosesTheOriginal`).
* A 12-bit source is planned for a video encode without a pixel format (`TwelveBitsAreEncodedUnpinned`).
* The hash that spreads reconnecting agents is said to be FNV-1a; its multiplier has a zero too many
  (`StepIsFnvExactlyWhen`, `TheHashIsNotFnv`). The bounds on the delay hold for any hash.
* A backoff that is said never to be zero is zero for a base under two nanoseconds (`DelayIsZeroExactlyWhen`).
* When the id of a job is already taken, the evaluation stops with its file decided and without a job
  (`EvaluateLibrary`).
* A library with a batch of fact-less files at its head is never evaluated past them
  (`EvaluateLibrary`, `StuckBehindBlanks`).

## Model

| member | source | states |
|---|---|---|
| `RitualRuns.StepKeepsAccounted` | crates/transcodarr-agent/src/commit.rs:221-452 | Every single system call of an install or a recovery, whether it works or fails, keeps the account of where the original is and what the journal says about it. |
| `RitualRuns.StepIsLocal` | crates/transcodarr-agent/src/commit.rs:221-452 | A system call for one job changes nothing a job with other paths and another key depends on. |
| `RitualRuns.NextKeepsSafe` | crates/transcodarr-agent/src/commit.rs:221-452 | Beginning, continuing, crashing, resuming and the disappearance of an installed replacement all keep every job of the plan accounted for. |
| `RitualRuns.OriginalIsNeverLost` | crates/transcodarr-agent/src/commit.rs:221-452 | In every run of any number of jobs, cut short anywhere and recovered any number of times, the original of each is at exactly one of destination and trash, and what else is at the destination is nothing or the whole replacement. |
| `RitualRuns.OthersLeaveAJobAlone` | crates/transcodarr-agent/src/commit.rs:340-452 | An event that names another job leaves this one's place and record as they were. |
| `CommitRitual.CommitRitual.WriteRecord` | crates/transcodarr-agent/src/journal.rs:145-175 | Writing a record is the four system calls of an atomic replace, and fails or dies between any two of them as the machine does. |
| `CommitRitual.CommitRitual.Commit` | crates/transcodarr-agent/src/commit.rs:221-333 | The imperative install leaves the disk, and gives the answer, that driving the step machine from its first call does, for every pattern of failing calls and for a crash after any of them; over a source whose size, modification time or inode is not what was observed, or without an output, it touches nothing at all. |
| `CommitRitual.InstallBeginsExactlyWhen` | crates/transcodarr-agent/src/commit.rs:221-262 | The first three calls of an install change nothing, and it goes on to its first record if and only if they work, the output is there, and the destination has the size, the modification time and, where both are known, the inode that were observed. |
| `CommitRitual.ChangedSourceIsLeftAlone` | crates/transcodarr-agent/src/commit.rs:230-255 | A source that has changed is never installed over: whatever fails and wherever it is cut off, the whole disk is as it was, and the only answers are that the source is intact or an error. |
| `CommitRitual.CommitRitual.RecoverOne` | crates/transcodarr-agent/src/commit.rs:356-452 | Recovery of one record ends where the step machine ends: its verdict, or the failure of a restoring rename. |
| `CommitRitual.CommitRitual.Outstanding` | crates/transcodarr-agent/src/journal.rs:203-228 | The records listed are exactly those of the journal, once each, ordered by job and attempt. |
| `CommitRitual.ListedInOrder` | crates/transcodarr-agent/src/journal.rs:203-228 | What is listed comes by job and, within a job, by attempt. |
| `CommitRitual.CommitRitual.RecoverAll` | crates/transcodarr-agent/src/commit.rs:340-353 | Startup recovery settles the listed records in order, stops at the first failure, and clears exactly those it settled. |
| `CommitRitual.CommitRitual.ResolveUnknown` | crates/transcodarr-agent/src/worker.rs:550-581 | Recovered are all the journal's records whose job is among the unknown ones and no others, in the journal's order; a failure is passed over and its record kept. |
| `RitualRecovery.CommitNeverLosesTheOriginal` | crates/transcodarr-agent/src/commit.rs:221-333 | After one commit, however its calls fail and wherever it dies, the original is at exactly one of the two places; a resolution it returns is true. |
| `RitualRecovery.UninterruptedCommitInstalls` | crates/transcodarr-agent/src/commit.rs:221-333 | When every call works and the source is as observed, the replacement is at the destination, the original in the trash, and the journal clear. |
| `RitualRecovery.SecondInstallOverwritesTheTrash` | crates/transcodarr-agent/src/commit.rs:288-297 | A second commit that shares its destination and trash with an earlier one destroys what the earlier one retired: conservation is per commit. |
| `RitualRecovery.SweepNeverLosesAnOriginal` | crates/transcodarr-agent/src/commit.rs:340-353 | Recovering many records, cut short anywhere, loses no original of any job. |
| `RitualRecovery.KnownJobsAreLeftAlone` | crates/transcodarr-agent/src/worker.rs:550-581 | Under any failures and cut off anywhere, recovering what the server does not know leaves every record of a job it does know in the journal, and the files that record names as they were. |
| `RitualRecovery.UnknownJobsAreSettled` | crates/transcodarr-agent/src/worker.rs:550-581 | With working calls, six for each record, every record of an unknown job meets its verdict: its files are as the verdict has them, and it stays in the journal if and only if it takes an operator. |
| `RitualRecovery.RecoverySucceeds` | crates/transcodarr-agent/src/commit.rs:356-452 | When its calls work, recovering a record gives the verdict read off the disk and heals the disk accordingly. |
| `RitualRecovery.RecoverAllIsIndependent` | crates/transcodarr-agent/src/commit.rs:340-353 | With disjoint paths every record gets the verdict it would have got alone. |
| `RitualRecovery.RecoverAllClearsTheSettled` | crates/transcodarr-agent/src/commit.rs:344-349 | Afterwards the journal holds exactly the records that could not be resolved. |
| `RitualRecovery.SecondRecoveryChangesNothing` | crates/transcodarr-agent/src/commit.rs:340-353 | An immediate second recovery changes nothing and returns exactly the unresolved records again. |
| `RitualVerdicts.RecoveryTellsTheTruthExactlyWhen` | crates/transcodarr-agent/src/commit.rs:356-452 | For every disk a run can leave, every pattern of failing calls and wherever an earlier one was cut: a recovery that resolves a record says what is so of the disk if and only if, before it began, the original had not been put back under a record that says it was retired, and its looks could see what was there. |
| `RitualVerdicts.InstallsAreTruthful` | crates/transcodarr-agent/src/commit.rs:221-333 | In every run an install that resolves says what is so, and leaves no record behind. |
| `RitualVerdicts.StaleExactlySincePuttingBack` | crates/transcodarr-agent/src/commit.rs:303-317 | In every run a record is stale, the original at home while it says retired or installed, if and only if a rename that put the original back came after the last time the record was removed. |
| `RitualVerdicts.VerdictsAreTruthfulExactlyWhen` | crates/transcodarr-agent/src/commit.rs:340-452 | In every run, with other jobs at work meanwhile: the verdict of a recovery is true if and only if no original was put back since its record was last removed, a look saw the destination when the original was at home, and a look saw something when the replacement was installed. |
| `RitualVerdicts.GivingUpMeansRetiredButNotLogged` | crates/transcodarr-agent/src/commit.rs:364-385 | With working looks a recovery that resolves answers that an operator is needed if and only if the record says Granted and the original is in the trash; it then keeps the record and the original. |
| `RitualVerdicts.CrashWhileRetiringIsAmbiguous` | crates/transcodarr-agent/src/commit.rs:289-297 | From a crash before any of the three calls that lead up to the Retired record being published, the next recovery ends, once it has had four answers, with the answer that an operator is needed; the record is kept and the original is whole in the trash. |
| `RitualVerdicts.TheFalseVerdictIsReached` | crates/transcodarr-agent/src/commit.rs:303-317 | From every initial state of every plan there is a run, one failing rename and one crash, that ends with recovery reporting an install while the original is at the destination and the replacement nowhere. |
| `Worker.Worker.Execute` | crates/transcodarr-agent/src/worker.rs:154-267 | The ritual runs if and only if the output passed, nothing revoked the job and permission came; otherwise one result is sent and nothing but the temporary file is touched; a ritual that ends is reported with its own verdict, one that failed as needing an operator. |
| `Worker.Worker.OnAssignment` | crates/transcodarr-agent/src/worker.rs:592-612 | A draining agent refuses with a failed result; otherwise the job is held while it runs and its claim and any revocation dropped however it ends. |
| `Worker.ReportsAreTruthful` | crates/transcodarr-agent/src/worker.rs:229-267 | What is reported of a ritual is so of the disk, whatever failed: an install reported done has the replacement at the destination and the original in the trash, a source reported kept is at home, and a ritual that failed is reported as needing an operator. |
| `WorkerRuns.InstallsAreNeitherDrainedNorRevoked` | crates/transcodarr-agent/src/worker.rs:592-639 | However assignments, revocations and a drain interleave, lock by lock: an assignment that installs was taken on before any drain, and when it was about to ask for permission no revocation of its job was outstanding. |
| `WorkerRuns.MarkedExactlyWhen` | crates/transcodarr-agent/src/worker.rs:592-628 | A job is marked as revoked if and only if it was revoked and no assignment of that job, whichever it was, has ended since. |
| `WorkerRuns.ClaimedExactlyWhen` | crates/transcodarr-agent/src/worker.rs:127-150 | An agent claims to run a job if and only if an assignment of it was taken up and since then none of it has ended and the job was not revoked. |
| `WorkerRuns.StoppedExactlyWhen` | crates/transcodarr-agent/src/worker.rs:214-223 | An encode that passed is not installed if and only if a revocation of its job is outstanding, whichever attempt it was meant for. |
| `WorkerRuns.ARevocationStopsTheNextAttempt` | crates/transcodarr-agent/src/worker.rs:605-628 | A run in which a job is revoked, handed out again, and the new attempt stopped by the old revocation. |
| `WorkerRuns.TheEndOfAnAttemptDropsTheRevocation` | crates/transcodarr-agent/src/worker.rs:605-612 | A run in which the end of one attempt drops the revocation of another, which goes on to install. |
| `Jobs.OneEdgeTakesASlot` | crates/transcodarr-core/src/job.rs:147-200 | Of all legal edges only Eligible to Assigned enters the states that hold a slot, and only Verifying leads into the commit window. |
| `Jobs.EachStateIsEnteredFrom` | crates/transcodarr-core/src/job.rs:147-200 | Where each state is entered from: anything that has not ended can be cancelled, what an agent holds or is between attempts can fail, only what it holds goes back for another attempt, and work moves forward one step at a time. |
| `Capacity.AcquireKeepsLimits` | crates/transcodarr-server/src/capacity.rs:177-207 | A grant there was room for keeps the total, per-class and large-file limits of every agent, and gives no job a second holder. |
| `Capacity.RefusalPersists` | crates/transcodarr-server/src/capacity.rs:177-207 | What there is no room for there is no room for in any ledger that has only gained grants since. |
| `Capacity.RefusedExactlyWithoutRoom` | crates/transcodarr-server/src/capacity.rs:177-207 | A grant is refused if and only if the agent is unknown, the job held somewhere, or the count of what the agent holds, of its class or, for a large file, of large files has reached its limit. |
| `Capacity.TheReasonIsTheFirst` | crates/transcodarr-server/src/capacity.rs:177-207 | The reason given is the first of those, in that order, that holds. |
| `Capacity.OrphansAreTheUnknown` | crates/transcodarr-server/src/capacity.rs:243-263 | A rebuild hands back exactly the jobs whose rows occupy a slot of an agent it does not know. |
| `Capacity.ReplayHoldsTheRows` | crates/transcodarr-server/src/capacity.rs:243-263 | For each known agent the rebuilt ledger holds a job if and only if a row shows it occupying a slot there, with the row's grant. |
| `Capacity.CapacityLedger.TryAcquire` | crates/transcodarr-server/src/capacity.rs:177-207 | Admits exactly when there is room by the counts, names the first obstacle otherwise, and takes all or nothing. |
| `Capacity.CapacityLedger.Release` | crates/transcodarr-server/src/capacity.rs:213-220 | Says whether the job held anything and takes it back; with one holder each, the job then holds nothing anywhere and nobody else is affected. |
| `Capacity.CapacityLedger.OnTransition` | crates/transcodarr-server/src/capacity.rs:228-232 | A slot is given back exactly on an edge out of the held states. |
| `Capacity.CapacityLedger.Rebuild` | crates/transcodarr-server/src/capacity.rs:243-263 | The loop equals the replay of the rows over emptied holdings, and returns the jobs of unknown agents. |
| `CapacityRuns.OneHolderOverAnyRun` | crates/transcodarr-server/src/capacity.rs:113-264 | Over any sequence of limits set, agents forgotten, grants, releases and rebuilds, no job is ever held by two agents. |
| `CapacityRuns.LoweredLimitFreezes` | crates/transcodarr-server/src/capacity.rs:118-127 | A limit lowered to what is held or less evicts nothing, and until something the agent holds is released admits nothing: over any sequence of operations its holdings stay exactly as they are. |
| `CapacityRuns.UsageFallsToTheLimit` | crates/transcodarr-server/src/capacity.rs:118-207 | Over any sequence of operations that leaves an agent's limits alone, its usage in all, of each class and of large jobs never exceeds the larger of the limit and what it was. |
| `CapacityRuns.GrantsLast` | crates/transcodarr-server/src/capacity.rs:177-220 | Over any sequence of operations a grant lasts until its job is released or its agent forgotten, and until then every request for the job is refused on every agent. |
| `CapacityRuns.ForgettingFreesItsJobs` | crates/transcodarr-server/src/capacity.rs:129-136 | Forgetting an agent frees exactly the jobs it held. |
| `Capability.SatisfiesReportsTheFirstUnmet` | crates/transcodarr-core/src/capability.rs:393-484 | No requirement is reported if and only if all are met; the one reported is the first unmet one. |
| `Capability.VerdictDependsOnTheKeyAlone` | crates/transcodarr-core/src/capability.rs:365-374 | The categorical verdict is a function of the bucket key: order and repetition of requirements do not matter beyond it. |
| `Dispatch.TwoStagesAreTheFullMatch` | crates/transcodarr-server/src/dispatch.rs:125-192 | Cached eligibility and admission together are the full match plus coverage of every path, also for streaming agents. |
| `Dispatch.MountAgentsMatchExactly` | crates/transcodarr-server/src/dispatch.rs:158-192 | For an agent that reads through mounts, with equal free-byte figures, the two stages are exactly the full match. |
| `Dispatch.StreamingAgentsAreTurnedAway` | crates/transcodarr-server/src/dispatch.rs:178-186 | A streaming agent without mounts meets every coverage requirement in the match and is refused every job that has one. |
| `Dispatch.AskAllFindsTheFirst` | crates/transcodarr-server/src/dispatch.rs:203-246 | The agent chosen is the first suitable one with a free slot; none is chosen only if every suitable one refuses; a refusal is always recorded once an agent was capable. |
| `Dispatch.EveryOutcomeIsJustified` | crates/transcodarr-server/src/dispatch.rs:200-286 | Each job of a round is placed or held back once, in order: placed on the first agent that takes work, may install, is not excluded, has everything asked for and has room at that moment; held back if there is none, and for want of capability exactly if no agent is even of the right kind. |
| `Dispatch.SuitableExactlyWhenFit` | crates/transcodarr-server/src/dispatch.rs:125-228 | What the cached and the per-job checks let through is exactly the agents that take work, may install, are not excluded and have what every requirement asks for, on the fields they advertise; a decode counts if its first verdict is that it was verified. |
| `Dispatch.HeldBackIsExplained` | crates/transcodarr-server/src/dispatch.rs:200-286 | A job held back for want of capacity is told why by the last agent of the right kind: what it is short of, or the limit it is at; one held back for want of capability is told exactly its categorical requirements. |
| `Dispatch.RoundKeepsLimits` | crates/transcodarr-server/src/dispatch.rs:200-286 | A round only adds to the ledger, within every limit and with one holder for each job. |
| `Dispatch.RoundIsMaximal` | crates/transcodarr-server/src/dispatch.rs:200-286 | When a round is over, no agent that fits a job it held back has room for that job. |
| `Dispatch.RoundHoldsItsPlacements` | crates/transcodarr-server/src/dispatch.rs:200-286 | The ledger after a round holds what it held before and the placements, and nothing else. |
| `Dispatch.Dispatcher.SetAgents` | crates/transcodarr-server/src/dispatch.rs:119-122 | A new fleet empties the cache, so every cached answer is right again. |
| `Dispatch.Dispatcher.AgentSatisfies` | crates/transcodarr-server/src/dispatch.rs:125-150 | The cached answer equals the answer computed afresh, and the cache stays right. |
| `Dispatch.Dispatcher.PlaceOne` | crates/transcodarr-server/src/dispatch.rs:203-283 | The search for one job decides, and leaves the ledger, as the search without a cache does. |
| `Dispatch.Dispatcher.Dispatch` | crates/transcodarr-server/src/dispatch.rs:200-286 | Any sequence of fleets and rounds decides what a dispatcher that matches afresh would decide, with the same ledger. |
| `RoundRules.PlacementsGoWhereTheyFit` | crates/transcodarr-server/src/orchestrator.rs:252-438 | Whatever a pass places waits in the queue and can be planned, and goes to an agent of the fleet that takes work, may install, has all the job asks for, and had room for it during the round. |
| `RoundRules.WhatIsLeftHasNoRoom` | crates/transcodarr-server/src/orchestrator.rs:252-438 | What waits, can be planned and was not placed, no such agent has room for when the round is over, if the queue fits the window a query reads. |
| `RoundRules.AllSilentWorkIsTakenBack` | crates/transcodarr-server/src/orchestrator.rs:600-680 | Of all the work agents hold, if it fits the window, a pass takes back exactly what belongs to agents not heard from. |
| `RoundRules.APausedPassStartsNothing` | crates/transcodarr-server/src/orchestrator.rs:243-290 | A pass that is paused or sees no agent grants no reservation, hands nobody a job, and leaves what agents heard from hold as it is. |
| `Reconcile.Reconcile` | crates/transcodarr-server/src/reconcile.rs:107-172 | The loop lists the verdicts of the jobs in order. |
| `Reconcile.SilenceIsNeverGuessed` | crates/transcodarr-server/src/reconcile.rs:107-172 | Acted on are exactly the jobs without an agent, without its connection, without a lease, or whose lease ran out longer ago than the grace: those of them mid-commit are escalated, the others give up their slot and are requeued from the state they were found in, and no commit is ever requeued. |
| `ServerInvariant.OneJobAtATime` | crates/transcodarr-store/src/repo/commit_intent.rs:186-253 | A change confined to one job that keeps its path and reserves no taken path keeps the agreement of job table and intent ledger. |
| `ServerInvariant.RequeuedIs` | crates/transcodarr-server/src/orchestrator.rs:817-873 | From Assigned, Running and Verifying a requeue always works: the current intent is closed and the job is on its next attempt, or dead-lettered when that was the last. |
| `ServerInvariant.PlacedOnIs` | crates/transcodarr-server/src/orchestrator.rs:440-583 | A placement does nothing exactly when the world is not ready or the destination is reserved; otherwise it is the whole handover, or the handover undone as a failed attempt when the assignment could not be sent. The intent id it would use was never used. |
| `ServerInvariant.PlacedOnIsSound` | crates/transcodarr-server/src/orchestrator.rs:440-597 | A placement keeps the agreement and touches one job. |
| `ServerPass.ReconciledKeepsSound` | crates/transcodarr-server/src/orchestrator.rs:600-680 | Reconciling decides each listed held job alone: nothing if attended, an operator's question with the destination still reserved if mid-commit, another attempt otherwise; every other job is untouched. |
| `ServerPass.ReconciledTakesBackExactlyTheSilent` | crates/transcodarr-server/src/orchestrator.rs:600-680 | A listed job whose agent is connected, on a lease that ran out no longer ago than 90 seconds, is left as it is; any other is taken back: an operator is asked about a commit, and anything else has lost its reservation and is queued for its next attempt, or dead-lettered without one. |
| `ServerPass.ReconciledFreesTheSlotsOfTheSilent` | crates/transcodarr-server/src/orchestrator.rs:640-678 | What is taken back and not mid-commit holds no slot anywhere afterwards; what is left alone or escalated holds what it held. |
| `ServerPass.SweptIs` | crates/transcodarr-server/src/orchestrator.rs:760-803 | The sweep closes exactly the listed intents of missing jobs and of finished jobs that no operator was asked about, and changes no job. |
| `ServerPass.SweptIsTidy` | crates/transcodarr-server/src/orchestrator.rs:760-803 | After it, every live intent belongs to a held job or to one that waits for an operator. |
| `ServerPass.RoundPlacesOnce` | crates/transcodarr-server/src/orchestrator.rs:229-328 | A pass places no job twice. |
| `ServerPass.PlacedAllIsSound` | crates/transcodarr-server/src/orchestrator.rs:298-326 | Carrying out a round keeps the agreement and tidiness, and touches only the jobs of the round. |
| `ServerRuns.TickIsSoundAndTidy` | crates/transcodarr-server/src/orchestrator.rs:229-328 | One whole pass keeps the agreement and leaves a live intent only on held jobs and on jobs that wait for an operator. |
| `ServerRuns.RunIsSound` | crates/transcodarr-server/src/orchestrator.rs:229-328 | In every run of passes, results, commit requests, reports, cancellations and new jobs: every held job has a live intent of its holder and epoch, no destination has two, no file two open jobs, no job an attempt beyond its budget, and none is left between two writes. |
| `ServerRuns.RunEndsTidy` | crates/transcodarr-server/src/orchestrator.rs:760-803 | Every run that ends in a pass ends tidy. |
| `ServerRuns.ResultKeepsSoundExactlyWhen` | crates/transcodarr-server/src/session.rs:1128-1233 | A result keeps the agreement if and only if it is not a heeded failure of a job that is Verifying or Committing; the attempt a result is about is not looked at. |
| `ServerRuns.ReportKeepsSoundExactlyWhen` | crates/transcodarr-server/src/session.rs:1433-1492 | A report keeps the agreement if and only if it is not about a job that was never allowed to install. |
| `ServerRuns.CommitAskedIsSound` | crates/transcodarr-server/src/session.rs:1259-1317 | Granting permission keeps the agreement: it is given only where it could be written down. |
| `ServerRuns.CancelIsSound` | crates/transcodarr-server/src/runtime.rs:172-218 | Cancelling, forced or not, keeps the agreement; a job mid-commit is never cancelled. |
| `ServerRuns.CreateIsSound` | crates/transcodarr-store/src/repo/job.rs:264-300 | A new job keeps the agreement: a file with an open job gets no second one. |
| `ServerMessages.ReportDecides` | crates/transcodarr-server/src/session.rs:1433-1493 | Of a committing job, from the holder of its live intent under its epoch: it succeeds if and only if the report is that it was installed, waits for an operator if and only if nobody knows, fails if and only if the source was kept, and the reservation is given up; from anybody else nothing changes. |
| `ServerMessages.AskingDecides` | crates/transcodarr-server/src/session.rs:1259-1432 | Permission to install is given if and only if the job is verified and the asker holds a live intent of it under that epoch; it is committing from then on and nothing else changes. |
| `ServerMessages.ResultDecides` | crates/transcodarr-server/src/session.rs:1128-1258 | A result moves a job if and only if it comes from its agent under its epoch while it is assigned or running: to verifying if the output passed, and otherwise back to the queue on the next attempt, or to the dead letters. |
| `ServerMessages.ResultCloses` | crates/transcodarr-server/src/session.rs:1128-1258 | A heeded failure closes the reservation of the attempt, and no result closes anything else. |
| `ServerMessages.CancellingDecides` | crates/transcodarr-server/src/runtime.rs:172-220 | Cancelled is exactly what waits or is between attempts, and by force what an agent holds before its commit. |
| `ServerMessages.CreatingDecides` | crates/transcodarr-store/src/repo/job.rs:264-297 | A job is created if and only if its id is new and no job that has not ended is for its file; it waits unassigned on its first attempt. |
| `ServerMessages.SettledExactlyWhenSaid` | crates/transcodarr-server/src/session.rs:977-984 | Of everything that can happen to the server a job becomes a success if and only if it is committing and the holder of its live intent reports it installed, and a failure if and only if that holder reports the source kept. |
| `ServerMessages.JobsAreSettledExactlyWhenSaid` | crates/transcodarr-server/src/session.rs:1433-1493 | In every run a job has succeeded, or failed, if and only if that was once said of it. |
| `ServerGuarantees.HistoryIsNeverRewritten` | crates/transcodarr-store/src/repo/commit_intent.rs:238-253 | In every run, legal or not, an intent keeps its holder, epoch and path and never becomes live again, so each id is granted at most once; a finished job is never changed and an attempt never counted down. |
| `ServerGuarantees.AssignmentsWithinBudget` | crates/transcodarr-server/src/orchestrator.rs:817-873 | In every reachable store a job has at most max(1, max_attempts) intents. |
| `ServerHandOvers.HandOversWithinBudget` | crates/transcodarr-server/src/orchestrator.rs:229-328 | Over every run the number of times a job is handed over equals the number of intent ids used for it, and is at most max(1, max_attempts). |
| `ServerHandOvers.EventCounts` | crates/transcodarr-server/src/orchestrator.rs:440-597 | No event hands a job over more than once, and one that does uses exactly one new intent id for it. |
| `ServerHandOvers.AssignedMeansHandedOver` | crates/transcodarr-server/src/orchestrator.rs:440-597 | No event but one that hands a job over leaves it assigned with a row it did not have before. |
| `ServerGuarantees.TickNeverReleasesACommit` | crates/transcodarr-server/src/orchestrator.rs:600-680 | No pass frees the destination of a job that is mid-commit or waits for an operator, and none decides such a job by itself. |
| `ServerGuarantees.UndecidedFileStaysReserved` | crates/transcodarr-server/src/orchestrator.rs:760-803 | Over every run, until its own agent reports, a file that waits for an operator stays reserved and no other job for that file is handed out. |
| `ServerGuarantees.TickSettlesNothing` | crates/transcodarr-server/src/orchestrator.rs:229-344 | No pass ever marks a job as having succeeded or failed: silence is neither. |
| `ServerGuarantees.CutPlacementWedges` | crates/transcodarr-server/src/orchestrator.rs:507-542 | Cut between the intent and the assignment, a placement leaves a live intent on a job nobody holds, which no sweep frees and which every later placement of that job runs into. |
| `ServerGuarantees.CutRequeueStrands` | crates/transcodarr-server/src/orchestrator.rs:819-867 | Cut after the job became Retrying, a requeue leaves it in a state no pass reads. |
| `ServerCapacity.WindowIsComplete` | crates/transcodarr-store/src/repo/job.rs:214-224 | A query returns every job of a state when those fit its window. |
| `ServerCapacity.RebuiltIsTheDatabase` | crates/transcodarr-server/src/orchestrator.rs:375-408 | When the held rows fit the window the rebuilt ledger shows every known agent exactly what the database shows it holding. |
| `ServerCapacity.TickKeepsWithin` | crates/transcodarr-server/src/orchestrator.rs:229-328 | A pass takes no agent past its total, per-class or large-file slots, counted in the database. |
| `ServerCapacity.RunKeepsWithin` | crates/transcodarr-server/src/orchestrator.rs:229-328 | With fixed limits, in every run, the database never shows an agent holding more than its slots. |
| `Orchestrator.Orchestrator.Requeue` | crates/transcodarr-server/src/orchestrator.rs:817-873 | The writes, one by one, leave the store of the specification, and the slot is released exactly when all of them were accepted. |
| `Orchestrator.Orchestrator.Place` | crates/transcodarr-server/src/orchestrator.rs:440-597 | The guarded writes of a placement, with its early exits and the undoing of one that was not delivered, leave the store of the specification. |
| `Orchestrator.Orchestrator.ReconcileSilence` | crates/transcodarr-server/src/orchestrator.rs:600-678 | Gathering the held rows and applying the verdicts in a loop is the specified reconciliation of store and ledger. |
| `Orchestrator.Orchestrator.SweepStrandedIntents` | crates/transcodarr-server/src/orchestrator.rs:760-803 | The loop over live intents is the specified sweep. |
| `Orchestrator.Orchestrator.RebuildCapacity` | crates/transcodarr-server/src/orchestrator.rs:375-408 | Setting the limits of the fleet and replaying the held rows gives the specified ledger, with one holder for each job. |
| `Orchestrator.Orchestrator.Tick` | crates/transcodarr-server/src/orchestrator.rs:229-328 | A pass over the real tables, ledger and cached dispatcher does what the specified pass does, and keeps all three valid for the next. |
| `AgentServer.PastStaysPast` | crates/transcodarr-server/src/session.rs:1259-1317 | A job once allowed to install is Committing or finished ever after, so it is never allowed again. |
| `AgentServer.DisownedExactlyWhen` | crates/transcodarr-server/src/session.rs:257-273 | A job is disowned if and only if it is that of a replayed record of which no live intent has the job or the destination. |
| `AgentServer.RegisterKeepsInv` | crates/transcodarr-server/src/session.rs:257-273 | What a registration disowns is on no way to an install. |
| `AgentServer.StepKeepsInv` | crates/transcodarr-agent/src/client.rs:738-772 | Every step of agent, wire and server keeps each job in one place on its way, reserved for this agent while it installs. |
| `AgentServer.RecoveryNeverOverlapsAnInstall` | crates/transcodarr-agent/src/client.rs:738-772 | Over any run of drops, restarts, reconnects, passes and messages, the recovery of a disowned record never meets a running install of its job, and startup recovery meets none at all. |
| `AgentServer.LateFailureLetsRecoveryIn` | crates/transcodarr-server/src/session.rs:1144-1187 | One heeded failure of an earlier attempt during an install is enough: the next registration disowns the record and recovery may run beside the install. |
| `LateFailureRun.AnOverlapIsReached` | crates/transcodarr-server/src/session.rs:1144-1187 | From an empty store and a fresh agent, for every job, path and agent with room: a run of legal steps, registration, pass, result, permission and install, after which one late failure and a reconnect let recovery in while that install runs. |
| `SharedDisk.CallKeepsFits` | crates/transcodarr-agent/src/commit.rs:221-452 | With jobs following one another at one destination: each system call of whoever is alone at work there keeps the account of the commit whose destination it is, and of the records earlier ones have left. |
| `SharedDisk.CommitFindsWhatWasLeft` | crates/transcodarr-agent/src/commit.rs:262-297 | A commit finds at its destination what the commit before it had found, or what that one put there. |
| `SharedDisk.LeftoverLosesExactlyWhen` | crates/transcodarr-agent/src/commit.rs:356-452 | The record an earlier install left, recovered while a later one's original is at home, loses that original if and only if the destination could not be seen, an older one is in the trash and could be, and the record says that it was retired. |
| `WholeSystem.NothingIsLostInTheWholeSystem` | crates/transcodarr-agent/src/client.rs:738-772 | Session, wire, server and disk in one system, any number of jobs following one another at a destination, recovery started by nothing but the session's leave: in every run no two are at work on one destination, no recovery starts beside its install, what each commit found is at exactly one of its two places until the next one looks, and what no commit has looked at is as it was. |
| `WholeSystem.AtWorkApart` | crates/transcodarr-server/src/session.rs:257-273 | Two installs, or an install and a recovery, that are at work at once have different destinations: it follows from one live intent for each destination and from what a registration disowns. |
| `WholeSystem.MoveKeepsCoupled` | crates/transcodarr-agent/src/commit.rs:221-452 | Every move keeps the session's account of installs and records the same as the disk's, one system call at a time. |
| `WholeSystem.RecoveryIsNeverEarly` | crates/transcodarr-agent/src/worker.rs:550-581 | Whenever the session lets a recovery start, its record is there and nothing is at work on it. |
| `WholeSystem.AnOverlapLosesTheOriginal` | crates/transcodarr-agent/src/commit.rs:298-317 | Why they must be apart: the recovery of a record, its own or an earlier one's for the same destination, run between two system calls of an install leaves the original's bytes nowhere. |
| `WholeOutcomes.OutcomesAreBorneOut` | crates/transcodarr-server/src/session.rs:977-984 | From nothing, in every run of server, wire, agent and disk, of a job under a reservation of this agent: if it has succeeded its install ended as landed, and if it has failed its install ended with the source where it was. |
| `WholeOutcomes.LandedIsInPlace` | crates/transcodarr-agent/src/commit.rs:298-333 | At the system call with which an install ends as landed, its replacement is at the destination, what it had found there is in the trash, and its record is gone. |
| `Policy.EvaluateExplained` | crates/transcodarr-core/src/policy.rs:338-490 | The loop decides what the policy means, and its trace names every rule looked at, whether it matched and exactly what it contributed. |
| `Policy.FirstIsFirst` | crates/transcodarr-core/src/policy.rs:397-456 | The rule the meaning picks for a stage is the first that matches and plans it. |
| `Policy.MatchesExactlyWhenAsked` | crates/transcodarr-core/src/policy.rs:52-95 | A match holds of a file if and only if each of its lists names something the file has, each bound is reached, an unknown width or bit rate counting as none, and each flag agrees. |
| `Policy.TheFirstStopDecides` | crates/transcodarr-core/src/policy.rs:397-456 | The first rule that applies and stops decides alone: no work, or quarantine. |
| `Policy.TheFirstAudioRuleDecides` | crates/transcodarr-core/src/policy.rs:397-456 | If none stops, audio is planned as the first applying rule for it says, and not at all without one. |
| `Policy.TheFirstVideoRuleDecides` | crates/transcodarr-core/src/policy.rs:397-456 | And video as the first applying rule for it says, at the source's depth or eight bits, unless the file is HDR or Dolby Vision or an applying rule before it forbids video. |
| `Policy.NoPolicyOverridesAnExclusion` | crates/transcodarr-core/src/policy.rs:338-393 | Whatever the rules, a file with object audio or Dolby Vision profile 0 or 7 is quarantined without work, and an HDR or Dolby Vision file gets no video work. |
| `Policy.ClassSaysTheStages` | crates/transcodarr-core/src/policy.rs:464-472 | The class of a decision names exactly the stages it plans. |
| `Policy.LaterRulesYield` | crates/transcodarr-core/src/policy.rs:397-456 | A rule added after rules that already plan both stages changes nothing unless it stops the evaluation. |
| `Policy.JobAndEncodeAgree` | crates/transcodarr-core/src/policy.rs:497-604 | For every decision there is a job if and only if there is an encode, and the one encoder demanded of the agent is the one the encode runs. |
| `Policy.EncodesAreToldWhatWasDecided` | crates/transcodarr-core/src/policy.rs:240-286 | Every encode keeps every stream and carries the quality, as digits that read back as it, or the bit rate that was decided on. |
| `JobFit.JobsFitExactlyThoseThatCanRunThem` | crates/transcodarr-core/src/policy.rs:497-604 | For every file and every list of rules: of the agents that take work, may install and are not excluded, the job fits exactly those with the class, the encoder, the container and, where the source's codec is known, the verified decode that its encode takes. |
| `JobFit.JobsAreSortedByWhatTheyTake` | crates/transcodarr-core/src/policy.rs:497-560 | A job is for a GPU exactly if NVENC runs it, for audio exactly if audio is owed, and large exactly from the upper threshold on. |
| `Policy.DepthIsPreservedOrUnpinned` | crates/transcodarr-core/src/policy.rs:262-281 | Video work whose first choice is a video encoder is always planned; a pinned pixel format has the source's bit depth, none is pinned exactly for a 12-bit source, and the semi-planar one exactly for NVENC at ten bits. |
| `Policy.TwelveBitsAreEncodedUnpinned` | crates/transcodarr-core/src/policy.rs:612-661 | Under the built-in policy every 12-bit file that is owed video work alone is planned for an encode without a pixel format. |
| `Policy.ATwelveBitFileIsEncodedUnpinned` | crates/transcodarr-core/src/policy.rs:612-661 | 12-bit H.264 at nine megabits a second with no sound is such a file. |
| `Policy.DefaultMeans` | crates/transcodarr-core/src/policy.rs:612-661 | The built-in policy owes audio work exactly for the unwanted codecs and video work exactly for the oversized or AV1 ones, with these encoders. |
| `Policy.AudioWorkIsConversion` | crates/transcodarr-core/src/facts.rs:240-244 | On files that are not excluded, owing audio work and needing conversion are the same. |
| `Policy.TwoPassesAreEnough` | crates/transcodarr-core/src/policy.rs:612-661 | Whatever else each new probe finds, a second job is never for audio and there is no third. |
| `Transfer.SourceStream` | crates/transcodarr-proto/src/transfer.rs:50-121 | For every file and pattern of short reads the chunks are the whole file in consecutive pieces and one terminator; a failing read ends them without one. |
| `Transfer.Sink.Accept` | crates/transcodarr-proto/src/transfer.rs:242-285 | A chunk is refused after completion, at a gap, on a failing disk or a wrong signature; otherwise it is appended, and completes exactly if it is the last. |
| `Transfer.CompletesExactlyWhenSigned` | crates/transcodarr-proto/src/transfer.rs:242-285 | A chunk completes a transfer if and only if it is the last, comes where the bytes before it ended, and its signature is that of all the bytes, with the disk obeying; a completed transfer takes nothing more. |
| `Transfer.CompleteIsSigned` | crates/transcodarr-proto/src/transfer.rs:242-285 | Whatever chunks arrive from whomever, bytes that are called complete have the signature a last chunk carried. |
| `Transfer.WholeFilesArrive` | crates/transcodarr-proto/src/transfer.rs:50-285 | A whole file sent in order over a working disk completes with the same bytes. |
| `Transfer.OnlyTheFileIsAccepted` | crates/transcodarr-proto/src/transfer.rs:242-285 | However one sender's chunks are dropped, repeated, reordered or cut off, what is written is a prefix of the file and complete means all of it, whatever the signature function. |
| `Transfer.FetchSource` | crates/transcodarr-agent/src/client.rs:425-491 | A fetch succeeds if and only if some prefix of the stream, without an error in it, completes a transfer, and then leaves what that transfer wrote; otherwise it leaves nothing. |
| `Transfer.FetchedIsTheFile` | crates/transcodarr-agent/src/client.rs:425-491 | A fetch fed by one sender's chunks ends with that sender's file. |
| `Fencing.EpochsSeparateProcesses` | crates/transcodarr-proto/src/handshake.rs:103-161 | Over any run of registrations accepted epochs never fall, and two are equal if and only if one and the same process was admitted throughout. |
| `Fencing.RegistryIsTheLastAdmission` | crates/transcodarr-server/src/session.rs:665-692 | The registry knows the process and epoch admitted last. |
| `Fencing.OnlyVersionsAreRefused` | crates/transcodarr-proto/src/handshake.rs:109-144 | A registration is refused exactly for a protocol outside the server's range or an agent version that is unknown or older than the least admitted, and then changes nothing. |
| `FencingRuns.TableHoldsTheNewestStream` | crates/transcodarr-server/src/fleet.rs:88-135 | Over any run of registrations, streams opened and ended, and heartbeats: the agent is in the table if and only if no stream of its newest stream's epoch has ended since that one opened, and its entry is that stream, its epoch and what was said last since. |
| `FencingRuns.StreamsShareAnEpochExactlyWhen` | crates/transcodarr-server/src/session.rs:819-880 | Two streams of a run share an epoch if and only if one process opened both with no other admitted between. |
| `FencingRuns.LateCloseEvictsExactlyWhen` | crates/transcodarr-server/src/session.rs:863-869 | The end of an older stream takes the agent out of the table if and only if it and the newest one were opened by one process with no other admitted between. |
| `Fencing.TeardownEvictsOnlyTheSameProcess` | crates/transcodarr-server/src/fleet.rs:119-127 | The late teardown of a displaced stream evicts its replacement if and only if both belong to the same process with no other admitted in between; no other agent is affected. |
| `Evaluator.Evaluator.EvaluateOne` | crates/transcodarr-server/src/evaluator.rs:114-194 | A file with facts is decided under the version; a job is added exactly when one is owed and none is open; the error is exactly an id already taken; and it counts as quarantined, as owed nothing or as busy by what its decision came to. |
| `Evaluator.Evaluator.EvaluateLibrary` | crates/transcodarr-server/src/evaluator.rs:79-112 | The loop ends; decided are exactly the files that fewer than a batch of fact-less files come before, each counted once, as quarantined, as owed nothing or as busy already by what its decision came to, or as a job created; no file has two open jobs; new jobs are for files that are owed one, and every decided file that is owed a job has an open one, except the one file an id already taken stopped it at. |
| `Evaluator.BatchIs` | crates/transcodarr-store/src/repo/file.rs:302-322 | The query returns exactly the pending files with fewer than a batch of pending files before them. |
| `Evaluator.CountedBelow` | crates/transcodarr-store/src/repo/file.rs:302-322 | Counted as pending are exactly the files not decided under the version, by whether they have facts. |
| `Evaluator.StuckBehindBlanks` | crates/transcodarr-server/src/evaluator.rs:103-110 | When a batch makes no progress, a batch of fact-less files comes before every file that could be decided. |
| `Hardening.DelaysAreBounded` | crates/transcodarr-server/src/hardening.rs:93-104 | A retry waits between half a minute and an hour. |
| `Hardening.DelaysDouble` | crates/transcodarr-server/src/hardening.rs:93-104 | The first wait is half a minute and each is twice the one before it, until an hour is reached. |
| `Hardening.RetriesEndExactlyWhen` | crates/transcodarr-server/src/hardening.rs:74-92 | A job stops exactly for a permanent failure, and is given up on exactly when a failure that another attempt might mend was its last attempt. |
| `Hardening.DelaysNeverShrink` | crates/transcodarr-server/src/hardening.rs:74-105 | A later attempt never waits less, and once the budget is spent it stays spent. |
| `Hardening.AgentHealth.RecordFailure` | crates/transcodarr-server/src/hardening.rs:136-155 | The answer is true on exactly the failure that takes the agent out of rotation, judged by its whole history. |
| `Hardening.AgentHealth.RecordSuccess` | crates/transcodarr-server/src/hardening.rs:125-127 | A success ends the streak and returns nobody to rotation. |
| `Hardening.OnlyClearingReturnsAnAgent` | crates/transcodarr-server/src/hardening.rs:173-182 | However many jobs succeed afterwards, a quarantined agent stays out until it is cleared. |
| `Hardening.OutOfRotationMeans` | crates/transcodarr-server/src/hardening.rs:136-182 | An agent is out of rotation if and only if it failed five times in a row at some point and has not been cleared since, whatever else happened. |
| `Hardening.ClearedStartsAfresh` | crates/transcodarr-server/src/hardening.rs:173-182 | After a clearing, what takes an agent out of rotation is exactly what would take out one that has just joined. |
| `Reconnect.Delay` | crates/transcodarr-agent/src/client.rs:174-193 | The hashing loop and the jitter give a delay of at least half the base and at most the base, which is at most the ceiling. |
| `Reconnect.StepIsFnvExactlyWhen` | crates/transcodarr-agent/src/client.rs:182-186 | The multiplier in the code is not the prime of FNV-1a: the two multiply a word to the same if and only if it ends in 24 zero bits. |
| `Reconnect.TheHashIsNotFnv` | crates/transcodarr-agent/src/client.rs:182-186 | A single letter already hashes to something else than FNV-1a gives for it. |
| `Reconnect.BaseFollows` | crates/transcodarr-agent/src/client.rs:175-180 | The base starts at the first delay, is doubled for sixteen attempts, stops at the ceiling and then stays, although a doubling may overflow. |
| `Reconnect.DelayIsBounded` | crates/transcodarr-agent/src/client.rs:187-192 | For every policy, attempt and hash, half the base is at most the delay, which is at most the base and the ceiling, although the product wraps. |
| `Reconnect.DelaysGrowUntilCapped` | crates/transcodarr-agent/src/client.rs:175-180 | While the next doubling is not capped the next delay is not shorter, whatever the hashes. |
| `Reconnect.CappedDelaysShrinkExactlyWhen` | crates/transcodarr-agent/src/client.rs:174-193 | Once the base is at the ceiling, or past the sixteenth attempt, the next delay can be shorter, with some pair of hashes, if and only if the base is four nanoseconds or more. |
| `Reconnect.DelaysShrinkExactlyWhen` | crates/transcodarr-agent/src/client.rs:174-193 | At every attempt, the one that meets the ceiling included, for bases of up to 2^33 nanoseconds: the next delay can be shorter, with some pair of hashes, if and only if half the next base is less than all but one nanosecond of this one. |
| `Reconnect.LargeDelaysShrinkWhen` | crates/transcodarr-agent/src/client.rs:187-192 | For larger bases, whose product wraps: it cannot be shorter if half the next base exceeds half of this one by a spread of 2^32 nanoseconds, and can be if it falls short of that by as many nanoseconds as half this base has spreads. |
| `Reconnect.DefaultDelaysGrow` | crates/transcodarr-agent/src/client.rs:158-165 | With the default policy the next delay can be shorter if and only if the ceiling has been met. |
| `Reconnect.DelayIsZeroExactlyWhen` | crates/transcodarr-agent/src/client.rs:187-192 | A delay is zero if and only if its base is under two nanoseconds. |
| `Shutdown.NoLostWakeup` | crates/transcodarr-agent/src/client.rs:621-660 | In every interleaving of any number of stops and waiters, once a stop has finished no waiter is parked un-notified. |
| `Shutdown.EveryWaiterReturns` | crates/transcodarr-agent/src/client.rs:649-660 | After a finished stop every waiter returns within three actions of its own. |
| `Shutdown.CheckingFirstLosesTheWakeup` | crates/transcodarr-agent/src/client.rs:651-655 | With the flag read before registering, a waiter can be parked for good. |
| `Command.FormatCommand` | crates/transcodarr-core/src/plan.rs:337-350 | The loop renders the program and each argument, quoted where it must be. |
| `Command.CommandsReadBack` | crates/transcodarr-core/src/plan.rs:337-350 | For a program that is a plain command name, a POSIX shell finds it and every argument by splitting and unquoting alone if and only if no unquoted argument holds an operator, expansion or pattern character, or starts with one that means more there. |
| `Command.ProgramIsNotQuoted` | crates/transcodarr-core/src/plan.rs:338-338 | A program with a space in its path is read back as two words. |

## Left out

- Power loss: renames that were not synced may be reordered by a power cut; only process crashes are modelled.
- `Harden` in the step machine stands for the several reads and syncs of the output before the original is retired; they change nothing the model shows.
- Journal file names: the sanitised names of two job ids may coincide; records are found here by job and attempt.
- Record fields that recovery does not read: epoch, signature and guard.
- Orchestrator.Orchestrator.Tick: does not model the persisted reasons for blocking, nor the counts a pass returns; they explain the system and do not steer it.
- Orchestrator.Orchestrator.Place: whether a plan can be built, the agent's capability read and its work area named is one answer of the world; the paths and arguments of the assignment are not composed.
- ServerRuns.RunIsSound: does not model the loss of an accepted write or two passes at once.
- Session messages (results, commit requests, reports) are functions on the store, each handled as one step; their interleaving at the level of single writes is not modelled.
- Streaming agents' pushes: on the server they are a commit request and a report, and are modelled as those two.
- Worker.Worker.Execute: a revocation that arrives during the encode is an answer of the world, not another task; `WorkerRuns` has it as one.
- WorkerRuns.InstallsAreNeitherDrainedNorRevoked: marking a job and dropping its claim are one step of a revocation.
- WholeSystem.NothingIsLostInTheWholeSystem: a session does not end while a recovery it started is running, unless the process does; several agents on one disk are not modelled: a record one of them has left is recovered at its startup whoever holds the destination by then, which `AnOverlapLosesTheOriginal` shows the cost of.
- Reconnect.LargeDelaysShrinkWhen: does not decide the bases between its two bounds, a gap of at most as many nanoseconds as half the base has multiples of 2^32; which hash wraps to the largest spread there depends on the divisors of the base.
- Fencing.EpochsSeparateProcesses: the version of an agent arrives parsed; parsing is left out.
- Command.CommandsReadBack: does not model a program that is itself quoted, an assignment or a reserved word.
- RitualRuns.OriginalIsNeverLost: does not model installs that share paths, because `WholeSystem` does.
- Evaluator.Evaluator.EvaluateLibrary: a file is its facts and the version it was decided under; the id of a job is any function of file and job.
- The leases heartbeats extend, schedules, metrics, and the wording of every reason.
- Validation gates, presets, argument vectors and path translation: one-branch facts.
- Foreign processes (ffmpeg, ffprobe), surveys, scanning and the command line.
- The pushing half of the chunk sender differs from the fetching half only in ending silently on a read error.
