# Verified model of Zekam's effect protocols and scripts

This project models the parts of Zekam whose correctness depends on what happens across many
steps: the commands that call model providers under one-shot authority, the concurrent
benchmark writers, and the scripts that decide, mutate, rank, install and report.

**Effects.** `Ledger.dfy` holds the contracts the commands rely on: a durable claim before an
effect, at most one receipt per claim, a job that closes once, transactions that are all or
nothing, and a transport that is reached only under a claim. Every statement may raise, before
or after it takes effect, following an arbitrary fault schedule. `RoutingMutation`, the
`Campaign*` modules and the `Capability*` modules run the commands on that ledger and prove, for
every schedule, what a normal exit, a sealed exit and an interrupted one leave behind.

**Concurrency.** `WaveStart` (two barriers, N lanes) and `SerializedProducers` (P producers, one
bounded queue, one writer, one reader) are state machines; theorems quantify over all
interleavings.

**Trees and graphs.** `StrictSchema` (a reference-following decision on JSON Schema),
`MutationGate` (a stateful tree transformer and the selection of what it mutates) and
`RuntimeReachability` (a worklist).

**Algorithms.** `ChunkText`, `RankFusion` and `RankingMetrics`, over exact numbers.

**Small protocols.** `ModelInstaller` (crash-safe installation) and `FailureAnnotations`
(bounded, escaped output).

`Scripts.dfy` judges a fault schedule against a list of statements: which first fault is critical.
`Finite.dfy` and `Decimals.dfy` hold the shared facts about finite sets and numerals.

## Where the code does not meet its promise

Each of these is proved with an exact condition or a concrete input.

- A routing mutation whose claim statement raises after the claim is durable is sealed with a
  claim that has no receipt; that is the only way (`RoutingMutation.RunDbMutation`), and one
  exception is enough (`LostClaim`).
- The campaign's recovery outcome is refused exactly when the interrupted member's local verdict
  and durable rows disagree (`CampaignCommand.RecoveryOutcomeAccepted`). Three kinds of statement
  cause that, each with one kind of exception. A failed health row of a live, adopted or recovered
  member, and an adopted benchmark row, are written before the verdict is noted: they cause it by
  raising after they took effect (`CampaignMembers.WrittenButUnjudged`). A live benchmark row is
  written after its verdict is noted: it causes it by raising before it takes effect
  (`JudgedButUnwritten`). The first exception decides, and `CampaignScript.LoopScript` lists every
  statement of the loop with its critical kind (`CampaignCommand.Run`, `Scripts.LosesExactly`). The
  recovery counts exceed the member count by one when nobody is undecided.
- A capability episode cannot be sealed by its own handler after an exception between a completed
  receipt and its outcome, because the database refuses completed outcomes of a job that needs
  recovery, nor after a commit that took effect and raised all the same; `EpisodeScript` lists the
  statements (`CapabilityEpisode.RunEpisode`, `CompletedReceiptUnrecordable`, `LostCommit`).
- A cohort with an episode that failed, timed out or was unsafe cannot be finalized, because the
  command counts it as a contract failure and the database does not
  (`CapabilityCohort.AcceptedExactly`); and a finalization that fails after all episodes succeeded
  cannot be sealed either, because the coordinator owns no slot (`CapabilitySeal.CapabilityRun.FinishRun`,
  `CapabilityCommand.RunCapability` for the whole run).
- A schema reference with more than one segment is looked up by its last segment
  (`StrictSchema.TargetsAgree`, `NestedReferenceMisread`).
- Of two mutations of the same kind at the same place only the first visited node is ever mutated
  (`MutationGate.ListedIsFound`, `OuterNeverMutated`).
- Fusion prefers agreement only up to length k+1 and only without duplicates; the dense channel may
  hold duplicates (`RankFusion.AgreementBound`, `DuplicatesBreakAgreement`). `DuplicateBound` gives
  the exact length for every multiplicity.
- The installer refuses to overwrite existing files, yet replaces a manifest, a regular file, that is
  unreadable, names another model, or agrees with the pins while one is missing, provided no present
  pin is wrong; in every other case the manifest stays, unless a read failed (`ModelInstaller.Installer.Install`,
  `ReplaceForeign`, `ModelInstaller.ForeignManifestLost`).
- An annotation loses the characters of a path that UTF-8 cannot encode
  (`FailureAnnotations.BytesParse`).

## Model

| member | source | states |
|---|---|---|
| `Ledger.EffectLedger.ClaimEffect` | src/zekam/application/execution.py:194-246 | a claim starts without a receipt, and a second claim of the same effect raises and writes nothing |
| `Ledger.EffectLedger.RecordReceipt` | src/zekam/application/execution.py:248-290 | a claim gets at most one receipt; a second one raises and writes nothing |
| `Ledger.EffectLedger.Finish` | legacy-preserved/src-postgres/runtime_repository.py:510-576 | closing a job that is not running answers false and changes nothing; a success close with a pending claim raises |
| `Ledger.EffectLedger.Transmit` | src/zekam/application/provider_contract_runner.py:136-286 | an effect leaves the process only under its own durable claim, and never twice |
| `Ledger.EffectLedger.Invoke` | src/zekam/application/provider_contract_runner.py:136-286 | one exact provider call: it returns normally exactly when nothing raised and the effect was new, and then claim, completed receipt and transmission are all there; whatever raises, at most one transmission and no earlier receipt is touched |
| `RoutingMutation.Publish` | legacy-preserved/active-cli-post-wp14/model_routing.py:432-464 | mutation rows, success receipt, checkpoint and job close appear together or not at all; they do exactly when the four statements before the commit do not raise and the commit does not fail before it takes effect |
| `RoutingMutation.Seal` | legacy-preserved/active-cli-post-wp14/model_routing.py:472-486 | the recovery transaction settles the bound claim with a failure and closes the job, or changes nothing; it raises if and only if one of its statements raises or the job is closed already |
| `RoutingMutation.RunDbMutation` | legacy-preserved/active-cli-post-wp14/model_routing.py:416-489 | for every fault schedule the success traces are all there or all absent, exactly by the first seven statements; a normal return coincides with no fault; after a single fault the run is sealed unless it had succeeded; a sealed job has all claims settled exactly when the claim statement did not raise after taking effect |
| `RoutingMutation.LostClaim` | legacy-preserved/active-cli-post-wp14/model_routing.py:421-486 | one exception, after the claim statement took effect: the job is sealed and re-raised with a claim without receipt |
| `CampaignRows.SumsGrow` | legacy-preserved/migrations/0018_opencode_benchmark_campaign.sql:460-535 | recording one member result adds exactly its own call counts to the sums the outcome row is checked against |
| `CampaignRows.AttemptedFrom` | legacy-preserved/active-cli-post-wp14/model_campaign.py:815-821 | the attempted call ids are the ids of the provider claims, no more and no fewer |
| `CampaignRows.AttemptedGrows` | legacy-preserved/active-cli-post-wp14/model_campaign.py:815-821 | a first claim of a call raises the attempt counts by exactly one |
| `CampaignRows.AttemptedMonotone` | legacy-preserved/active-cli-post-wp14/model_campaign.py:815-821 | later claims never lower the attempt counts |
| `CampaignRows.AttemptedWithinBudget` | legacy-preserved/migrations/0018_opencode_benchmark_campaign.sql:460-535 | attempts never exceed the calls of the plan, nor benchmark attempts its benchmark calls |
| `CampaignManifest.CallIdInjective` | src/zekam/application/opencode_benchmark_campaign.py:516-523 | a call id determines model, fixture and repetition even when model names contain dashes |
| `CampaignManifest.ManifestCallsCount` | src/zekam/application/opencode_benchmark_campaign.py:494-571 | a manifest holds one health call and the repetitions for every model |
| `CampaignManifest.ManifestPlanOk` | src/zekam/application/opencode_benchmark_campaign.py:494-571 | every manifest over distinct models is a valid plan: unique ids, one health call per model, no id that collides with a reserved step |
| `CampaignManifest.ManifestInOrder` | src/zekam/application/opencode_benchmark_campaign.py:509-571 | a model's calls in the manifest are its health call and then its benchmark calls by repetition, which is the order the member sorts them into |
| `CampaignMembers.HealthCall` | legacy-preserved/active-cli-post-wp14/model_campaign.py:1818-1821 | the search for the member's health call always finds one |
| `CampaignMembers.Record` | legacy-preserved/active-cli-post-wp14/model_campaign.py:1859-1873 | a member result is written once per stage: a replay of the same result changes nothing, a different one raises |
| `CampaignMembers.AdoptMember` | legacy-preserved/active-cli-post-wp14/model_campaign.py:1711-1772 | an adopted member makes no call and ends with the parent's last verdict in rows, local sets and digest; an exception anywhere leaves the loop invariant, with memory and rows apart exactly when a row that decides was written and its statement raised all the same |
| `CampaignMembers.RecoverMember` | legacy-preserved/active-cli-post-wp14/model_campaign.py:1774-1816 | the recovered member makes no call and ends as a failed health check, in the failed set and in its row |
| `CampaignMembers.CallProvider` | legacy-preserved/active-cli-post-wp14/model_campaign.py:1825-1833 | a provider call of the current member goes out at most once and keeps the loop invariant whether it raises or not |
| `CampaignMembers.RunTrial` | legacy-preserved/active-cli-post-wp14/model_campaign.py:1947-2026 | one trial: the database is the old one with three claims, each with its completed receipt, one transmission of this call follows the old ones, its evidence is recorded; it takes eleven statements |
| `CampaignMembers.RunBenchmark` | legacy-preserved/active-cli-post-wp14/model_campaign.py:1942-2084 | the benchmark calls of a member whose health check passed go out in order, and the member passes if and only if every trial is valid and the repetitions stable; every benchmark call on the wire follows an approved health call of its model |
| `CampaignMembers.VerdictReady` | legacy-preserved/active-cli-post-wp14/model_campaign.py:2028-2071 | the local verdict and the benchmark row together decide the member; between the two memory and rows are apart |
| `CampaignMembers.FailHealth` | legacy-preserved/active-cli-post-wp14/model_campaign.py:1874-1899 | a failed health check ends the member in the failed set without any claim or transmission, and every benchmark call gets not-run evidence |
| `CampaignMembers.LiveMember` | legacy-preserved/active-cli-post-wp14/model_campaign.py:1818-2084 | a live member ends decided: it passes if and only if its health call is approved and its benchmark good; its calls on the wire are the health call and, only if that is approved, its benchmark calls in order, an initial part of them on an exception; every call on the wire has its receipt as evidence and every other one is noted as not run; its result rows account for exactly these calls and no other row changes |
| `CampaignMembers.RunMember` | legacy-preserved/active-cli-post-wp14/model_campaign.py:1680-2084 | one pass of the member loop keeps the invariant between members, verdicts, evidence and digests included, and leaves the interrupted invariant wherever it raises; the member's calls go out in order, all of them unless it raised; memory and rows are then apart exactly as its script says of the first fault |
| `CampaignMembers.WrittenButUnjudged` | legacy-preserved/active-cli-post-wp14/model_campaign.py:1711-1875 | a row that is durable before the command has noted it parts memory from rows unless it is a passed health check: failed health rows of live, adopted and recovered members, and adopted benchmark rows |
| `CampaignMembers.JudgedButUnwritten` | legacy-preserved/active-cli-post-wp14/model_campaign.py:2032-2077 | a verdict of a live benchmark that is noted before its row is written parts them until the row is there |
| `CampaignScript.BenchmarksOfExact` | legacy-preserved/active-cli-post-wp14/model_campaign.py:1943-1946 | the benchmark calls of a member are exactly its benchmark calls in the plan, none twice, in the order of the plan |
| `CampaignScript.OfKindExact` | legacy-preserved/active-cli-post-wp14/model_campaign.py:1818-1821 | the calls of one kind of a member are exactly those of the plan, none twice, in the order of the plan |
| `CampaignScript.LoopCallsSplit` | legacy-preserved/active-cli-post-wp14/model_campaign.py:1680-2084 | the calls of two groups of members are the calls of the one and then the calls of the other |
| `Scripts.LosesExactly` | legacy-preserved/active-cli-post-wp14/model_campaign.py:2221-2330 | what one run of statements loses is decided by its first fault alone: some statement meets its critical kind of fault and none before it raised |
| `Scripts.LosesLater` | legacy-preserved/active-cli-post-wp14/model_campaign.py:1680-2084 | a script in two parts is judged by the first part if something raised there, else by the second |
| `CampaignCommand.EveryStepHasResult` | legacy-preserved/active-cli-post-wp14/model_campaign.py:2154-2162 | at publication no step of the plan lacks a checkpoint result, benchmark calls never run included |
| `CampaignCommand.StepsDistinct` | legacy-preserved/active-cli-post-wp14/model_campaign.py:200-270 | no step id occurs twice in the plan |
| `CampaignCommand.StepResults` | legacy-preserved/active-cli-post-wp14/model_campaign.py:2152-2162 | collecting the step results raises exactly when some step has none, and otherwise pairs each step with its own result |
| `CampaignCommand.RunMembers` | legacy-preserved/active-cli-post-wp14/model_campaign.py:1680-2084 | the whole member loop: all members decided, each with the verdict the plan and the evaluators call for, on a normal end; the interrupted invariant for the current member otherwise, consistent exactly as the script of the loop says; the transmissions are an initial part of the determined calls of all members, on a normal end all of them |
| `CampaignCommand.CompletedOutcomeAccepted` | legacy-preserved/active-cli-post-wp14/model_campaign.py:2086-2119 | the outcome computed from local sets and claims is accepted by the constructor and the database trigger, which count rows |
| `CampaignCommand.RecordQualifications` | legacy-preserved/active-cli-post-wp14/model_campaign.py:2128-2151 | each member gets exactly one qualification event, with its own verdict; it raises exactly on a fault |
| `CampaignCommand.QualifiedByVerdict` | legacy-preserved/active-cli-post-wp14/model_campaign.py:2128-2151 | the events are the verdicts that the plan and the evaluators call for |
| `CampaignCommand.LoopCallsExact` | legacy-preserved/active-cli-post-wp14/model_campaign.py:1818-2026 | a call of the plan is determined to go out if and only if its member is among them, neither adopted nor recovered, and it is a health call or its member's health check was approved |
| `CampaignCommand.CheckpointSaid` | legacy-preserved/active-cli-post-wp14/model_campaign.py:2123-2162 | the checkpoint of a published run: orchestration, each call's receipt if it was transmitted and that it was not run otherwise, each member's result at its deciding stage, finalization |
| `CampaignCommand.ResultsSaid` | legacy-preserved/active-cli-post-wp14/model_campaign.py:1711-2077 | the result rows of a published run: an adopted member repeats the parent's results and a recovered one is a failed health check, both without a call; a live one accounts for its health call and, only if that was approved, for all its benchmark calls |
| `CampaignCommand.PassedCounted` | legacy-preserved/active-cli-post-wp14/model_campaign.py:2086-2119 | the outcome counts exactly the members that are qualified as passed |
| `CampaignCommand.SentCounted` | legacy-preserved/active-cli-post-wp14/model_campaign.py:2086-2119 | the outcome counts exactly the calls that went out, and of these exactly the benchmark calls |
| `CampaignCommand.PublishedAccounts` | legacy-preserved/active-cli-post-wp14/model_campaign.py:2086-2192 | result rows, checkpoint, qualifications and outcome of a published run say, entry by entry, what the plan, the evaluators and the wire say |
| `CampaignCommand.Publish` | legacy-preserved/active-cli-post-wp14/model_campaign.py:2123-2192 | outcome, qualifications, checkpoint, receipt and job close are all or nothing, and it raises exactly on a fault |
| `CampaignCommand.Seal` | legacy-preserved/active-cli-post-wp14/model_campaign.py:2241-2257 | once the handler's first transaction commits every claim has exactly one receipt and the job needs recovery; it raises if and only if one of its statements raises or the job is closed already |
| `CampaignCommand.RecoveryOutcomeAccepted` | legacy-preserved/active-cli-post-wp14/model_campaign.py:2314-2329 | the database accepts the recovery outcome if and only if the interrupted member stands in memory where its durable rows put it |
| `CampaignCommand.RecoveryCountsCover` | legacy-preserved/active-cli-post-wp14/model_campaign.py:2314-2329 | the three counts sum to the member count exactly when someone is undecided, otherwise to one more |
| `CampaignCommand.RecoveryRowNeutral` | legacy-preserved/active-cli-post-wp14/model_campaign.py:2263-2313 | a recovery row changes no verdict and no call sum |
| `CampaignCommand.ProjectedNext` | legacy-preserved/active-cli-post-wp14/model_campaign.py:2263-2313 | one more member: exactly the recovery row its own rows call for is added |
| `CampaignCommand.ProjectRecovery` | legacy-preserved/active-cli-post-wp14/model_campaign.py:2263-2330 | the recovery projection raises if and only if something raises again or the interrupted member is inconsistent; otherwise every member without a row gets a recovery health row, the current member with a stored plan and a passed health check but no benchmark row gets a recovery benchmark row, and every other row is as it was |
| `CampaignCommand.WireBounded` | legacy-preserved/active-cli-post-wp14/model_campaign.py:1825-2026 | distinct calls of a plan never outnumber the plan |
| `CampaignCommand.Recover` | legacy-preserved/active-cli-post-wp14/model_campaign.py:2221-2330 | the handler never turns a published campaign into a sealed one, nor the reverse; without a fault of its own it seals exactly a running job and writes the recovery rows and outcome exactly for a consistent member |
| `CampaignCommand.Run` | legacy-preserved/active-cli-post-wp14/model_campaign.py:1680-2330 | for every fault schedule: success markers are all there or all absent; the transmissions are an initial part of the determined calls, all of them once published; a normal exit coincides with no fault and has published everything, with result rows, a checkpoint, qualifications and an outcome that account for the plan, the evaluators and the wire; a sealed exit has every claim settled, the job recovery-required and, once projected, exactly the recovery rows that were missing; unsealed means published or a second fault; after a single fault the recovery outcome is written if and only if that fault was not critical for the statement it hit |
| `CampaignContinuation.Represent` | legacy-preserved/active-cli-post-wp14/model_campaign.py:522-567 | the parent's results are accepted if and only if every model with a result is terminal, and then each is adopted with its own rows' verdicts and the represented calls are exactly theirs |
| `CampaignContinuation.AdoptedVerdict` | legacy-preserved/active-cli-post-wp14/model_campaign.py:522-567 | an adopted model passes in the continuation if and only if both its parent rows passed, and fails if and only if one of them failed |
| `CampaignContinuation.CallsOfExact` | legacy-preserved/active-cli-post-wp14/model_campaign.py:632-640 | the calls of the active models are exactly those of the manifest, none twice, in its order |
| `CampaignContinuation.AttemptedCalls` | legacy-preserved/active-cli-post-wp14/model_campaign.py:569-608 | reading the parent's attempts gives exactly the provider claims with a receipt, and raises if and only if one of those lacks evidence under a recovery-required job or a call occurs twice |
| `CampaignContinuation.ActiveNeverAttempted` | legacy-preserved/active-cli-post-wp14/model_campaign.py:632-640 | a call of an active model was never attempted by the parent |
| `CampaignContinuation.NextPlanOk` | legacy-preserved/active-cli-post-wp14/model_campaign.py:630-640 | the continuation's plan is a valid plan whose live models are exactly the active ones |
| `CampaignContinuation.NextPlanContinues` | legacy-preserved/active-cli-post-wp14/model_campaign.py:632-640 | for a manifest within the cumulative budget, parent attempts and continuation calls together stay within it |
| `CampaignContinuation.ContinuationPlan` | legacy-preserved/active-cli-post-wp14/model_campaign.py:519-660 | the continuation is accepted if and only if the parent can be continued around one unprojected health call; then it only makes calls the parent never attempted; the guards on repeated calls and on the cumulative budget can never fire |
| `CampaignContinuation.NoCallTwice` | legacy-preserved/active-cli-post-wp14/model_campaign.py:515-619 | over a parent run and its continuation no call is transmitted twice, at most 102 go out, and adopted or recovered models make none |
| `CampaignContinuation.RunWithContinuation` | legacy-preserved/active-cli-post-wp14/model_campaign.py:443-664 | the two commands one after the other under any two fault schedules: each ends as the command ends, the second runs if and only if the parent can be continued, no call goes out twice, adopted and recovered models make no call in the second, and a published continuation qualifies every adopted model as its parent rows stood |
| `CapabilityEpisode.PrepareTurn` | legacy-preserved/active-cli-post-wp14/model_capability.py:456-560 | before a call the turn has its continuity state, chained on the previous response, and its authority; an exception leaves the episode invariant |
| `CapabilityEpisode.InvokeTurn` | legacy-preserved/active-cli-post-wp14/model_capability.py:437-641 | one turn: claimed, called, receipted, checkpointed and recorded; an exception leaves the invariant the handler relies on, and an episode it can seal exactly as the script of the turn says of the first fault |
| `CapabilityEpisode.CallInterrupted` | legacy-preserved/active-cli-post-wp14/model_capability.py:570-590 | an exception inside the provider call leaves at most one new claim, no outcome, and the wire in turn order |
| `CapabilityEpisode.RecordedComplete` | legacy-preserved/active-cli-post-wp14/model_capability.py:591-641 | after turn t exactly turns 1 to t are claimed, receipted, recorded and on the wire, and the next prior digest is the response of turn t |
| `CapabilityEpisode.RunTurns` | src/zekam/application/model_capability_live.py:615-849 | turns run in order to the first response that breaks the turn contract, or to the last, a turn determined by the responses; the calls are an initial part of these turns |
| `CapabilityEpisode.StopsOnce` | src/zekam/application/model_capability_live.py:615-849 | there is exactly one turn at which an episode stops |
| `CapabilityEpisode.FinishEpisode` | legacy-preserved/active-cli-post-wp14/model_capability.py:667-754 | a normal end leaves job, receipts, episode row and terminal record agreeing on status and attempted turns; an exception defeats the handler exactly from the commit on |
| `CapabilityEpisode.SettlePending` | legacy-preserved/active-cli-post-wp14/model_capability.py:766-772 | every pending claim gets a failure receipt and no other receipt changes; it raises exactly on a fault |
| `CapabilityEpisode.RecordTurns` | legacy-preserved/active-cli-post-wp14/model_capability.py:786-868 | every claimed turn the command has not recorded gets one checkpoint and one outcome, that of a failed turn being the recovery digest of its episode; it raises exactly on a fault or when a turn cannot be recorded |
| `CapabilityEpisode.SealTransaction` | legacy-preserved/active-cli-post-wp14/model_capability.py:773-868 | the handler's transaction is all or nothing and raises exactly on a fault, a job not running, or a turn that cannot be recorded |
| `CapabilityEpisode.SealEpisode` | legacy-preserved/active-cli-post-wp14/model_capability.py:756-889 | the whole handler: it succeeds if and only if nothing raises again, the job was running, no outcome was committed behind the command's back and, under the trigger, no completed call is left to record |
| `CapabilityEpisode.CompletedReceiptUnrecordable` | legacy-preserved/migrations/0024_capability_runtime_terminal_episodes.sql:229-278 | the trigger refuses a completed outcome once the job needs recovery, so an exception right after a completed receipt leaves the job unsealed |
| `CapabilityEpisode.LostCommit` | legacy-preserved/active-cli-post-wp14/model_capability.py:614-634 | a commit that takes effect and still raises leaves an outcome the handler cannot record again |
| `CapabilityEpisode.OutcomesMatchClaims` | legacy-preserved/active-cli-post-wp14/model_capability.py:786-868 | in a sealed or finished episode provider claims and call outcomes match one to one |
| `CapabilityEpisode.RunEpisode` | legacy-preserved/active-cli-post-wp14/model_capability.py:648-889 | for every fault schedule: outcomes are always backed by their own claim, receipt and checkpoint, turns are chained, calls are an initial part of turns 1 to n in order, a succeeded job is fully accounted for, and a sealed one is settled with one outcome per claim; a normal return coincides with no fault in the script and has sent all n turns; after a single fault the episode is sealed if and only if that fault was not critical for the statement it hit |
| `WaveStart.LateMeans` | legacy-preserved/active-cli-post-wp14/model_capability.py:655-657 | the skew verdict depends on the list alone: some two start times are further apart than the budget |
| `WaveStart.FullBarrier` | legacy-preserved/active-cli-post-wp14/model_capability.py:651 | a full barrier has every lane in it, so a release is all or none |
| `WaveStart.StepInv` | legacy-preserved/active-cli-post-wp14/model_capability.py:648-657 | every step of every lane keeps the invariant of the two-barrier start |
| `WaveStart.ListFull` | legacy-preserved/active-cli-post-wp14/model_capability.py:652-655 | past the second barrier the list holds one start per lane and no more |
| `WaveStart.WaveSafe` | legacy-preserved/active-cli-post-wp14/model_capability.py:648-667 | under every interleaving no lane calls the provider before all lanes own their jobs and have posted; all judge the same full list; a refused lane and a provider call never occur in one wave |
| `WaveStart.RunRank` | legacy-preserved/active-cli-post-wp14/model_capability.py:648-667 | a wave has no infinite run |
| `WaveStart.SomeoneMoves` | legacy-preserved/active-cli-post-wp14/model_capability.py:651-654 | while a lane has not ended some lane can move without an exception, and the barrier timeout is needed only once a lane has crashed |
| `WaveStart.WavesNeverOverlap` | legacy-preserved/active-cli-post-wp14/model_capability.py:1434-1464 | steps, and so calls, of one task wave never interleave with those of another |
| `CapabilityCohort.FinishedEpisode` | legacy-preserved/active-cli-post-wp14/model_capability.py:701-754 | a finished episode's outcomes are its turns up to the last attempted one and its skipped slots exactly the later ones; episode row and terminal record give its status, its attempted turns and whether it broke the turn contract |
| `CapabilityCohort.KeysComplete` | legacy-preserved/active-cli-post-wp14/model_capability.py:1434-1464 | waves cover every pair of task and model once |
| `CapabilityCohort.KeysOrdered` | legacy-preserved/active-cli-post-wp14/model_capability.py:1434-1464 | wave order: by task and then by model |
| `CapabilityCohort.SlotsComplete` | src/zekam/application/model_capability_live.py:412-424 | the manifest's slots are every model, task and turn, each once |
| `CapabilityCohort.SlotsOrdered` | src/zekam/application/model_capability_live.py:412-424 | manifest order: by model, then task, then turn |
| `CapabilityCohort.CalledSlots` | legacy-preserved/active-cli-post-wp14/model_capability.py:1511-1526 | a slot is called, or skipped, exactly as its episode's attempted turns say |
| `CapabilityCohort.SlotsPartitioned` | legacy-preserved/active-cli-post-wp14/model_capability.py:1526-1538 | every slot is exactly one of called or skipped, and calls plus skips equal models times tasks times eight |
| `CapabilityCohort.FailedByKey` | legacy-preserved/active-cli-post-wp14/model_capability.py:1530-1534 | the map of episodes that did not pass holds exactly those, each under its own key |
| `CapabilityCohort.SlotResults` | legacy-preserved/active-cli-post-wp14/model_capability.py:1556-1573 | the per-slot lookup never fails: a slot without a call belongs to an episode stopped by the turn contract |
| `CapabilityCohort.CountsAgree` | legacy-preserved/active-cli-post-wp14/model_capability.py:1530-1536 | counting episodes that did not pass and counting contract-failed terminal records agree exactly when no episode failed otherwise |
| `CapabilityCohort.PassingCounted` | legacy-preserved/active-cli-post-wp14/model_capability.py:1530-1536 | the counts of the aggregate are the numbers of episodes that passed and that did not |
| `CapabilityCohort.AcceptedExactly` | legacy-preserved/migrations/0024_capability_runtime_terminal_episodes.sql:280-355 | the database accepts the aggregate if and only if no episode ended failed, timed out or unsafe |
| `CapabilityCohort.FailedEpisodeRefused` | legacy-preserved/active-cli-post-wp14/model_capability.py:1530-1536 | one failed episode beside a passed one is enough for refusal, whatever the rows |
| `CapabilityCohort.StepsMatch` | legacy-preserved/active-cli-post-wp14/model_capability.py:1548-1583 | the checkpoint's steps are the plan's steps in the plan's order |
| `CapabilityCohort.PlanStepsDistinct` | legacy-preserved/active-cli-post-wp14/model_capability.py:168-242 | no step occurs twice in the plan |
| `CapabilityCohort.Finalize` | legacy-preserved/active-cli-post-wp14/model_capability.py:1468-1625 | finalization of a completed cohort publishes if and only if no episode is neither passed nor contract-failed, with counts that conserve the slots and a checkpoint that gives each slot its call or its skip, each episode its result, and the finalization its digest |
| `CapabilitySeal.SealedIsSettled` | legacy-preserved/active-cli-post-wp14/model_capability.py:951-975 | a sealed job has every claim settled, every pending one with a failure, and keeps the receipts it had |
| `CapabilitySeal.SealedAccepted` | legacy-preserved/migrations/0024_capability_runtime_terminal_episodes.sql:351-354 | the recovery aggregate is accepted if and only if some episode job did not succeed |
| `CapabilitySeal.CapabilityRun.CloseJob` | legacy-preserved/active-cli-post-wp14/model_capability.py:951-975 | closing one open job settles its pending claims with failures and changes nothing else |
| `CapabilitySeal.CapabilityRun.SealRun` | legacy-preserved/active-cli-post-wp14/model_capability.py:892-1011 | the sealer's transaction is all or nothing and raises if and only if something raises or every episode job succeeded; its aggregate counts the call outcomes of all episodes |
| `CapabilitySeal.CapabilityRun.FinishRun` | legacy-preserved/active-cli-post-wp14/model_capability.py:1468-1686 | after a cohort whose episodes all succeeded it publishes exactly if nothing raises and every episode is comparable, with an aggregate that counts every slot once; no failed finalization is ever sealed: the coordinator's job stays running and its claim without receipt |
| `CapabilityCommand.RunLane` | legacy-preserved/active-cli-post-wp14/model_capability.py:437-889 | one lane is its episode command on its own job: a result exactly if no statement raised, and whatever raised a sound episode and calls in turn order |
| `CapabilityCommand.LaneResult` | legacy-preserved/active-cli-post-wp14/model_capability.py:701-754 | the result of a lane is what its episode stored: the status of the episode row, and as many attempted turns as calls went out |
| `CapabilityCommand.RowsExact` | legacy-preserved/active-cli-post-wp14/model_capability.py:1501-1526 | the coordinator reads a call at a slot if and only if that episode recorded an outcome for that turn, with the checkpoint of that turn |
| `CapabilityCommand.CallsCounted` | legacy-preserved/active-cli-post-wp14/model_capability.py:980-1000 | the sealer's count over episodes is the number of slots with a recorded outcome |
| `CapabilityCommand.RunWave` | legacy-preserved/active-cli-post-wp14/model_capability.py:1434-1464 | all lanes of a wave end; it returns normally exactly if none raised, with one result per model |
| `CapabilityCommand.CollectWaves` | legacy-preserved/active-cli-post-wp14/model_capability.py:1433-1467 | the waves return normally exactly when every lane does, and then with one result per task and model in wave order; else the wave in which a lane raised still ends and no later one begins |
| `CapabilityCommand.WavesAll` | legacy-preserved/active-cli-post-wp14/model_capability.py:1433-1467 | no wave has a disturbed lane exactly if no task and model pair has |
| `CapabilityCommand.EpisodesStored` | legacy-preserved/active-cli-post-wp14/model_capability.py:1501-1526 | finished episodes, one per key, have stored exactly the calls, skipped slots and terminal records that finalization expects of their results |
| `CapabilityCommand.RunCapability` | legacy-preserved/active-cli-post-wp14/model_capability.py:1425-1686 | the whole command for every fault schedule of every lane and of the coordinator: it is published if and only if nothing raised anywhere and every episode passed or broke its turn contract, and then every slot is counted once and the checkpoint is stored; with a raised lane an undisturbed sealer closes every open job unless all episode jobs succeeded, and its aggregate counts every slot with a recorded outcome; otherwise an incomparable episode leaves the coordinator running with a claim without receipt |
| `SerializedProducers.OffsetTotal` | benchmarks/suites/wp01_sqlite_operational.py:243-256 | the producers' shares add up to the rows |
| `SerializedProducers.SharesEven` | benchmarks/suites/wp01_sqlite_operational.py:243-256 | earlier producers get as much as later ones or one row more |
| `SerializedProducers.OwnerOf` | benchmarks/suites/wp01_sqlite_operational.py:243-256 | every ordinal belongs to some producer's share |
| `SerializedProducers.SharesApart` | benchmarks/suites/wp01_sqlite_operational.py:243-256 | shares of different producers do not meet |
| `SerializedProducers.Shares` | benchmarks/suites/wp01_sqlite_operational.py:243-256 | the loop hands out exactly these shares |
| `SerializedProducers.StepInv` | benchmarks/suites/wp01_sqlite_operational.py:226-229 | every step of every thread keeps per-producer order, the writer's accounts, the commit points and the reader's bound |
| `SerializedProducers.AllTaken` | benchmarks/suites/wp01_sqlite_operational.py:266-270 | when the writer has seen as many end markers as producers the queue is empty and nobody has anything left to put |
| `SerializedProducers.RowWork` | benchmarks/suites/wp01_sqlite_operational.py:226-252 | a row's work id is its place in the range, cyclically from one |
| `SerializedProducers.NeverStuck` | benchmarks/suites/wp01_sqlite_operational.py:226-229 | until the final commit some thread other than the reader can move, for every capacity of at least one |
| `SerializedProducers.RunsEnd` | benchmarks/suites/wp01_sqlite_operational.py:264-288 | a run has at most two steps per row and producer and the final commit, and is closed exactly at that number |
| `SerializedProducers.RunsGoOn` | benchmarks/suites/wp01_sqlite_operational.py:264-288 | no run is stuck before the final commit |
| `SerializedProducers.ExactlyOnce` | benchmarks/suites/wp01_sqlite_operational.py:216-300 | under every interleaving each sequence number of the range is inserted exactly once, with the work id its place in the range gives, everything is committed at the end, and the reader's counts never decrease |
| `StrictSchema.ClosedFixed` | scripts/paket_dogrula.py:139-152 | closedness is a fixed point of its unfolding |
| `StrictSchema.ClosedLeast` | scripts/paket_dogrula.py:139-152 | and the least one |
| `StrictSchema.StrictCloses` | scripts/paket_dogrula.py:139-152 | what the recursion accepts is closed |
| `StrictSchema.ClosedIsStrict` | scripts/paket_dogrula.py:139-152 | the path set never rejects a closed schema |
| `StrictSchema.StrictExactly` | scripts/paket_dogrula.py:134-154 | the recursion decides exactly the least fixed point, cyclic definitions included, and raises only when `$defs` is not an object |
| `StrictSchema.TargetsAgree` | scripts/paket_dogrula.py:142-147 | the last-segment lookup follows the JSON Pointer on every document if and only if the reference has one segment after the prefix |
| `StrictSchema.StrictMeansGuarded` | scripts/paket_dogrula.py:134-154 | a strict root makes every validator's accepted instances objects accepted by a closed leaf that declares all their fields, provided each reference the decision follows reads the same by last segment and as a pointer, as single-segment references do |
| `StrictSchema.GuardedExactly` | scripts/paket_dogrula.py:134-154 | for any one document: every validator guards it if and only if, following pointers, every way ends at a closed object or at a reference to nothing |
| `StrictSchema.NestedReferenceMisread` | scripts/paket_dogrula.py:144 | with a two-segment reference the answer is strict while a validator accepts a plain string |
| `MutationGate.FirstIsFirst` | scripts/critical_mutation_gate.py:184-221 | the matched path matches, and no node visited earlier does |
| `MutationGate.Transformer.Visit` | scripts/critical_mutation_gate.py:179-221 | the stateful visit rewrites exactly the first match in visiting order, returns everything else unchanged, and does nothing once applied |
| `MutationGate.Mutated` | scripts/critical_mutation_gate.py:224-231 | a mutant is produced exactly when there is a first match that can be rewritten, with one application, and differs from the tree in the rewritten node |
| `MutationGate.RewriteMeans` | scripts/critical_mutation_gate.py:56-69 | what a rewritten node computes: an ordering differs from the original exactly for equal operands, any other comparison and a returned Boolean are the negation, conjunction and disjunction change places, and a guard's test is false |
| `MutationGate.MutantMeans` | scripts/critical_mutation_gate.py:184-231 | the mutant has such a rewritten node at the first match and is the tree elsewhere |
| `MutationGate.ReplaceElsewhere` | scripts/critical_mutation_gate.py:179-221 | away from the rewritten path nothing changes; above it only the child it passes through |
| `MutationGate.FlipTwiceRestores` | scripts/critical_mutation_gate.py:56-69 | comparison, membership and boolean mutations applied twice restore the tree |
| `MutationGate.LiteralTwiceRestores` | scripts/critical_mutation_gate.py:215-221 | a literal mutation applied twice restores the text if and only if the returned constant was a Boolean |
| `MutationGate.Candidates` | scripts/critical_mutation_gate.py:80-150 | the listing holds exactly the candidates of the tree's nodes, each once, sorted by line, column and family; equal keys come in any order |
| `MutationGate.CandidateMeans` | scripts/critical_mutation_gate.py:80-150 | which nodes are listed and in which family: single comparisons, all conjunctions and disjunctions, guards with a `raise`, returned Booleans |
| `MutationGate.ListingsAgree` | scripts/critical_mutation_gate.py:150 | whatever order equal keys come in, two listings agree place by place on key and mutant |
| `MutationGate.ListedIsFound` | scripts/critical_mutation_gate.py:179-221 | every listed mutation finds a node to rewrite, and it is the listed one if and only if no earlier node has the same kind and place |
| `MutationGate.SamePlaceSameMutant` | scripts/critical_mutation_gate.py:184-189 | listed mutations of the same kind and place make the same mutant |
| `MutationGate.OuterNeverMutated` | scripts/critical_mutation_gate.py:201-206 | for `a and b or c` both listed mutations rewrite the inner operation |
| `MutationGate.Group` | scripts/critical_mutation_gate.py:154-156 | grouping keeps every candidate in its family, in order |
| `MutationGate.Select` | scripts/critical_mutation_gate.py:153-176 | the selection is the first fifty of heads by family name and tails by priority, and raises exactly below fifty candidates |
| `MutationGate.RankingPermutes` | scripts/critical_mutation_gate.py:153-176 | the ranking only reorders the candidates |
| `MutationGate.SelectionFair` | scripts/critical_mutation_gate.py:153-176 | nothing is selected more often than listed and every family with a candidate is represented |
| `MutationGate.SelectionStable` | scripts/critical_mutation_gate.py:153-176 | so the same mutants are selected in the same order whatever the order of the hash set |
| `MutationGate.SelectionOrder` | scripts/critical_mutation_gate.py:153-176 | one of each family comes first, by name, then the others family by family in the order of priority |
| `MutationGate.OfInOrder` | scripts/critical_mutation_gate.py:154-156 | within a family the listed order stays |
| `ChunkText.NormalizeIsLines` | benchmarks/suites/wp01_knowledge_corpus.py:172 | the two replacements are universal newlines in one pass |
| `ChunkText.NormalizeBlank` | benchmarks/suites/wp01_knowledge_corpus.py:172-174 | normalizing decides nothing about blankness |
| `ChunkText.StripKeeps` | benchmarks/suites/wp01_knowledge_corpus.py:183-185 | a strip takes blanks off both ends and nothing else |
| `ChunkText.LastBreak` | benchmarks/suites/wp01_knowledge_corpus.py:180 | the search returns the last line break in range |
| `ChunkText.Chunks` | benchmarks/suites/wp01_knowledge_corpus.py:171-190 | the loop produces the stripped non-blank pieces of the tiling windows, and nothing for a blank text |
| `ChunkText.TilingUnique` | benchmarks/suites/wp01_knowledge_corpus.py:177-190 | a text has only one tiling, so the chunks are determined |
| `ChunkText.WindowShape` | benchmarks/suites/wp01_knowledge_corpus.py:177-190 | windows are at most 1600 long, overlap by exactly 240 and advance by at least 560 |
| `ChunkText.WindowEnds` | benchmarks/suites/wp01_knowledge_corpus.py:177-182 | a window that reaches the end of the text ends there; any other ends at the last line break of its second half, or after 1600 characters if there is none |
| `ChunkText.PiecesInOrder` | benchmarks/suites/wp01_knowledge_corpus.py:183-186 | the chunks are the stripped windows that are not blank, in the order of the windows |
| `ChunkText.WindowsCover` | benchmarks/suites/wp01_knowledge_corpus.py:177-190 | every character lies in a window |
| `ChunkText.WindowCount` | benchmarks/suites/wp01_knowledge_corpus.py:177-190 | there are at most (length - 1) / 560 + 1 windows |
| `ChunkText.WindowsRebuild` | benchmarks/suites/wp01_knowledge_corpus.py:177-190 | dropping the overlaps gives the normalized text back |
| `ChunkText.ChunksMeanText` | benchmarks/suites/wp01_knowledge_corpus.py:171-190 | there are chunks exactly when the text is not blank, none is blank or too long, and every visible character is in one |
| `RankFusion.ChannelScoreAt` | benchmarks/suites/wp01_knowledge_corpus.py:462-465 | in a channel without duplicates a path scores by its one rank |
| `RankFusion.AddChannel` | benchmarks/suites/wp01_knowledge_corpus.py:463-465 | accumulating a channel adds its reciprocal ranks and nothing else |
| `RankFusion.Sorted` | benchmarks/suites/wp01_knowledge_corpus.py:466-467 | the sorted entries are exactly the scored paths, by score and then name |
| `RankFusion.Fuse` | benchmarks/suites/wp01_knowledge_corpus.py:459-468 | the fused list is the one ranking of all paths up to the limit, place by place |
| `RankFusion.RankingUnique` | benchmarks/suites/wp01_knowledge_corpus.py:467 | there is only one ranking of a set of entries |
| `RankFusion.RankingExists` | benchmarks/suites/wp01_knowledge_corpus.py:459-468 | every pair of channels has a ranking |
| `RankFusion.LessMeans` | benchmarks/suites/wp01_knowledge_corpus.py:467 | names are compared at the first character in which they differ, a proper beginning coming first |
| `RankFusion.FusionDistinct` | benchmarks/suites/wp01_knowledge_corpus.py:459-468 | fused output is duplicate-free and holds exactly the paths of the channels |
| `RankFusion.FusionSymmetric` | benchmarks/suites/wp01_knowledge_corpus.py:459-468 | swapping the channels changes nothing |
| `RankFusion.AgreementWins` | benchmarks/suites/wp01_knowledge_corpus.py:459-468 | for duplicate-free channels of length at most k+1 every path in both precedes every path in one |
| `RankFusion.CutKeepsAgreement` | benchmarks/suites/wp01_knowledge_corpus.py:468 | truncation never keeps a path of one channel and drops one of both |
| `RankFusion.AgreementBound` | benchmarks/suites/wp01_knowledge_corpus.py:459-468 | k+1 is exactly the length that guarantees this |
| `RankFusion.OneTooMany` | benchmarks/suites/wp01_knowledge_corpus.py:459-468 | at length k+2 it fails, by a tie that goes to the name |
| `RankFusion.DuplicatesBreakAgreement` | benchmarks/suites/wp01_knowledge_corpus.py:463-465 | a path twice in one channel can outscore a path in both, for every k |
| `RankFusion.DuplicateBound` | benchmarks/suites/wp01_knowledge_corpus.py:459-468 | the exact bound: up to a length and a multiplicity agreement always comes first if and only if the last rank of both channels outscores as many first ranks of one as a path can hold |
| `RankingMetrics.DcgIdeal` | benchmarks/suites/wp01_knowledge_bakeoff.py:532-538 | a gain never beats the ideal order of as many relevant paths and reaches it exactly on a prefix |
| `RankingMetrics.ReciprocalMeans` | benchmarks/suites/wp01_knowledge_bakeoff.py:526-531 | a positive rank times its reciprocal is one, and no rank gives nothing |
| `RankingMetrics.DcgMeans` | benchmarks/suites/wp01_knowledge_bakeoff.py:532-535 | each relevant path adds the discount of its place to the gain and any other nothing |
| `RankingMetrics.NdcgMeans` | benchmarks/suites/wp01_knowledge_bakeoff.py:532-538 | nDCG is the gain over the gain of as many leading relevant paths, at least one and at most ten |
| `RankingMetrics.SumMeans` | benchmarks/suites/wp01_knowledge_bakeoff.py:514-538 | a sum changes by what one of its terms changes |
| `RankingMetrics.AnswerableExact` | benchmarks/suites/wp01_knowledge_bakeoff.py:514-516 | the answerable cases are exactly the cases with an expected path, as often as they occur and in order |
| `RankingMetrics.NdcgRange` | benchmarks/suites/wp01_knowledge_bakeoff.py:532-538 | nDCG lies in 0..1 and is 1 exactly when the relevant paths form a non-empty prefix |
| `RankingMetrics.NdcgNeedsLimit` | benchmarks/suites/wp01_knowledge_bakeoff.py:536 | ten results is exactly the limit that keeps nDCG at most 1 |
| `RankingMetrics.Recall` | benchmarks/suites/wp01_knowledge_bakeoff.py:516-521 | recall is the share of cases with a hit among the first k |
| `RankingMetrics.Evaluate` | benchmarks/suites/wp01_knowledge_bakeoff.py:514-538 | the metrics are means over the answerable cases, and without one the evaluation fails |
| `RankingMetrics.MetricsOrdered` | benchmarks/suites/wp01_knowledge_bakeoff.py:514-560 | 0 <= recall@1 <= MRR <= recall@10 <= 1, and the mean nDCG is in 0..1 |
| `ModelInstaller.Installer.Verify` | scripts/install_local_e5_model.py:197-247 | verification changes nothing; mismatched is what has a drifted record or is a wrong file, missing what has its record but, unless a read failed, no file, and the rest is right; without a mishap it gives a report |
| `ModelInstaller.Installer.Download` | scripts/install_local_e5_model.py:250-281 | wherever it fails or dies, a download adds only its own checked file or a temporary one; without a mishap it succeeds when the request delivers the pinned bytes |
| `ModelInstaller.Installer.MoveIntoPlace` | scripts/install_local_e5_model.py:274 | the replacement happens entirely or not at all |
| `ModelInstaller.Installer.WriteManifest` | scripts/install_local_e5_model.py:284-304 | the manifest is the old one or the complete new one |
| `ModelInstaller.Installer.InstallPin` | scripts/install_local_e5_model.py:315-324 | a right file is reused, a wrong one refused, a missing one downloaded; a present file is never touched |
| `ModelInstaller.Installer.InstallPins` | scripts/install_local_e5_model.py:314-324 | the downloads are exactly the pins that were missing; supplied and without a mishap they are all had if and only if no present pin is wrong |
| `ModelInstaller.Installer.Install` | scripts/install_local_e5_model.py:307-333 | a run that returns has every pin in place; the manifest changes only if no pin is wrong and no record drifted; a run that is supplied and meets no mishap goes through if and only if that holds, downloads exactly what was missing, and replaces the manifest unless all was verified |
| `ModelInstaller.Installer.ReplaceForeign` | scripts/install_local_e5_model.py:307-333 | an unreadable or foreign manifest, a regular file, is overwritten once every pin is present |
| `ModelInstaller.ForeignManifestLost` | scripts/install_local_e5_model.py:307-333 | a concrete installation in which any unreadable manifest is lost |
| `ModelInstaller.Installer.Reruns` | scripts/install_local_e5_model.py:307-333 | over any number of failed, killed and repeated runs present pins stay right, no regular file but the manifest is overwritten and that one only if no pin was wrong, and a manifest of our own stays true; once all pins are there nothing is requested; supplied runs without a mishap succeed unless a pin is wrong or a record drifted |
| `FailureAnnotations.ChainEscapes` | scripts/ci_pytest.py:32-42 | the five replacements in sequence escape character by character |
| `FailureAnnotations.EscapeRoundTrip` | scripts/ci_pytest.py:32-42 | a reader gets the escaped text back |
| `FailureAnnotations.PropertyRoundTrip` | scripts/ci_pytest.py:32-42 | a property value round-trips its first 500 characters and contains no separator |
| `FailureAnnotations.SafeChars` | scripts/ci_pytest.py:28-29 | the masked text keeps every allowed character, turns a line break into a space and anything else into a question mark, up to the limit |
| `FailureAnnotations.CommandIsLine` | scripts/ci_pytest.py:78-84 | every command is one line |
| `FailureAnnotations.CommandParses` | scripts/ci_pytest.py:78-83 | a parser recovers file and line from the command |
| `FailureAnnotations.CommandShows` | scripts/ci_pytest.py:70-84 | a command ends with the masked test and phase, and a report without a place shows nothing before them |
| `FailureAnnotations.DecodeEncode` | scripts/ci_pytest.py:81 | the emitted bytes decode to the encoded text |
| `FailureAnnotations.LossyCommand` | scripts/ci_pytest.py:70-84 | replacing what cannot be encoded commutes with cutting, escaping and masking, for reports with and without a place |
| `FailureAnnotations.BytesParse` | scripts/ci_pytest.py:70-84 | on the emitted bytes: a report without a place shows none; file and line read back, the file exactly when its first 500 code points hold no lone surrogate |
| `FailureAnnotations.SummaryFits` | scripts/ci_pytest.py:100-104 | the reserve holds the summary if and only if fewer than ten to the 166th reports were omitted |
| `FailureAnnotations.SummarySays` | scripts/ci_pytest.py:100-104 | the number of omitted reports can be read from the summary |
| `FailureAnnotations.PayloadBounded` | scripts/ci_pytest.py:85-104 | the payload is at most 64 KiB |
| `FailureAnnotations.AcceptedOrdered` | scripts/ci_pytest.py:70-92 | accepted commands keep the order of the reports |
| `FailureAnnotations.AcceptedGreedily` | scripts/ci_pytest.py:85-92 | a report is left out only if 100 commands stand already or its own goes beyond what 64 KiB leave beside the summary |
| `FailureAnnotations.AcceptedBounded` | scripts/ci_pytest.py:85-92 | at most 100 commands and 64 KiB less the reserve are accepted, each one line |
| `FailureAnnotations.AcceptedAll` | scripts/ci_pytest.py:85-92 | while the budget lasts every report is accepted |
| `FailureAnnotations.PayloadLines` | scripts/ci_pytest.py:99-104 | a reader of the stream sees exactly the accepted commands, one per line, then at most the summary |
| `FailureAnnotations.Annotations.Emit` | scripts/ci_pytest.py:70-92 | a report is accepted or counted as omitted, exactly by the budget |
| `FailureAnnotations.Annotations.WriteAll` | scripts/ci_pytest.py:108-113 | under any partial writes exactly the payload goes out, or a proper part of it when a write fails |
| `FailureAnnotations.Annotations.Flush` | scripts/ci_pytest.py:94-113 | the buffer is cleared whatever happens, and with positive writes exactly the payload is written |
| `RuntimeReachability.ClosedContains` | scripts/audit_runtime_reachability.py:153-162 | a set that holds the roots and is closed under imports holds everything reachable |
| `RuntimeReachability.Search` | scripts/audit_runtime_reachability.py:153-162 | the worklist terminates and returns exactly the reachable modules, duplicates in the queue or not |
| `RuntimeReachability.Leaked` | scripts/audit_runtime_reachability.py:259-269 | a leak is reported if and only if an import path joins a root to a forbidden module |
| `RuntimeReachability.MoreImportsReachMore` | scripts/audit_runtime_reachability.py:153-162 | adding imports only adds reachable modules |
| `Decimals.DecimalRoundTrip` | scripts/ci_pytest.py:80 | a printed number reads back as itself |
| `Decimals.DecimalLength` | scripts/ci_pytest.py:100-104 | a number has at most k digits exactly below ten to the k |

## Left out

- SQL, command-line options, console and JSON rendering, exit codes: plumbing around the protocols.
- Authorizations, governance, the secret broker and the transport: statements that may raise; the
  state of an authorization after a failed mutation is not modelled.
- Digests, claim ids and row ids are abstract terms; hash strength is not modelled.
- Wall-clock times, latency, leases, deadlines and thread timeouts: any of them is a fault or, for
  the barrier, a break; a queue read that times out is not modelled.
- Floating point: scores, discounts and metrics are exact reals.
- Chains of more than one campaign continuation: the command checks only the direct parent.
- The parent's continuity bindings are one Boolean in `ContinuationPlan`.
- Replays of an outcome, a qualification or a plan row (`on conflict do nothing`): each is written
  once in a run.
- The order of adopted rows before sorting; the model keeps the parent's two stages.
- Scorecards and aggregation of capability scores: sums over one model's episodes.
- Lease and lock rows, and the attempt row, that the capability sealer updates beside the job.
- A schema's `$id` scopes, percent and tilde escapes in references, and pointers into arrays.
- Syntax trees are values, so editing a node in place and aliasing between nodes are not captured;
  positions are taken as the parser gives them.
- The guard-removal mutation has no inverse, so nothing is claimed for applying it twice.
- Directories created for pinned files, and links in the middle of a pinned path, in the installer.
- The hash loop of the installer is one read; the streaming loop is modelled chunk by chunk.
- Wheel inventory, configuration and missing-root findings of the reachability audit.
- Vector and database engines, process kills, file locks and network denial of the benchmark suites.
- Read-only commands, catalog and schema generators, golden registries: easy members.
