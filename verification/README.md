# Chitragupta agent runtime: a verified model

This project models the stateful core of the agent runtime in `packages/anina/src` and proves what
its operations keep, over all inputs and whole runs. `dafny verify dfyconfig.toml` checks it.

| part | modules | main results |
|---|---|---|
| Kaala Brahma, the agent tree manager | AgentForest, AgentLifecycle, AgentFates, AgentRuns, PromotionRuns, KaalaBrahmaManager | who survives a healing pass and as what, told from status and last beat; every run with fresh ids keeps a forest under all three orphan policies; upward walk and downward search agree; kills are exact and leaves first in every such run; healing settles in three passes; exact condition for each step to keep the spawn limits |
| Nidra, the sleep-cycle daemon | NidraCycle, NidraRuns, NidraPhases, NidraDaemonClass | exactly when a notification forces deep sleep; the effect of every event; no session id is lost except in named cases; late results are inert; the durable row equals memory and a crash recovers |
| Context compaction | Reals, TextRank, TextRankProgram, RankMeaning, Messages, MinHash, HashCoefficients, HashTrace, NearDuplicates, Scoring, Compaction | rank bounds and contraction, and which messages rank least; signatures as least hashed values; exact clusters and survivors, and exactly when they are what is documented; exact description of what pruning keeps; compaction is an ordered subsequence ending with the last message |
| Research refinement | Text, Budgets, ScopeMerge, Governor, GovernorLimits, QueueDrain | scope merging is a join; exactly when a merged scope selects what its parts do; the effective budget is a least cover; the rebuilt budget as tables; top-k split and shared caps; the drain replays the first actionable rows, and the fate of every row in every case |
| Durable task checkpoints | TaskCheckpoint, TaskCheckpointRuns, CheckpointEvents, TaskCheckpointRuntime | what each event changes and that an abort ends the run; saves in call order and a settled store over every interleaving, with shared snapshot objects; exactly when recent events are the last twelve and when the reported snapshot is the stored one; resume boundaries survive restarts exactly when stated |
| Agent loop and tools | ToolBatches, ToolAnswers, ToolLoop | unique batching, one result per call that tells what became of it, no write beside another call for any finishing order, no stream with an unanswered call |

Each stateful part has a specification (functions on values, with lemmas about them and about runs)
and the program in the form the source has: a class or a loop whose contract equates its effect with
the specification. Collections and StableSort hold shared vocabulary; the sort is the stable
insertion that the runtime's `Array.prototype.sort` is observably equal to.

## Findings

- The three-pass bound on healing does not depend on the number of agents.
- Under guarded spawns from one root, promotion can give a lead more children than allowed
  (`PromotionRuns.PromotionExceedsFanOut`) and hang an agent from one no less deep
  (`PromotionFlattensDepth`), and a killed agent's heartbeat can revive it above the agent limit
  (`RevivalExceedsPopulation`). The exact conditions are `AgentRuns.PromotionKeepsFanOutIff`,
  `PromotionDeepensIff` and `StepPopulationIff`. What promotion flattens hangs from a root, which
  nobody may kill, so kills stay leaves first (`KaalaBrahmaManager.RunsKillLeavesFirst`).
- `minHashDedup` documents clusters whose pairs are all similar; the code compares with the first
  member only. Under the program's own hash family and threshold, "be do no", "be do" and "be no"
  form one cluster whose last two agree in 14 of 64 slots
  (`NearDuplicates.SourceClusterIsNotPairwise`), the fewest possible under any family for texts so
  related (`JoinedClusterIff`). For all texts and families the documentation holds exactly when no
  agreement or full agreement is asked for (`DocumentedClustersIff`).
- Messages without two neighbouring letters a to z or digits, such as texts in another script, have
  one common signature, so deduplication keeps at most one of them
  (`NearDuplicates.OneWordlessSurvivor`).
- Waking from DREAMING drops every pending session id (`NidraRuns.NotifiedThenDreamtAway` is a run
  from the start), and so does ending an episode whose handler rejected, unless its ids were already
  marked to keep.
- The six-hour ceiling of the queue's back-off is never reached: waits stop growing at 320 minutes.
- Three of the four least thresholds of the rebuilt refinement budget are never reached
  (`Governor.RebuiltBudgetRanges`).
- Merging a scope for a whole project with one that names sessions narrows the first
  (`ScopeMerge.MergedKeepsSelectionIff`).
- A checkpoint snapshot is shared between the live state, queued writes and what is reported as
  persisted. The report is true exactly as long as nothing changed the persisted snapshot while it
  was also the live one (`TaskCheckpointRuns.ReportInRuns`, `EventKeepsReportIff`). A process that
  stops between two saves can leave a record whose operator plan disagrees with the next prompt
  (`TaskCheckpointRuns.StoppedBetweenSaves`).
- A prompt that starts while events of the same process are unsaved goes on from the checkpoint that
  was persisted, so later events drop out of its recent events
  (`TaskCheckpointRuns.SecondUnsavedEventIsLost`); `PromptGoesOnIff` says exactly when none does.
- The first read of the checkpoint store is never tried again, so one failure forgets the stored
  record for the life of the process (`TaskCheckpointRuns.FailedReadForgets`).
- Results of a parallel batch are out of call order as soon as a refused call follows one that is not.

## Model

| member | source | states |
|---|---|---|
| AgentForest.AcyclicIffNoCycle | packages/anina/src/agent-kaala-health.ts:17-28 | a parent map has a rank falling along every parent edge exactly when nobody is their own ancestor |
| AgentForest.RegisterAcyclicIff | packages/anina/src/agent-kaala.ts:215-218 | registering keeps the forest exactly when the named parent is neither the agent itself nor below it |
| AgentForest.FreshRegistrationSafe | packages/anina/src/agent-kaala.ts:215-218 | a never-used id that does not name itself as parent is always safe to register |
| AgentForest.NoSelfAncestor | packages/anina/src/agent-kaala-health.ts:17-28 | in a forest no agent is above itself, so every upward walk ends |
| AgentForest.WalkEndsWhenAcyclic | packages/anina/src/agent-kaala-health.ts:17-28 | in a forest the upward walk ends from every agent |
| AgentForest.RootedUnlessBelowOrphan | packages/anina/src/agent-kaala-health.ts:68-75 | an agent whose chain meets no orphan ends at a parentless root inside the map |
| AgentForest.IsAncestor | packages/anina/src/agent-kaala-health.ts:17-28 | wherever the upward walk ends, also on a map with cycles elsewhere, it answers true exactly for strict ancestors |
| AgentForest.GetDirectChildIds | packages/anina/src/agent-kaala-health.ts:46-53 | exactly the agents pointing at the parent, once each, in map order |
| AgentForest.GetDescendantIds | packages/anina/src/agent-kaala-health.ts:31-43 | for an agent not below itself the stack search lists every strict descendant exactly once and nothing else |
| AgentForest.WalksAgree | packages/anina/src/agent-kaala-health.ts:17-53 | upward walk and downward search agree on every pair for which both end |
| AgentLifecycle.LeadIsEarliestSibling | packages/anina/src/agent-kaala-health.ts:100-103 | the promoted lead is the first listed among the earliest started orphans of the same parent |
| AgentLifecycle.PromoteAcyclic | packages/anina/src/agent-kaala-health.ts:93-109 | re-hanging orphans under a sibling keeps the forest and leaves no orphan |
| AgentLifecycle.HandledOrphansAcyclic | packages/anina/src/agent-kaala-health.ts:68-112 | all three orphan policies keep the forest; reparent and promote leave no orphan |
| AgentLifecycle.HealTreeAcyclic | packages/anina/src/agent-kaala.ts:302-342 | a whole healing pass keeps the forest under every policy |
| AgentLifecycle.HandlingKillsOrRehangs | packages/anina/src/agent-kaala-health.ts:68-112 | orphan handling changes an agent only by killing it or by its parent and depth |
| AgentLifecycle.HealedMembers | packages/anina/src/agent-kaala.ts:310-333 | the survivors of a pass are exactly those the sweep left neither dead nor killed, and none is dead |
| AgentLifecycle.HealedAgentsAreRooted | packages/anina/src/agent-kaala.ts:302-342 | after a pass every agent (under cascade every agent not killed or completed) has an in-map chain to a parentless root |
| AgentLifecycle.CascadeContainsIff | packages/anina/src/agent-kaala-health.ts:78-87 | a cascading pass leaves only killed or completed agents at and below orphans and killed agents exactly when nobody below an agent it kills for its budget is left alive |
| AgentLifecycle.CascadeContains | packages/anina/src/agent-kaala-health.ts:78-87 | it does so whenever no status is due to change and nobody is over budget |
| AgentLifecycle.SettledIsFixed | packages/anina/src/agent-kaala.ts:302-342 | when no status is due to change and orphans are settled, a pass changes nothing |
| AgentLifecycle.ThirdRoundIsFixed | packages/anina/src/agent-kaala.ts:302-342 | at a fixed clock the state after three passes is a fixed point, whatever the policy and the number of agents |
| AgentLifecycle.ThreeRoundsSettle | packages/anina/src/agent-kaala.ts:302-342 | any larger number of passes gives the state of three passes |
| AgentFates.DetectedStatus | packages/anina/src/agent-kaala.ts:310-313 | whoever is stale past the dead threshold, or alive past both thresholds, is found dead; whoever is alive past the stale threshold alone is found stale; nobody else changes |
| AgentFates.SurvivesIff | packages/anina/src/agent-kaala.ts:310-333 | told from status and last beat alone: an agent survives a pass exactly when it is neither killed nor dead nor silent past its thresholds, and is completed or has nobody so fallen above it |
| AgentFates.HealedStatus | packages/anina/src/agent-kaala.ts:302-342 | every survivor's exact status and beat: killed now if the cascade or its budget takes it, stale if silent past the stale threshold alone, else as before; its counters and texts are untouched |
| AgentFates.HealedPlace | packages/anina/src/agent-kaala-health.ts:68-112 | every survivor's exact parent and depth: new only when its parent is gone, by the policy, the lead being the earliest started and of those the first registered |
| AgentFates.SweptIff | packages/anina/src/agent-kaala.ts:315-326 | the sweep kills exactly whoever stands below somebody dead or silent past its thresholds |
| AgentFates.PassCounts | packages/anina/src/agent-kaala.ts:335-341 | how many agents orphan handling and the budget rule take, told from the maps before and after the pass |
| AgentRuns.StepAcyclicIff | packages/anina/src/agent-kaala.ts:186-342 | any single operation keeps the forest exactly when it is not a registration that closes a loop |
| AgentRuns.RunsStayAcyclic | packages/anina/src/agent-kaala.ts:186-342 | with ids never reused every reachable map is a forest, for any mix of operations and configurations |
| AgentRuns.ReusedIdClosesLoop | packages/anina/src/agent-kaala.ts:215-218 | a concrete run of three registrations that reuses an id and ends with a cycle |
| AgentRuns.LimitsShrink | packages/anina/src/agent-kaala.ts:274-299 | limits survive any change that only drops agents or pointers, deepens nobody and revives nobody |
| AgentRuns.SpawnKeepsLimits | packages/anina/src/agent-kaala.ts:274-299 | a registration that passed the spawn guard keeps depth, fan-out, population and budgets in bounds |
| AgentRuns.StepKeepsLimitsIff | packages/anina/src/agent-kaala.ts:186-342 | any other step, under every policy, keeps all four exactly when an agent it revives finds room and a lead it promotes has room for its siblings |
| AgentRuns.StepKeepsAgents | packages/anina/src/agent-kaala.ts:186-342 | depth and budgets alone survive every such step, under every policy |
| AgentRuns.RunsStayWithinLimits | packages/anina/src/agent-kaala.ts:215-342 | under every policy a disciplined run keeps depth, children per parent and alive plus stale within limits, and budgets at most rootBudget times decay to the depth |
| AgentRuns.RunsFromRootStayWithinLimits | packages/anina/src/agent-kaala.ts:215-342 | so does every disciplined run from a single root agent |
| AgentRuns.StepPopulationIff | packages/anina/src/agent-kaala.ts:195-230 | any step, a heartbeat that carries a status and healing out of an error included, keeps alive plus stale within the limit exactly when an agent it makes active finds room |
| AgentRuns.PromotionFanOutIff | packages/anina/src/agent-kaala-health.ts:93-109 | after promotion the lead is within the child limit exactly when its own children and its siblings together are |
| AgentRuns.PromotionKeepsFanOutIff | packages/anina/src/agent-kaala-health.ts:93-109 | promotion keeps every agent within the child limit exactly when that holds of every lead |
| AgentRuns.PromotedChildren | packages/anina/src/agent-kaala-health.ts:100-107 | the lead ends with its own children and exactly its former siblings |
| AgentRuns.RunsKeepBranches | packages/anina/src/agent-kaala.ts:215-342 | with fresh ids and children registered deeper than their parents, every agent stays deeper than a parent that is not a root, in every run and under every policy |
| AgentRuns.PromotionDeepensIff | packages/anina/src/agent-kaala-health.ts:93-109 | promotion keeps depth growing along every edge exactly when each lead ends above its siblings |
| PromotionRuns.OverspendingPromotes | packages/anina/src/agent-kaala.ts:302-342 | after any disciplined run to a map of fresh agents within budget: when an agent overspends, two promoting passes remove it and hang its children from their lead, all moments but the last being disciplined |
| PromotionRuns.PromotionExceedsFanOut | packages/anina/src/agent-kaala-health.ts:93-109 | a run of guarded spawns from one root within all limits, after which the next pass gives a lead three children where two are allowed |
| PromotionRuns.PromotionFlattensDepth | packages/anina/src/agent-kaala-health.ts:93-109 | a run disciplined to its end in which depth grows along every edge until the last pass hangs an agent from one no less deep |
| PromotionRuns.RevivalExceedsPopulation | packages/anina/src/agent-kaala.ts:221-230 | a run of guarded spawns and a kill within all limits, after which the killed agent reports that it is alive and makes one agent too many |
| KaalaBrahmaManager.KillOrderElements | packages/anina/src/agent-kaala.ts:257-261 | the kill list holds each standing agent of the subtree once |
| KaalaBrahmaManager.LeavesFirst | packages/anina/src/agent-kaala.ts:257-261 | when depth grows along parent edges no agent is killed before something below it |
| KaalaBrahmaManager.RunsKillLeavesFirst | packages/anina/src/agent-kaala.ts:245-271 | in every such run, under every policy, whatever a killer may kill goes leaves first |
| KaalaBrahmaManager.GroupOrphans | packages/anina/src/agent-kaala-health.ts:94-99 | orphans are grouped by missing parent, each group in map order |
| KaalaBrahmaManager.UnspentBalances | packages/anina/src/agent-kaala.ts:263-270 | what a kill frees is what the killed were granted less what they used of it |
| KaalaBrahmaManager.KaalaBrahma.constructor | packages/anina/src/agent-kaala.ts:156-161 | an empty tree with depth and fan-out clamped to the system limits |
| KaalaBrahmaManager.KaalaBrahma.RegisterAgent | packages/anina/src/agent-kaala.ts:215-218 | stores the heartbeat under its id, last in order if new, and says exactly when the forest survives |
| KaalaBrahmaManager.KaalaBrahma.SetAgentStatus | packages/anina/src/agent-kaala.ts:173-183 | changes status and beat of an existing agent whose status differs, nothing else |
| KaalaBrahmaManager.KaalaBrahma.RecordHeartbeat | packages/anina/src/agent-kaala.ts:221-230 | sets the beat and the given fields of that agent alone; it is never left stale, and a stale one or a report of stale makes it alive |
| KaalaBrahmaManager.KaalaBrahma.ReportStuck | packages/anina/src/agent-kaala.ts:186-192 | makes that agent stale, now, just when it was alive, changes no other, and remembers a non-empty reason |
| KaalaBrahmaManager.KaalaBrahma.HealAgent | packages/anina/src/agent-kaala.ts:195-209 | makes exactly a stale or errored strict descendant of the healer alive, now, and forgets its reason; otherwise nothing changes |
| KaalaBrahmaManager.KaalaBrahma.MarkCompleted | packages/anina/src/agent-kaala.ts:233-236 | makes an existing agent completed, now unless it already was, and changes no other |
| KaalaBrahmaManager.KaalaBrahma.MarkError | packages/anina/src/agent-kaala.ts:239-242 | makes an existing agent errored, now unless it already was, and changes no other |
| KaalaBrahmaManager.KaalaBrahma.Slay | packages/anina/src/agent-kaala.ts:263-270 | kills the listed agents and sums their unspent budgets |
| KaalaBrahmaManager.KaalaBrahma.KillAgent | packages/anina/src/agent-kaala.ts:245-271 | succeeds exactly for a strict descendant neither killed nor completed; kills the target and all below it but for the killed and completed, now, and nobody else; lists the newly killed once, leaves first; frees their unspent budgets |
| KaalaBrahmaManager.KaalaBrahma.CountByStatus | packages/anina/src/agent-kaala-health.ts:56-63 | the number of agents with the status |
| KaalaBrahmaManager.KaalaBrahma.MayAgentSpawn | packages/anina/src/agent-kaala.ts:274-293 | allowed exactly for an alive agent above both depth limits, with fewer children than both child limits, fewer agents alive or stale than the global limit, and a decayed budget that reaches the minimum |
| KaalaBrahmaManager.KaalaBrahma.ComputeChildBudget | packages/anina/src/agent-kaala.ts:296-299 | the largest whole number not above the parent's decayed budget, nothing for an unknown parent |
| KaalaBrahmaManager.KaalaBrahma.DetectStale | packages/anina/src/agent-kaala.ts:310-313 | every agent's exact status after detection, told from its status and the age of its last beat; nothing else changes |
| KaalaBrahmaManager.KaalaBrahma.KillBelowDead | packages/anina/src/agent-kaala.ts:315-326 | kills everything standing strictly below a dead agent, listing each once, and leaves first over all the dead where branches deepen |
| KaalaBrahmaManager.KaalaBrahma.ReapFallen | packages/anina/src/agent-kaala.ts:328-333 | removes exactly the dead and the killed, listing each once |
| KaalaBrahmaManager.KaalaBrahma.CascadeOrphans | packages/anina/src/agent-kaala-health.ts:78-87 | kills every standing agent at or below an orphan and counts them |
| KaalaBrahmaManager.KaalaBrahma.ReparentToRoot | packages/anina/src/agent-kaala-health.ts:89-91 | makes every orphan a root of depth zero |
| KaalaBrahmaManager.KaalaBrahma.RehangGroup | packages/anina/src/agent-kaala-health.ts:100-107 | the lead becomes a root one level up and its siblings hang from it |
| KaalaBrahmaManager.KaalaBrahma.PromoteLeads | packages/anina/src/agent-kaala-health.ts:93-109 | re-hangs every orphan group under its lead |
| KaalaBrahmaManager.KaalaBrahma.HandleOrphans | packages/anina/src/agent-kaala-health.ts:68-112 | applies the configured policy, keeps the forest and counts the handled agents |
| KaalaBrahmaManager.KaalaBrahma.CurbOverBudget | packages/anina/src/agent-kaala.ts:336-340 | kills exactly the alive agents over their token budget |
| KaalaBrahmaManager.KaalaBrahma.HealAgents | packages/anina/src/agent-kaala.ts:302-342 | the pass as a whole, told from the heartbeats before it: exactly who survives, with which status, beat, parent and depth; reaped ids, each once, make up the old ids with the survivors; killed ids, each once, are those standing below somebody fallen, leaves first where branches deepen; orphans handled and over-budget kills are counted exactly; nobody dead, survivors rooted |
| NidraCycle.RowRoundTrip | packages/anina/src/nidra-daemon-persistence.ts:72-154 | writing the durable fields to the row and reading them back is the identity |
| NidraCycle.StepKeepsSound | packages/anina/src/nidra-daemon.ts:68-331 | after every step pending ids are distinct and the current bulk run was handed exactly them |
| NidraCycle.StepKeepsCounted | packages/anina/src/nidra-daemon.ts:206-222 | the session counter equals the pending ids outside DEEP_SLEEP after every step, except exactly a start in DEEP_SLEEP whose row cannot be read |
| NidraCycle.NotifyState | packages/anina/src/nidra-daemon.ts:109-139 | a notified id is pending afterwards and no other id is lost |
| NidraCycle.StepConserves | packages/anina/src/nidra-daemon.ts:90-139 | each step accounts for every notified id: pending, in the row, confirmed, or dropped by a named step |
| NidraCycle.StepKeepsIds | packages/anina/src/nidra-daemon.ts:68-331 | any other step keeps every id it does not confirm or drop, and holds none of those it drops |
| NidraCycle.StepKeepsResolvedFlag | packages/anina/src/nidra-daemon.ts:318-323 | after a resolved bulk run the preserve flag says whether ids are left |
| NidraRuns.EveryRunConserves | packages/anina/src/nidra-daemon.ts:90-331 | in every run, with crashes and failing writes, each notified id is pending, held by the row, confirmed or dropped in a named case, and none is pending twice |
| NidraRuns.SleepInterruptKeepsAll | packages/anina/src/nidra-daemon.ts:90-117 | an interrupt out of DEEP_SLEEP drops nothing |
| NidraRuns.ResolvedRunRemovesConfirmed | packages/anina/src/nidra-daemon.ts:300-323 | a resolved bulk run removes exactly the confirmed ids it was handed and drops nothing |
| NidraRuns.ResolvedEpisodeDropsNothing | packages/anina/src/nidra-daemon.ts:390-401 | an episode whose run resolved drops nothing when its timer ends it |
| NidraRuns.TimerDropsIff | packages/anina/src/nidra-daemon.ts:390-401 | the timer drops ids exactly when some are pending and none is marked to keep |
| NidraRuns.LateResultIsInert | packages/anina/src/nidra-daemon.ts:300-304 | the result of a run whose DEEP_SLEEP was left or stopped since changes nothing pending, durable or counted, even after re-entry or a new start |
| NidraRuns.EveryRunIsDurable | packages/anina/src/nidra-daemon.ts:206-230 | while writes succeed the row equals memory after every step of every run |
| NidraRuns.CounterIsPendingLength | packages/anina/src/nidra-daemon.ts:206-218 | in every such run pending ids are distinct and the counter is their number outside DEEP_SLEEP |
| NidraRuns.CrashThenStartRecovers | packages/anina/src/nidra-daemon.ts:68-79 | a crash at any step boundary and a start recover memory, and re-hand exactly the pending ids in DEEP_SLEEP |
| NidraRuns.DreamWakeDropsPending | packages/anina/src/nidra-daemon.ts:90-100 | waking out of DREAMING drops every pending id |
| NidraRuns.NotifiedThenDreamtAway | packages/anina/src/nidra-daemon.ts:90-139 | a run from the start in which a notified session is lost by waking from DREAMING |
| NidraRuns.RejectedEpisodeDropsUnlessKept | packages/anina/src/nidra-daemon.ts:325-329 | an episode whose run rejects drops its ids unless they were already marked to keep |
| NidraPhases.NotifySleepsIff | packages/anina/src/nidra-daemon.ts:109-139 | with counters right, a notification ends in DEEP_SLEEP exactly when the distinct ids pending with it reach the threshold, and then a bulk run of exactly those has been started; otherwise it only turns DEEP_SLEEP into LISTENING; the pending list gains the id at its end |
| NidraPhases.RunsSleepAtThreshold | packages/anina/src/nidra-daemon.ts:109-139 | so it does at every moment of every run whose writes succeeded, for the threshold the daemon was made with |
| NidraPhases.StepPhase | packages/anina/src/nidra-daemon.ts:68-100 | the phase after every other event, told from the phase, the row and the guards before it |
| NidraPhases.StepClock | packages/anina/src/nidra-daemon.ts:219-223 | the moment of the phase moves exactly with the phase |
| NidraPhases.StepPending | packages/anina/src/nidra-daemon.ts:206-218 | the pending list after every other event, in order |
| NidraPhases.StepPreserve | packages/anina/src/nidra-daemon.ts:90-100 | the preserve mark after every other event |
| NidraPhases.StepCycles | packages/anina/src/nidra-daemon.ts:180-202 | a dream that ends unseen counts one idle cycle, a seen one clears the count, and so does entering DEEP_SLEEP; notifications are counted from one LISTENING to the next |
| NidraPhases.NotifyCycles | packages/anina/src/nidra-daemon.ts:109-139 | a notified dream is a seen one, unless the notification itself ended it in DEEP_SLEEP |
| NidraPhases.StepRuns | packages/anina/src/nidra-daemon.ts:286-331 | a bulk run of exactly the pending ids starts just when an episode begins, under a new generation; an end of the episode also makes a new one; only results end runs |
| NidraPhases.StepAwaits | packages/anina/src/nidra-daemon.ts:300-329 | within an episode a result is awaited until its run resolves or rejects |
| NidraPhases.RowSays | packages/anina/src/nidra-daemon-persistence.ts:72-99 | the column each durable field is written to, the preserve mark as one |
| NidraPhases.StepRow | packages/anina/src/nidra-daemon-persistence.ts:72-99 | whatever happens, the row stays or, when the database answers, becomes what memory says |
| NidraDaemonClass.NidraDaemon.constructor | packages/anina/src/nidra-daemon.ts:63-66 | a fresh daemon over the stored row |
| NidraDaemonClass.NidraDaemon.PersistState | packages/anina/src/nidra-daemon-persistence.ts:72-99 | writes every durable field to the row |
| NidraDaemonClass.NidraDaemon.RestoreState | packages/anina/src/nidra-daemon-persistence.ts:102-154 | reads the row back, or falls back to LISTENING on a failed read |
| NidraDaemonClass.NidraDaemon.TransitionTo | packages/anina/src/nidra-daemon.ts:171-230 | one transition as the state machine takes it, with its exit and entry actions |
| NidraDaemonClass.NidraDaemon.StartDaemon | packages/anina/src/nidra-daemon.ts:68-79 | restores and re-runs the current phase |
| NidraDaemonClass.NidraDaemon.StopDaemon | packages/anina/src/nidra-daemon.ts:81-88 | stops and persists |
| NidraDaemonClass.NidraDaemon.WakeDaemon | packages/anina/src/nidra-daemon.ts:90-100 | wakes to LISTENING, keeping what DEEP_SLEEP had pending |
| NidraDaemonClass.NidraDaemon.Notify | packages/anina/src/nidra-daemon.ts:109-139 | takes that step; with counters right the running daemon then sleeps deeply exactly when the distinct pending ids reach the threshold, and has handed exactly those over |
| NidraDaemonClass.NidraDaemon.ForceDeepSleep | packages/anina/src/nidra-daemon.ts:232-241 | forces DEEP_SLEEP once |
| NidraDaemonClass.NidraDaemon.RunDeepSleepPhase | packages/anina/src/nidra-daemon.ts:286-331 | starts a bulk run of the pending ids under a new generation |
| NidraDaemonClass.NidraDaemon.OnIdleTimer | packages/anina/src/nidra-daemon.ts:409-418 | LISTENING to DREAMING |
| NidraDaemonClass.NidraDaemon.OnDreamTimer | packages/anina/src/nidra-daemon.ts:371-384 | DREAMING to DEEP_SLEEP |
| NidraDaemonClass.NidraDaemon.OnDeepSleepTimer | packages/anina/src/nidra-daemon.ts:387-403 | DEEP_SLEEP to LISTENING, unless stale or waiting for a result |
| NidraDaemonClass.NidraDaemon.OnBulkResolved | packages/anina/src/nidra-daemon.ts:300-324 | removes the confirmed ids when the run is the current one |
| NidraDaemonClass.NidraDaemon.OnBulkRejected | packages/anina/src/nidra-daemon.ts:325-329 | stops waiting for the current run |
| TextRank.JaccardBounds | packages/anina/src/compaction-algorithms.ts:73-83 | similarity lies between zero and one and is symmetric |
| TextRank.JaccardExactly | packages/anina/src/compaction-algorithms.ts:76-81 | the similarity times the words either has is the words both have; it is zero exactly without a shared word and one exactly for equal, non-empty sets |
| RankMeaning.ShareExactly | packages/anina/src/compaction-algorithms.ts:93-97 | a neighbour's share of a rank times the giver's total similarity is their similarity |
| RankMeaning.SharesSumExactly | packages/anina/src/compaction-algorithms.ts:93-97 | a message hands out exactly its whole rank when it shares a word with another, else nothing |
| RankMeaning.NextExactly | packages/anina/src/compaction-algorithms.ts:91-99 | a new rank is 0.15 over n and 0.85 of what the shares bring in |
| RankMeaning.IsolatedRankIff | packages/anina/src/compaction-algorithms.ts:91-99 | from the first round on a message has the least possible rank, 0.15 over n, exactly when it shares no word with another |
| RankMeaning.TotalStaysOneIff | packages/anina/src/compaction-algorithms.ts:88-104 | the ranks add up to one in every round exactly when every message shares a word with another |
| RankMeaning.StopsIff | packages/anina/src/compaction-algorithms.ts:90-104 | the loop stops after the first round in which no rank moved by 0.000001, or after the fiftieth |
| RankMeaning.RankScoresAre | packages/anina/src/compaction-algorithms.ts:106-109 | scores of two or more messages are the ranks at which the loop stops, over the largest of them |
| RankMeaning.LonersRankLeast | packages/anina/src/compaction-algorithms.ts:62-111 | a message that shares no word scores below every one that does, and as much as every other such |
| RankMeaning.LonerScore | packages/anina/src/compaction-algorithms.ts:62-111 | its score is 0.15 over n over the largest rank |
| TextRank.SharesSum | packages/anina/src/compaction-algorithms.ts:93-97 | a message hands out at most its whole rank |
| TextRank.NextAboveFloor | packages/anina/src/compaction-algorithms.ts:98-99 | every new rank is at least 0.15 over n |
| TextRank.TotalInflow | packages/anina/src/compaction-algorithms.ts:93-97 | all inflows together are at most the total rank |
| TextRank.IterateBounds | packages/anina/src/compaction-algorithms.ts:85-104 | every iterate has all ranks at least 0.15 over n and total at most one |
| TextRank.NextContracts | packages/anina/src/compaction-algorithms.ts:88-104 | a round brings any two rank vectors closer by the factor 0.85 in the sum of absolute differences |
| TextRank.IteratesContract | packages/anina/src/compaction-algorithms.ts:88-104 | successive iterates approach each other at least as fast as powers of 0.85 |
| TextRankProgram.MaxRankIsMax | packages/anina/src/compaction-algorithms.ts:106-108 | the divisor is the largest rank |
| TextRankProgram.FinalScores | packages/anina/src/compaction-algorithms.ts:106-109 | scores lie in (0,1], and one of them is 1 exactly when a largest rank is not overwritten by a later message with its id |
| TextRankProgram.PairSimilarity | packages/anina/src/compaction-algorithms.ts:76-81 | the value times the words either message has is the words both have |
| TextRankProgram.BuildSimilarity | packages/anina/src/compaction-algorithms.ts:70-83 | the pair loops fill the matrix with the similarities that JaccardExactly describes, zero on the diagonal, and the sums of its rows |
| TextRankProgram.Converge | packages/anina/src/compaction-algorithms.ts:85-104 | the loop returns the iterate at which it first changes little, or the fiftieth |
| TextRankProgram.TextRankMessages | packages/anina/src/compaction-algorithms.ts:62-111 | the ranks at which the loop stops over the largest one, which RankMeaning describes word by word; one positive score of at most 1 per id, 1 reached when ids are distinct |
| TextRankProgram.RankScoresUnique | packages/anina/src/compaction-algorithms.ts:62-111 | ids and words determine those scores |
| Messages.TokensIsCeiling | packages/anina/src/context-compaction.ts:64-84 | the estimate is the characters over 3.7, rounded up |
| Messages.CharsGrow | packages/anina/src/context-compaction.ts:64-82 | what each kind of part adds to the characters counted |
| Messages.EstimatePartTokens | packages/anina/src/context-compaction.ts:64-84 | the loop computes that estimate |
| Messages.CollapsePartGrowsIff | packages/anina/src/context-compaction.ts:208-233 | a part grows exactly for arguments shorter than two and results of 101 or 102 characters |
| Messages.CollapseShrinks | packages/anina/src/context-compaction.ts:208-233 | collapsing costs no tokens otherwise |
| Messages.ExtractedGrows | packages/anina/src/context-compaction.ts:110-134 | each part but an image adds its own line, marked by its kind, a result with its first 200 characters |
| Messages.CollapseIs | packages/anina/src/context-compaction.ts:208-233 | collapsing empties the arguments of calls, cuts results at 100 characters and changes nothing else of a message |
| MinHash.WordsAreRuns | packages/anina/src/compaction-algorithms.ts:14-16 | the words of a lower-cased text are exactly its maximal runs of two or more letters a to z and digits |
| MinHash.WordCharIs | packages/anina/src/compaction-algorithms.ts:14-16 | which characters make words |
| MinHash.WordlessIff | packages/anina/src/compaction-algorithms.ts:14-16 | a text has no word exactly when no two of its letters a to z and digits are neighbours |
| MinHash.SlotIsLeast | packages/anina/src/compaction-algorithms.ts:136-147 | a slot of a signature holds the least hashed value of any word, or the start value |
| MinHash.SignatureOfSet | packages/anina/src/compaction-algorithms.ts:136-147 | order and repetition of the words do not matter |
| MinHash.SlotOfUnion | packages/anina/src/compaction-algorithms.ts:136-147 | the signature of two texts together is the smaller of theirs slot by slot |
| MinHash.UnionAgreements | packages/anina/src/compaction-algorithms.ts:136-153 | for every hash family, a text joining the words of two others agrees with them in 64 slots more than they agree with each other, all told |
| MinHash.ComputeMinHash | packages/anina/src/compaction-algorithms.ts:136-147 | the in-place loops compute that signature |
| MinHash.MinhashJaccard | packages/anina/src/compaction-algorithms.ts:149-153 | the loop computes the share of agreeing slots |
| MinHash.AllMatchIff | packages/anina/src/compaction-algorithms.ts:149-153 | full agreement is equality |
| HashCoefficients.GenerateHashCoefficients | packages/anina/src/compaction-algorithms.ts:118-128 | the loop draws the coefficients of the program's hash family, in doubles |
| HashCoefficients.DrawnIsNext | packages/anina/src/compaction-algorithms.ts:121 | a draw given with its quotient is what the generator computes with its roundings and mask |
| HashCoefficients.WordsSetSlots | packages/anina/src/compaction-algorithms.ts:136-147 | under that family a slot keeps its start value exactly when the text has no word |
| HashTrace.SourceAgreements | packages/anina/src/compaction-algorithms.ts:118-153 | under that family the words be, do and no agree with be and do, and with be and no, in 39 of 64 slots |
| NearDuplicates.RepresentativeIsFirstSimilar | packages/anina/src/compaction-algorithms.ts:165-176 | each message joins the first representative similar to it, or starts its own cluster |
| NearDuplicates.MinHashDedup | packages/anina/src/compaction-algorithms.ts:159-179 | signatures and the two loops compute exactly those clusters for messages agreeing in the given share of 64 slots |
| NearDuplicates.MembersComplete | packages/anina/src/compaction-algorithms.ts:165-176 | a cluster holds exactly the messages of its representative |
| NearDuplicates.PairwiseClustersIff | packages/anina/src/compaction-algorithms.ts:155-178 | every cluster is pairwise similar, as documented, for all inputs exactly when similarity carries over between messages similar to the same one |
| NearDuplicates.TripleCluster | packages/anina/src/compaction-algorithms.ts:165-176 | three messages clustered together although the last two need not be similar |
| NearDuplicates.OneClusterIff | packages/anina/src/compaction-algorithms.ts:165-176 | three messages form one cluster exactly when the first is similar to both others, and it is as documented exactly when those are similar too |
| NearDuplicates.JoinedClusterIff | packages/anina/src/compaction-algorithms.ts:155-178 | for every hash family: a message joining the words of two others is in one cluster with them at 0.6 exactly when it shares 39 slots with each; the two then share at least 14, and the cluster is not as documented exactly when they share fewer than 39 |
| NearDuplicates.SourceClusterIsNotPairwise | packages/anina/src/compaction-algorithms.ts:118-178 | under the program's own hash family, at 0.6 and every threshold above 14/64 up to 39/64, the texts be do no, be do and be no form one cluster whose last two agree in 14 of 64 slots |
| NearDuplicates.DocumentedClustersIff | packages/anina/src/compaction-algorithms.ts:155-178 | the documented clusters come out for all texts and all hash families exactly when the threshold is at most 0 or above 63/64; for every other threshold some family fails |
| NearDuplicates.TwinsShareCluster | packages/anina/src/compaction-algorithms.ts:165-176 | messages that every message treats alike share a cluster |
| NearDuplicates.WordlessShareCluster | packages/anina/src/compaction-algorithms.ts:14-16 | texts without two neighbouring letters or digits all fall in one cluster, whatever they say |
| NearDuplicates.OneWordlessSurvivor | packages/anina/src/compaction-algorithms.ts:235-249 | so deduplication keeps at most one of them |
| NearDuplicates.WordlessClusterIff | packages/anina/src/compaction-algorithms.ts:165-176 | under the program's hash family a text without a word shares its cluster exactly with the other texts without one |
| NearDuplicates.FirstMaxIsFirstAndLargest | packages/anina/src/compaction-algorithms.ts:239-244 | the survivor of a cluster is the first of its longest messages |
| NearDuplicates.EveryMessageHasSurvivor | packages/anina/src/compaction-algorithms.ts:235-249 | every message has a survivor in its own cluster with at least as much text, itself or an earlier one on a tie |
| NearDuplicates.SurvivorsComplete | packages/anina/src/compaction-algorithms.ts:238-246 | survivors are distinct and there is one for each cluster |
| NearDuplicates.DedupIsSubsequence | packages/anina/src/compaction-algorithms.ts:235-249 | with increasing times the result is the survivors in their original order |
| NearDuplicates.DeduplicateMessages | packages/anina/src/compaction-algorithms.ts:235-249 | the method computes that list |
| Compaction.KeptIff | packages/anina/src/compaction-algorithms.ts:272-275 | a message that is neither a system message nor the first nor one of the last two is kept exactly when it fits beside those and the kept ones that score higher, or as high and come earlier |
| Compaction.NothingDroppedFits | packages/anina/src/compaction-algorithms.ts:272-275 | no dropped message would still fit |
| Compaction.KeptWithinBudget | packages/anina/src/compaction-algorithms.ts:270-275 | kept messages cost at most the target, or no more than the forced ones |
| Compaction.KeptFacts | packages/anina/src/compaction-algorithms.ts:256-262 | system messages, the first and the last two are always kept |
| Compaction.RankedFacts | packages/anina/src/compaction-algorithms.ts:264-268 | candidates are exactly the others, ranked by score and then position |
| Compaction.PrunedWithinBudget | packages/anina/src/compaction-algorithms.ts:270-277 | the pruned list costs at most the larger of the target and the forced messages |
| Compaction.KeptInOrder | packages/anina/src/compaction-algorithms.ts:277 | the indices kept, each once, in ascending order |
| Compaction.Prune | packages/anina/src/compaction-algorithms.ts:256-277 | the loop with its running total computes that pruning |
| Compaction.TextRankPrune | packages/anina/src/compaction-algorithms.ts:252-278 | up to two messages are returned as they are; more are pruned by their graph-rank scores |
| Compaction.WithLastIsSubsequence | packages/anina/src/compaction-algorithms.ts:301-306 | with distinct ids and increasing times the list to prune is the survivors and the last message in order |
| Compaction.CompactedIsSubsequence | packages/anina/src/compaction-algorithms.ts:285-332 | then compacting more than three messages gives an order-preserving subsequence of the collapsed originals that ends with the last one and keeps every system survivor |
| Scoring.NormalizeScores | packages/anina/src/compaction-algorithms.ts:221-230 | one pass computes the min-max normalised scores, all 0.5 when they are equal |
| Scoring.StretchKeepsOrder | packages/anina/src/compaction-algorithms.ts:221-230 | normalised scores lie between 0 and 1 and order any two ids exactly as the scores do |
| Scoring.StretchedIs | packages/anina/src/compaction-algorithms.ts:221-230 | a normalised score times the range is the distance from the least score; without a range it is one half |
| Scoring.CompositeIs | packages/anina/src/compaction-algorithms.ts:296-299 | the composite of an id is 0.30, 0.35 and 0.35 of its normalised TF-IDF, rank and surprisal, a missing one counting as zero |
| Scoring.CompositeScores | packages/anina/src/compaction-algorithms.ts:296-299 | the loop computes the weighted sum of the three normalised scores for every id |
| Scoring.CompositeFollowsScores | packages/anina/src/compaction-algorithms.ts:288-299 | an id no lower in all three scores is no lower in the composite, which lies between 0 and 1 |
| Compaction.InformationalCompact | packages/anina/src/compaction-algorithms.ts:285-332 | the method computes that compaction from the 0.6 agreement and the composite of given TF-IDF and surprisal scores with the graph ranks; up to three messages are only collapsed |
| Budgets.WiderRefinementAdmits | packages/anina/src/chitragupta-daemon-research-scope.ts:77-92 | a budget admits the merged one exactly when it admits both, limit by limit |
| Budgets.WiderRefinementIsLeastCover | packages/anina/src/chitragupta-daemon-research-scope.ts:77-92 | merged refinement budgets are the narrowest that cover both |
| Budgets.WiderNidraIsLeastCover | packages/anina/src/chitragupta-daemon-research-scope.ts:94-103 | the same for a sleep-cycle budget |
| ScopeMerge.AddAllElements | packages/anina/src/chitragupta-daemon-research-scope.ts:136-143 | a merged list holds exactly the trimmed non-blank names of both |
| ScopeMerge.AddAllAssociates | packages/anina/src/chitragupta-daemon-research-scope.ts:136-143 | merging lists in two stages or in one gives the same order |
| ScopeMerge.AbsorbNormal | packages/anina/src/chitragupta-daemon-research-scope.ts:106-171 | merged facts always have distinct trimmed names and finite numbers, scores not negative |
| ScopeMerge.AbsorbAssociates | packages/anina/src/chitragupta-daemon-research-scope.ts:136-170 | joining facts is associative |
| ScopeMerge.AbsorbIdle | packages/anina/src/chitragupta-daemon-research-scope.ts:136-170 | joining with nothing or with itself changes nothing |
| ScopeMerge.PathsFacts | packages/anina/src/chitragupta-daemon-research-scope.ts:121-123 | output paths are distinct, trimmed and exactly the non-blank ones mentioned |
| ScopeMerge.MergeResearchRefinementScopes | packages/anina/src/chitragupta-daemon-research-scope.ts:106-189 | the loop over buckets computes one scope per path in order of first mention with all its facts joined |
| ScopeMerge.MergedHoldsExactly | packages/anina/src/chitragupta-daemon-research-scope.ts:106-189 | each merged scope holds exactly the names its project's scopes mention, their strongest scores (zero at least), and the narrowest budgets that admit all of theirs |
| ScopeMerge.MergeIsJoin | packages/anina/src/chitragupta-daemon-research-scope.ts:106-189 | merging two merged lists is merging the concatenation, in order and content |
| ScopeMerge.MergeIdempotent | packages/anina/src/chitragupta-daemon-research-scope.ts:106-189 | merging a merged list changes nothing, and listing everything twice neither |
| ScopeMerge.PermutationChangesOnlyOrder | packages/anina/src/chitragupta-daemon-research-scope.ts:106-189 | inputs with the same scopes, in any order and with any repetition, merge to the same scopes up to the order of the output and of its lists |
| ScopeMerge.MergedKeepsSelectionIff | packages/anina/src/chitragupta-daemon-research-scope.ts:42-53 | for any raw lists, a merged scope selects exactly what the scopes of its project select exactly when some is project-wide and none has a name, or none is, some name is mentioned and only names are listed |
| ScopeMerge.CleanMergeKeepsSelectionIff | packages/anina/src/chitragupta-daemon-research-scope.ts:42-53 | with lists of distinct trimmed names that is: all of them are project-wide or none is |
| Governor.MergeIsLeastCover | packages/anina/src/chitragupta-daemon-refinement-governor.ts:68-102 | the merged envelope is the narrowest that covers both |
| Governor.DeriveScopeBudgetEnvelope | packages/anina/src/chitragupta-daemon-refinement-governor.ts:199-211 | the loop folds every scope's own budget |
| Governor.ScopeBudgetIsLeastCover | packages/anina/src/chitragupta-daemon-refinement-governor.ts:199-211 | that fold is the narrowest envelope covering each scope's budget |
| Governor.BudgetWidensWithPressure | packages/anina/src/chitragupta-daemon-refinement-governor.ts:171-190 | a stronger priority, more pressure or more scopes never narrow the rebuilt budget |
| Governor.RebuiltBudgetRanges | packages/anina/src/chitragupta-daemon-refinement-governor.ts:171-190 | where every rebuilt limit lies, whatever the day; three of the four least thresholds are never reached |
| Governor.EffectiveBudgetIsLeastCover | packages/anina/src/chitragupta-daemon-refinement-governor.ts:277-288 | the effective budget is the narrowest covering the persisted, the rebuilt and every scope's own budget |
| Governor.SplitPartitions | packages/anina/src/chitragupta-daemon-refinement-governor.ts:240-261 | selected and deferred partition the scopes, sorted, and no deferred scope has a higher priority than a selected one |
| Governor.SplitRejoins | packages/anina/src/chitragupta-daemon-refinement-governor.ts:254-260 | all scopes are selected without a positive cap, else as many as the cap's whole part |
| Governor.AtLeastEightSelected | packages/anina/src/chitragupta-daemon-refinement-governor.ts:183-187 | at least eight scopes, or all of fewer, are selected |
| Governor.DrainLimitFacts | packages/anina/src/chitragupta-daemon-refinement-governor.ts:122-135 | the drain limit is absent exactly with no cap and nothing due, never negative, at most eight and the rows due, and zero exactly when the cap is used up |
| Governor.PlanSharesProjectCap | packages/anina/src/chitragupta-daemon-refinement-governor.ts:289-319 | selected scopes plus drained rows stay within the project cap |
| Governor.CeilingNeverClips | packages/anina/src/chitragupta-daemon-refinement-governor.ts:159-170 | on a day with activity the pressure ceiling does not clip the signal unless deferred priorities sum below zero |
| Governor.NonNegativePrioritiesAreNotClipped | packages/anina/src/chitragupta-daemon-refinement-governor.ts:296-311 | with no negative priority the signal is the raw pressure of the selected scopes |
| GovernorLimits.PressureIs | packages/anina/src/chitragupta-daemon-refinement-governor.ts:104-116 | pressure is five quarters per project or the sum of priorities, whichever is more, plus up to two each for loops and experiments, eight at most |
| GovernorLimits.TopPriorityIs | packages/anina/src/chitragupta-daemon-refinement-governor.ts:155-158 | the strongest priority is the largest of the scopes', or zero |
| GovernorLimits.RebuiltBudgetIs | packages/anina/src/chitragupta-daemon-refinement-governor.ts:171-190 | all ten rebuilt limits as tables over the width, the least whole number from one up that reaches pressure and strongest priority |
| GovernorLimits.DerivedIs | packages/anina/src/chitragupta-daemon-refinement-governor.ts:150-190 | nothing is rebuilt on an idle day, on any other the budget for the strongest priority, the pressure of all scopes and their number |
| GovernorLimits.ScopesCarryNoneIff | packages/anina/src/chitragupta-daemon-refinement-governor.ts:199-211 | the scopes together carry no envelope exactly when none of them carries a budget |
| GovernorLimits.EffectiveIsNoneIff | packages/anina/src/chitragupta-daemon-refinement-governor.ts:277-288 | there is an effective budget exactly unless the day is idle and none was persisted |
| GovernorLimits.EffectiveBudgetIs | packages/anina/src/chitragupta-daemon-refinement-governor.ts:277-288 | the effective budget admits what was persisted, what is rebuilt and what each scope carries, limit by limit, and whatever admits all that admits it |
| GovernorLimits.RankingIs | packages/anina/src/chitragupta-daemon-refinement-governor.ts:246-253 | selected and deferred are the scopes by falling priority and then by path |
| GovernorLimits.DrainLimitIs | packages/anina/src/chitragupta-daemon-refinement-governor.ts:122-135 | the drain limit is what the selected leave of the cap, and while rows are due no more than they or eight |
| GovernorLimits.PlanIs | packages/anina/src/chitragupta-daemon-refinement-governor.ts:289-319 | the plan's budget, how many scopes it selects, its signal clipped at the pressure cap, and its drain limit |
| Governor.BuildDailyRefinementGovernorPlan | packages/anina/src/chitragupta-daemon-refinement-governor.ts:270-320 | the method computes the plan that PlanIs, RankingIs and EffectiveBudgetIs describe |
| QueueDrain.CoversSubsetIff | packages/anina/src/chitragupta-daemon-semantic-queue.ts:73-79 | coverage is inclusion of trimmed names; an entry with none is always covered |
| QueueDrain.FindCoveredScopeIff | packages/anina/src/chitragupta-daemon-semantic-queue.ts:81-92 | a covering scope is found exactly when one of the project has all the entry's names |
| QueueDrain.SameKeyCovers | packages/anina/src/chitragupta-daemon-semantic-queue.ts:85-86 | an exact key match is a case of coverage |
| QueueDrain.BackoffDoubles | packages/anina/src/chitragupta-daemon-semantic-queue.ts:41-44 | waits double from five minutes to 320 minutes; the six-hour ceiling is never reached |
| QueueDrain.ReplayCount | packages/anina/src/chitragupta-daemon-semantic-queue.ts:264-276 | the number of replays is the smaller of the actionable rows and the budget |
| QueueDrain.ReplaysAreTheFirstActionable | packages/anina/src/chitragupta-daemon-semantic-queue.ts:263-276 | a row is replayed exactly when actionable with fewer actionable rows before it than the budget allows |
| QueueDrain.ClearedOnlyWhenDone | packages/anina/src/chitragupta-daemon-semantic-queue.ts:238-300 | a row is cleared only by a replay without quality debt, or without an intent when the scope it is held against has its names, all of its four metadata lists, a best score as high and the budgets it carries |
| QueueDrain.DecisionIs | packages/anina/src/chitragupta-daemon-semantic-queue.ts:81-160 | a row is replayed exactly when no scope that ran has its names; any other is held against the first with its exact ids, else the first with its names, and cleared exactly when it has no intent and that scope carries all four metadata lists, as high a score and the same budgets |
| QueueDrain.FateIs | packages/anina/src/chitragupta-daemon-semantic-queue.ts:225-308 | what becomes of a listed row in every case: unreadable, covered, kept, left for the next pass, replayed with and without quality debt, or failed |
| QueueDrain.DeferredSays | packages/anina/src/chitragupta-daemon-semantic-queue.ts:232-308 | the attempt, the wait, the recorded reason and the time that each fate leaves in a row, and nothing else changed |
| QueueDrain.TallyReports | packages/anina/src/chitragupta-daemon-semantic-queue.ts:283-286 | remote and quality counts are the sums over the replays that did not fail |
| QueueDrain.BudgetIs | packages/anina/src/chitragupta-daemon-semantic-queue.ts:211-213 | the budget is the whole part of the limit, zero below one |
| QueueDrain.TallyBalances | packages/anina/src/chitragupta-daemon-semantic-queue.ts:276-310 | drained is repaired plus deferred replays, and the smaller of the actionable rows and the budget |
| QueueDrain.ListedFollowsFate | packages/anina/src/chitragupta-daemon-semantic-queue.ts:225-308 | every listed row ends cleared, deferred or untouched as its fate says, whatever happens to the others |
| QueueDrain.UnlistedUntouched | packages/anina/src/chitragupta-daemon-semantic-queue.ts:221-225 | rows not listed stay as they were |
| QueueDrain.RemainingRowsKeepTheirWork | packages/anina/src/chitragupta-daemon-semantic-queue.ts:225-308 | a row that stays keeps its scope, intent and parse error; a deferred one gains an attempt and waits at least five minutes, ten after a failed replay |
| QueueDrain.StillDue | packages/anina/src/chitragupta-daemon-semantic-queue.ts:309 | what is still due is the due rows left untouched |
| QueueDrain.RefinementQueue.List | packages/anina/src/chitragupta-daemon-semantic-queue.ts:221-223 | the longest-waiting due rows, at most the limit, once each |
| QueueDrain.RefinementQueue.DrainOne | packages/anina/src/chitragupta-daemon-semantic-queue.ts:225-308 | one row of the drain: the fate that FateIs describes, the counts and the row it leaves |
| QueueDrain.RefinementQueue.Drain | packages/anina/src/chitragupta-daemon-semantic-queue.ts:201-311 | lists the longest-waiting due rows, all under a budget and 25 without one; every listed row meets the fate that FateIs describes; the table, the summary and the count of rows still due follow |
| TaskCheckpoint.AppendKeepsLastTwelve | packages/anina/src/agent-task-checkpoint-runtime.ts:359-366 | appending keeps the last twelve of the history |
| TaskCheckpoint.StepKeepsSound | packages/anina/src/agent-task-checkpoint-runtime.ts:75-264 | every step keeps the queued writes in order on the newest snapshots, the last one live, a settled chain stored, and what each snapshot knows of the history |
| TaskCheckpoint.CallKeepsSound | packages/anina/src/agent-task-checkpoint-runtime.ts:75-81 | calling a prompt, which looks up the previous checkpoint or starts the first read, does so |
| TaskCheckpoint.ReadKeepsSound | packages/anina/src/agent-task-checkpoint-runtime.ts:255-264 | the read coming back or failing does so |
| TaskCheckpoint.StartKeepsSound | packages/anina/src/agent-task-checkpoint-runtime.ts:82-122 | starting the prompt from what it found does so, whatever was saved meanwhile |
| TaskCheckpoint.EventKeepsSound | packages/anina/src/agent-task-checkpoint-runtime.ts:125-133 | recording an event does so, although it changes an object still queued |
| TaskCheckpoint.FinishKeepsSound | packages/anina/src/agent-task-checkpoint-runtime.ts:136-159 | finishing does so |
| TaskCheckpoint.SaveKeepsSound | packages/anina/src/agent-task-checkpoint-runtime.ts:214-240 | a completing or failing save does so |
| TaskCheckpointRuns.EveryRunSettles | packages/anina/src/agent-task-checkpoint-runtime.ts:75-264 | in every interleaving saves are attempted in call order, a drained chain after a good save has stored the live status, phase and snapshot, and recent events are the last twelve of the process's history while every prompt went on from all of it |
| TaskCheckpointRuns.WithinPrompt | packages/anina/src/agent-task-checkpoint-runtime.ts:125-206 | until the next prompt starts nothing is lost: the same events join the history and what the live snapshot lists |
| TaskCheckpointRuns.PromptGoesOnIff | packages/anina/src/agent-task-checkpoint-runtime.ts:81-115 | a prompt goes on from the whole history exactly when the checkpoint it found is the live one, or the one changed for the last event |
| TaskCheckpointRuns.SettledPromptGoesOn | packages/anina/src/agent-task-checkpoint-runtime.ts:81-115 | it does when called on a drained chain after a good save |
| TaskCheckpointRuns.RunListsAllIff | packages/anina/src/agent-task-checkpoint-runtime.ts:81-115 | in every run whose clock moves on, while every prompt so far went on from all events, the next prompt's recent events are the last twelve of the history exactly when it does too |
| TaskCheckpointRuns.SecondUnsavedEventIsLost | packages/anina/src/agent-task-checkpoint-runtime.ts:110-115 | of two events not saved before the next prompt of the process, its recent events list the first and not the second |
| TaskCheckpointRuns.GoodSaveReports | packages/anina/src/agent-task-checkpoint-runtime.ts:214-231 | a good save makes the snapshot reported as persisted the stored one |
| TaskCheckpointRuns.EventKeepsReportIff | packages/anina/src/agent-task-checkpoint-runtime.ts:125-133 | a recorded event keeps that report true exactly when the persisted snapshot is no longer the live one |
| TaskCheckpointRuns.FinishKeepsReportIff | packages/anina/src/agent-task-checkpoint-runtime.ts:136-159 | so does a finish |
| TaskCheckpointRuns.ReportInRuns | packages/anina/src/agent-task-checkpoint-runtime.ts:175-179 | in every run, with a clock that ticks, report and store agree exactly when nothing changed the persisted snapshot since its save; they agree on every settled chain |
| TaskCheckpointRuns.TerminalIsFinal | packages/anina/src/agent-task-checkpoint-runtime.ts:126-130 | events after a terminal status change nothing, whatever saves complete |
| TaskCheckpointRuns.OutcomeIsStored | packages/anina/src/agent-task-checkpoint-runtime.ts:136-159 | a finished outcome is what the store holds once the chain drains well |
| TaskCheckpointRuns.RestartIsARun | packages/anina/src/agent-task-checkpoint-runtime.ts:245-264 | restart, begin and save as a run of the machine leave the record the restart lemmas speak of |
| TaskCheckpointRuns.RestartCarriesBoundary | packages/anina/src/agent-task-checkpoint-runtime.ts:104-108 | the new snapshot carries the boundary of the record it found |
| TaskCheckpointRuns.RestartKeepsBoundaryIff | packages/anina/src/agent-task-checkpoint-runtime.ts:274-302 | one restart keeps the boundary exactly when its phase is not blank and its preview is known or the prompt blank |
| TaskCheckpointRuns.RestartsKeepBoundaryIff | packages/anina/src/agent-task-checkpoint-runtime.ts:274-302 | any number of restarts keeps it under exactly that condition on all their prompts |
| TaskCheckpointRuns.BoundarySurvivesRestarts | packages/anina/src/agent-task-checkpoint-runtime.ts:274-302 | once a non-blank prompt has begun, its boundary survives every later restart |
| TaskCheckpointRuns.PromptSequenceCountsRestarts | packages/anina/src/agent-task-checkpoint-runtime.ts:83-96 | the prompt sequence grows by one with each restart |
| TaskCheckpointRuns.ProgressMovesBoundary | packages/anina/src/agent-task-checkpoint-runtime.ts:181-206 | once an event is recorded and saved the next prompt resumes from that event of that run, from aborted for agent:abort and from active for any other; no event touches the run's identity |
| TaskCheckpointRuns.PlanAgreesIff | packages/anina/src/agent-task-checkpoint-resume.ts:40-66 | for every record the operator plan names what the next prompt resumes from exactly when the record's trimmed phase is the snapshot's or what was resumed from coincides with the record itself, which an older run's id rules out |
| TaskCheckpointRuns.SettledPlanAgrees | packages/anina/src/agent-task-checkpoint-resume.ts:221-241 | in every run a settled store gives an agreeing plan |
| TaskCheckpointRuns.StoppedBetweenSaves | packages/anina/src/agent-task-checkpoint-runtime.ts:208-215 | stopping between the saves of an event and of the finish leaves a record whose plan disagrees |
| TaskCheckpointRuns.BegunIsReady | packages/anina/src/agent-task-checkpoint-runtime.ts:75-122 | the situation that SecondUnsavedEventIsLost and StoppedBetweenSaves start from is reached by beginning and saving a prompt |
| TaskCheckpointRuns.FailedReadForgets | packages/anina/src/agent-task-checkpoint-runtime.ts:245-264 | after a first read that failed or found an unreadable record, the process's memory is for good that of one over an empty store |
| TaskCheckpointRuns.FirstReadDecides | packages/anina/src/agent-task-checkpoint-runtime.ts:249-257 | the first prompt to start carries the whole stored boundary exactly when the first read came back with a readable record, else none of it |
| CheckpointEvents.EventIs | packages/anina/src/agent-task-checkpoint-runtime.ts:125-206 | what one event does: which events are recorded and when, what each changes in the snapshot, field by field, and the status it leaves, aborted for agent:abort alone |
| CheckpointEvents.FinishIs | packages/anina/src/agent-task-checkpoint-runtime.ts:136-159 | what a finish does: the outcome is status and phase, the error given or else the last one is kept, and an entry is added |
| CheckpointEvents.StartIs | packages/anina/src/agent-task-checkpoint-runtime.ts:82-122 | what starting a prompt does: a fresh snapshot with the prompt cut at 400 characters that resumes from the object found, as it is by then |
| CheckpointEvents.CallIs | packages/anina/src/agent-task-checkpoint-runtime.ts:245-254 | a prompt asks the store on the first call only; later it takes the persisted object, and nothing else changes |
| CheckpointEvents.ReadIs | packages/anina/src/agent-task-checkpoint-runtime.ts:253-264 | a failed read ends the prompt; a readable record becomes one object, live and persisted, with its status and the larger sequence; else nothing is found |
| CheckpointEvents.SaveIs | packages/anina/src/agent-task-checkpoint-runtime.ts:214-240 | a good save stores the oldest write's status and phase with what its object holds by then and reports it as persisted; a failed one stores nothing; memory stays |
| CheckpointEvents.BoundaryIs | packages/anina/src/agent-task-checkpoint-runtime.ts:274-302 | the boundary part by part: the older one exactly for a snapshot still at its start that carries one |
| CheckpointEvents.FieldIsFirstGiven | packages/anina/src/agent-task-checkpoint-runtime.ts:311-318 | of several keys the first given and not blank decides |
| CheckpointEvents.AbortEndsRun | packages/anina/src/agent-task-checkpoint-runtime.ts:125-133 | after a recorded abort no event changes memory, and once the chain drains well the stored record, the boundary of the next prompt and the operator plan say aborted at agent:abort of that run |
| CheckpointEvents.OtherEventsGoOn | packages/anina/src/agent-task-checkpoint-runtime.ts:125-133 | after any other recorded event the next one is recorded too |
| TaskCheckpointRuntime.AgentTaskCheckpointRuntime.PersistSnapshot | packages/anina/src/agent-task-checkpoint-runtime.ts:208-243 | copies into a new live object and queues a write of it |
| TaskCheckpointRuntime.AgentTaskCheckpointRuntime.BeginPrompt | packages/anina/src/agent-task-checkpoint-runtime.ts:75-81 | takes the machine's step of calling a prompt |
| TaskCheckpointRuntime.AgentTaskCheckpointRuntime.FinishRead | packages/anina/src/agent-task-checkpoint-runtime.ts:255-264 | takes the step of the read coming back: one object becomes both live and persisted |
| TaskCheckpointRuntime.AgentTaskCheckpointRuntime.StartPrompt | packages/anina/src/agent-task-checkpoint-runtime.ts:82-122 | takes the step of starting the prompt from the object found, as it is by then |
| TaskCheckpointRuntime.AgentTaskCheckpointRuntime.Change | packages/anina/src/agent-task-checkpoint-runtime.ts:181-206 | changes the live object in place and nothing else |
| TaskCheckpointRuntime.AgentTaskCheckpointRuntime.RecordEvent | packages/anina/src/agent-task-checkpoint-runtime.ts:125-133 | nothing before a prompt, after an end, or for events but the eight persisted ones; else it queues the changed snapshot, field by field, as aborted for agent:abort and as active for any other |
| TaskCheckpointRuntime.AgentTaskCheckpointRuntime.FinishPrompt | packages/anina/src/agent-task-checkpoint-runtime.ts:136-159 | nothing before a prompt; else it queues the changed snapshot, field by field, with the outcome as its status |
| TaskCheckpointRuntime.AgentTaskCheckpointRuntime.RunNextSave | packages/anina/src/agent-task-checkpoint-runtime.ts:214-240 | saves the head of the chain as its object is by then |
| ToolBatches.MakeBatches | packages/anina/src/agent-loop.ts:328-341 | the loop computes the partition |
| ToolBatches.BatchesPartition | packages/anina/src/agent-loop.ts:326-341 | batches concatenate to the calls; each is a run of calls whose tools are not among the write tools or one call whose tool is, and such runs are maximal |
| ToolBatches.BatchesAreUnique | packages/anina/src/agent-loop.ts:326-341 | no other partition has these properties |
| ToolBatches.OneAnswerPerCall | packages/anina/src/agent-loop.ts:343-378 | the results are exactly one per call, as a multiset of ids |
| ToolBatches.BatchInCallOrderIff | packages/anina/src/agent-loop.ts:346-367 | a batch's results come in call order exactly when no refused call follows one that is not |
| ToolAnswers.AnswerSays | packages/anina/src/agent-loop.ts:249-310 | a result carries its call's id and the tool's own content and error flag, or the reason there is none |
| ToolAnswers.BatchSays | packages/anina/src/agent-loop.ts:346-367 | where the result of each call of a batch stands: refusals first, then the others, each in call order |
| ToolAnswers.PlacesDiffer | packages/anina/src/agent-loop.ts:346-367 | no two calls of a batch share a place among its results |
| ToolAnswers.AllTell | packages/anina/src/agent-loop.ts:343-378 | over all batches each call has its result, each result its call, as many of one as of the other |
| ToolLoop.ExecutedIs | packages/anina/src/agent-loop.ts:343-378 | exactly the calls that come to a result or throw have run, in call order |
| ToolLoop.WholeTurn | packages/anina/src/agent-loop.ts:98-160 | a turn that goes on leaves steering, the response, a result for each call that tells what became of it, and recalled memory, and has run exactly the calls neither refused nor unreadable |
| ToolLoop.TurnEndIs | packages/anina/src/agent-loop.ts:124-161 | a turn ends the run by an error when its stream fails or the abort is seen, by its response when no execution is asked for, else not at all |
| ToolLoop.LastTurn | packages/anina/src/agent-loop.ts:105-161 | what a turn that ends the run leaves: steering, the response if there was one, and the results of the first calls before an abort |
| ToolLoop.NoOverlapEverywhere | packages/anina/src/agent-loop.ts:314-317 | no overlap means that at every moment of the trace a running call whose tool is among the write tools runs alone |
| ToolLoop.PendingAfterReplies | packages/anina/src/agent-loop.ts:351-375 | results take exactly their ids off what is unanswered |
| ToolLoop.AgentLoop.RunAlone | packages/anina/src/agent-loop.ts:368-377 | a sequential call runs by itself and is answered |
| ToolLoop.AgentLoop.StartAll | packages/anina/src/agent-loop.ts:348-350 | a parallel batch starts in call order, refusals being answered at once |
| ToolLoop.AgentLoop.AwaitAll | packages/anina/src/agent-loop.ts:348-350 | whatever order the tools end in, all end and none overlapped a write |
| ToolLoop.AgentLoop.PushSettled | packages/anina/src/agent-loop.ts:351-367 | calls not refused are answered in call order |
| ToolLoop.AgentLoop.RunBatch | packages/anina/src/agent-loop.ts:343-378 | a batch leaves its results and nothing running |
| ToolLoop.AgentLoop.ExecuteToolCalls | packages/anina/src/agent-loop.ts:318-379 | batch by batch in call order every call is executed at most once, writes alone, and answered once, with the tool's own content and error flag or the reason there is none; aborting stops exactly at a batch boundary |
| ToolLoop.AgentLoop.RunAgentLoop | packages/anina/src/agent-loop.ts:93-172 | turn by turn exactly the entries and executions that the turns bring, to the first turn that ends the run or to the limit; every stream sees the earlier turns and its own steering, all earlier calls answered; at the end exactly the calls of a response with another stop reason are unanswered |

## Left out

- KaalaBrahma: a heartbeat is a value in the map, so a caller holding a heartbeat object and changing it from outside is not captured; the map keeps JavaScript's insertion order in a separate sequence.
- KaalaBrahma: one clock reading stands for the several `Date.now()` calls of one operation; status callbacks, disposal, the monitor timer and health reports are observers or plumbing and are not modelled.
- KaalaBrahma: token counts and depths are integers; kills and healing require an acyclic map because the source's walks do not end on a cycle they meet, and `AgentRuns.RunsStayAcyclic` says when that is met.
- AgentRuns.RunsStayWithinLimits: one configuration for the whole run, with a decay factor between 0 and 1; what a step needs is the guard of `AgentRuns.Disciplined`, which for steps other than registrations is exact (`StepKeepsLimitsIff`).
- NidraDaemon: dream-handler progress, consolidation timestamps, the heartbeat timestamp, disposal and logging are left out.
- NidraCycle.RowRoundTrip: the JSON text of the pending ids and the null columns of a row are not modelled; the column is read back as written.
- NidraDaemon: all writes of one step succeed or fail together, and timers may fire at any moment in which their guards are checked, which covers every schedule the real timers allow.
- NidraDaemon: the legacy handler and a missing handler are the case without a bulk handler; neither hands ids over.
- TextRankProgram.TextRankMessages: ranks are exact reals, so rounding is not captured; the words of each message are given.
- NearDuplicates.MinHashDedup: lower-casing is an arbitrary function and the hash family a parameter, of which the program's own is one value (`HashCoefficients.SourceFamily`); white space splits words like any other stripped character.
- Compaction.InformationalCompact: TF-IDF and surprisal scores are given, as they rest on logarithms; scores are never NaN.
- Compaction.CompactedIsSubsequence: distinct ids and increasing timestamps are assumed, as the claim about the last message needs them.
- ScopeMerge: absent lists are empty lists, and the two empty strings for a missing session and lineage are one.
- Governor: thresholds and pressures are exact reals, so a double that falls just under a half can round to a threshold 0.01 lower than the model's (0.57 less 0.015 is such a case); non-finite priorities count as zero, and `localeCompare` is an arbitrary total preorder on paths; non-finite caps cannot reach the plan, as merging drops them.
- Governor: hold reasons for remote sync are a list of independent tests and the order of phases is fixed; both are left out.
- GovernorLimits.RebuiltBudgetIs: the tables are those of exact reals; in doubles the project's least description length is 0.55 at width 1 and 0.52 at width 3, all other entries are the same.
- QueueDrain.RefinementQueue.Drain: the table is a map that answers atomically; a replay is an outcome given for each row, and replays do not themselves change the queue; the clock is read once for the pass and once for the final count.
- QueueDrain: two budgets are equal when they are equal as values, where the source compares their JSON text.
- QueueDrain.StillDue: states the rows still due at the time of the pass; a pass that outlasts a five-minute wait may count more.
- TaskCheckpointRuntime: fields that never change after construction (task key, type, project, lineage) and the session ids are left out; the checks made on a stored record are one flag; each call reads the clock twice at most; one prompt is called at a time, as the agent awaits it, while saves and events may fall between its read and its start.
- TaskCheckpointRuns: the plan's next action and the human-readable context are text derived from the boundary and are left out; `buildTaskCheckpointResumePlanFromSnapshot` passes no status or phase, so agreement is stated for the record path only.
- ToolLoop.AgentLoop: what a call comes to (refused, unreadable, a result, an error) is given with the call; hooks are observers that do not throw; the abort signal is seen at the check before a batch.
- ToolLoop.AgentLoop.RunAgentLoop: message contents, steering text, context building, costs and streaming events are left out.
- The resident research dispatcher, file locks, HTTP, mesh, CLI and menu-bar code, prompt-building agents, the other agent-tree traversals, DaemonManager and the learning loop are not part of this model: they are plumbing, rest on files outside these, or repeat the arguments made here.
