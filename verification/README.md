# svc-workflow: verified operators, receipts, outbox and encodings

svc-workflow is a governed workflow kernel on PostgreSQL: visits, events and receipts are
append-only, and an instance row is a projection that can be rebuilt from its event log.  This
project models the parts where that is at stake and proves what they promise.

* `Identifiers`, `Bindings`, `Ledger`, `Store` -- the tables, the schema constraints, one method
  per SQL statement inside a transaction, and a commit that is acknowledged, lost after taking
  effect, or lost before.
* `EventLog`, `RecoveryColumns` -- the fold of an event log, what one operator step keeps, the
  recovery replay, and which events it accepts.
* `Normalization` -- the HUMAN executor normalization: validate every row, then write every row.
* `Cutover`, `CutoverDomains`, `CutoverResponsibilities`, `CutoverRecovery`, `CutoverPairs`,
  `CutoverScope`, `CutoverColumns` -- the trusted-fleet principal cutover: one pair per
  transaction, canary gates, resumption.
* `Transitions`, `Histories` -- the ordinary transition command as far as it touches the log, and
  whole histories of both operators with transitions in between.
* `IdentityRepair` -- the append-only lineage and its plan-hash-bound operator.
* `Coordinator`, `Pagination` -- displayName updates and binding reconciliation behind
  idempotency receipts, the read-only plan, and the keyset-paged list.
* `Outbox`, `Reconciler`, `WakeToken` -- the outbox as a protocol of concurrent workers, the
  imperative pass as a run of it among the steps of all others, and the wake-token cache.
* `Scope`, `Placeholders` -- the canonical scope encoding and the placeholder loop.
* `Diagnostics`, `Publish`, `Publication` -- graph-rejection diagnostics, the replay of stored
  answers, and publication with its facts in a savepoint.

Where the source updates state in place the model is a class or a method with loops, proved
against a function of the state it found; the lemmas are about those functions.  Plans, fleets,
catalogs and tables have any size; the compiled counts and digests are generalised to the
structural checks.  Hashes (SHA-256 over canonical JSON, md5 over a text) are taken as injective,
so a derived id is a constructor and a document or text stands for its digest.  Commit fates,
failing re-reads, HTTP answers, crashes and clocks are parameters.

Some results differ from what one might expect of the program:

* Recovery accepts a cutover's event but rejects a normalization's
  (`Normalization.RebuildableAfterApply`, `Histories.RebuildableExactly`): after a committed
  normalization its instances can no longer be rebuilt, although the repository's
  README.md calls the projection rebuildable.
* After an acknowledged commit a failed re-read is reported as CONFLICT with zero writes by all
  three operators; the next run reports NOOP.  When the re-reads work, `CutoverPairs.ReportDecides`
  gives the exact condition for the cutover, and `Histories.ReportDecidesAlways` shows that no
  history of the modelled commands meets its conflict.
* `reconcile_plan` does not look at the domain's enabled flag
  (`Coordinator.DisabledDomainPlansButFails`); `Coordinator.PlanAgrees` states the exact condition.
* Forum events leave in order only if no transaction commits behind a later one
  (`Outbox.EnqueueKeepsOrderExactly`, `Outbox.LateCommitOvertakes`).
* `deliver_kick` treats every 2xx as success, its comment only 200; the model follows the code.
* A stored `DefinitionArchived` replays as `DefinitionNotEditable`, with the same label and status
  (`Publish.StoredErrorReplays`).
* The text under the identity repair's digest of existing lines escapes no separator, so it is not
  injective (`IdentityRepair.TextNotInjective`, `IdentityRepair.HashCollides`).  The plan hash
  binds the lines all the same, because lines are only appended (`IdentityRepair.HashBinds`).
* A placeholder value may start with a brace (the UUID parser accepts braced UUIDs).  The loop
  then makes a new placeholder of a dollar sign right before it, and differs from one pass exactly
  there (`Placeholders.OnePassExactly`).

## Model

| member | source | states |
|---|---|---|
| EventLog.StepKeepsExact | README.md:37-39 | one operator step on one instance keeps every instance's events exactly 1..version with the fold of its log equal to its stored projection, and keeps all history |
| EventLog.StepKeepsLog | migrations/0003_runtime.sql:65-78 | the same step keeps every schema constraint on visits, instances, events and receipts |
| EventLog.FoldIsLast | README.md:37-39 | the projection a complete log determines: the version of its last event, and target and context of the last events that have one |
| EventLog.ReplayMonotone | src/store/postgres/admin_recovery_repository/event_replay.rs:821-849 | a successful replay of a log prefix is unchanged by facts appended later |
| EventLog.ReplayCounts | src/store/postgres/admin_recovery_repository/event_replay.rs:125-137 | the replay's per-node counters are exactly the highest visit number it introduced for the node |
| EventLog.NormalizedLogRejected | src/store/postgres/admin_recovery_repository/event_replay.rs:752-782 | a log with a human-normalization event anywhere is rejected by recovery |
| EventLog.UntouchedRebuildable | src/store/postgres/admin_recovery_repository/event_replay.rs:784-800 | whether an instance can be rebuilt depends on that instance's own rows only, in both directions |
| RecoveryColumns.RebuildableExactly | src/store/postgres/admin_recovery_repository/event_replay.rs:784-849 | recovery answers exactly for logs that are complete, replay, end in the stored row and account for every visit and context |
| RecoveryColumns.SuccessorExactly | src/store/postgres/admin_recovery_repository/event_replay.rs:638-750 | a principal successor event is accepted if and only if its pair, both snapshots and every column agree with the allowlist and the replayed state |
| RecoveryColumns.TransitionExactly | src/store/postgres/admin_recovery_repository/event_replay.rs:303-362 | which transitions the replay accepts, and what it knows afterwards |
| RecoveryColumns.RevisedTransitionExactly | src/store/postgres/admin_recovery_repository/event_replay.rs:363-426 | the same for a transition with a new context |
| RecoveryColumns.AdminExactly | src/store/postgres/admin_recovery_repository/event_replay.rs:428-473 | the same for an administrative override |
| RecoveryColumns.InitialExactly | src/store/postgres/admin_recovery_repository/event_replay.rs:167-226 | the same for the first event |
| RecoveryColumns.StandingExactly | src/store/postgres/admin_recovery_repository/event_replay.rs:228-265 | the same for events that stay at the current visit; normalizations and unknown kinds are always refused |
| Bindings.MoveHolders | migrations/0001_identity_domain.sql:81-98 | disable-one, establish-other replaces one holder by another: the number of enabled bindings of every (domain, role) is conserved |
| Bindings.MoveKeepsSingleOwner | migrations/0001_identity_domain.sql:96-98 | a move never violates the single-owner index |
| Normalization.PlanParsesExactly | src/bin/human_executor_normalization_v0.rs:178-201 | comparing collected-set sizes with the row count decides pairwise distinctness, and each row has the shape the parser asks for |
| Normalization.Prevalidate | src/bin/human_executor_normalization_v0.rs:365-431 | passes exactly if every compared column of every row is as planned, no source visit has open assistance, and no visit collides |
| Normalization.WriteRow | src/bin/human_executor_normalization_v0.rs:486-535 | statement by statement: accepted exactly under the row's guard and fresh keys, and then writes exactly one receipt, visit, event and instance move |
| Normalization.LoopNeverFails | src/bin/human_executor_normalization_v0.rs:453-455 | if every row is acceptable at the start, no later CAS misses and no key collides |
| Normalization.StartAccepted | src/bin/human_executor_normalization_v0.rs:444-455 | zero artifacts and a passed prevalidation make the whole write loop succeed |
| Normalization.RowsTerminal | src/bin/human_executor_normalization_v0.rs:453-455 | each row is in its verified end state right after its write and through all later writes |
| Normalization.RowsCount | src/bin/human_executor_normalization_v0.rs:486-535 | n rows add exactly n visits, n events and n receipts, and no instance |
| Normalization.RowsFrame | src/bin/human_executor_normalization_v0.rs:486-535 | no other table changes and no visit, event, audit or completed receipt is altered |
| Normalization.PlannedOnlyMoves | src/bin/human_executor_normalization_v0.rs:504-511 | a planned instance keeps every column except its current visit and its version, which grows by one |
| Normalization.OthersUntouched | src/bin/human_executor_normalization_v0.rs:433-484 | an instance outside the plan keeps its row, its visits and its events |
| Normalization.VerifyTerminal | src/bin/human_executor_normalization_v0.rs:537-634 | decides the end state column by column |
| Normalization.Apply | src/bin/human_executor_normalization_v0.rs:433-484 | for every commit fate: the durable result, the reported outcome and the write count, as functions of what was found |
| Normalization.FinalIsTerminal | src/bin/human_executor_normalization_v0.rs:481-483 | the written state is exactly what the re-read verifies, so its disagree branch is dead |
| Normalization.ReadyIsNotTerminal | src/bin/human_executor_normalization_v0.rs:444-451 | end state and applicable start state exclude each other |
| Normalization.SecondApplyIsNoop | src/bin/human_executor_normalization_v0.rs:445-450 | a second apply writes nothing and reports NOOP |
| Normalization.ReportIsSound | src/bin/human_executor_normalization_v0.rs:462-483 | APPLIED and NOOP are reported of a durable end state only; with the re-read available every durable change is reported |
| Normalization.WritesExactly | src/bin/human_executor_normalization_v0.rs:433-462 | for every commit fate: something is written exactly if both principals are fit, no artifact exists, and every column of every row is as planned; otherwise the report is NOOP or CONFLICT |
| Normalization.OneRowRefuses | src/bin/human_executor_normalization_v0.rs:365-430 | one differing column or open assistance case of one row stops the whole plan |
| Normalization.WriteGuard | src/bin/human_executor_normalization_v0.rs:508-517 | no row is written whose instance is elsewhere, newer, under another context or definition, cancelled or archived |
| Normalization.NoopExactly | src/bin/human_executor_normalization_v0.rs:537-634 | NOOP is reported exactly of tables whose instance, visits, receipt and event columns show every row done, with the one audit of the plan |
| Normalization.ResultKeepsLog | README.md:37-39 | a whole apply with any commit fate keeps the schema, every exact log and the history |
| Normalization.RebuildableAfterApply | src/store/postgres/admin_recovery_repository/event_replay.rs:778 | exactly which instances recovery can still rebuild after a commit: those it could before, minus all planned ones |
| Cutover.WorkflowsDistinct | src/bin/trusted_fleet_principal_cutover_v1.rs:348-357 | the growing-set check decides that no instance is planned twice |
| Cutover.MoveDomain | src/bin/trusted_fleet_principal_cutover_v1.rs:918-945 | accepts exactly the planned, enabled, unmoved role and then moves that one binding |
| Cutover.MoveDomains | src/bin/trusted_fleet_principal_cutover_v1.rs:918-945 | the loop succeeds exactly if each tuple is accepted in its turn; only bindings change |
| Cutover.NextNumber | src/bin/trusted_fleet_principal_cutover_v1.rs:1077 | the new visit number exceeds every number the node has in the instance |
| Cutover.MigrateResponsibility | src/bin/trusted_fleet_principal_cutover_v1.rs:1013-1118 | which responsibilities are skipped without a write, column by column (cancelled, archived or at a terminal node, in the planned domain, with the source visit intact), and what a migration writes |
| Cutover.MigrateResponsibilities | src/bin/trusted_fleet_principal_cutover_v1.rs:946-961 | the loop with its migrated and skipped counters |
| Cutover.CheckPreExact | src/bin/trusted_fleet_principal_cutover_v1.rs:777-818 | decides the exact preimage of a pair |
| Cutover.CheckTerminalExact | src/bin/trusted_fleet_principal_cutover_v1.rs:820-867 | decides the exact end state of a pair |
| Cutover.WritePair | src/bin/trusted_fleet_principal_cutover_v1.rs:903-971 | the transaction reaches its commit exactly under the spelled-out conditions and then holds exactly the pair's writes |
| Cutover.ApplyPair | src/bin/trusted_fleet_principal_cutover_v1.rs:869-990 | for every commit fate and failing re-read: the durable result and the reported outcome |
| CutoverDomains.DomainsAcceptedExactly | src/bin/trusted_fleet_principal_cutover_v1.rs:935-944 | all role moves succeed in turn exactly if each tuple fits at the start and no (domain, role) repeats; the owner index never interferes |
| CutoverDomains.DomainsMovedState | src/bin/trusted_fleet_principal_cutover_v1.rs:940-944 | which bindings are enabled after all moves |
| CutoverDomains.DomainsMovedReady | src/bin/trusted_fleet_principal_cutover_v1.rs:456-482 | every tuple reads READY afterwards |
| CutoverDomains.NoneRemaining | src/bin/trusted_fleet_principal_cutover_v1.rs:968-971 | the in-transaction re-observation passes exactly if the plan named every enabled role the old principal had there |
| CutoverDomains.DomainsConserve | src/bin/trusted_fleet_principal_cutover_v1.rs:918-945 | the number of enabled bindings per (domain, role) is conserved and the indexes hold |
| CutoverResponsibilities.OneAccepted | src/bin/trusted_fleet_principal_cutover_v1.rs:1043-1116 | under the schema and an exact log, a migration is accepted exactly if the instance is where the plan says, has no open assistance and the derived ids are free |
| CutoverResponsibilities.TuplesAcceptedExactly | src/bin/trusted_fleet_principal_cutover_v1.rs:956-961 | all migrations succeed in turn exactly if each tuple fits at the start |
| CutoverResponsibilities.TuplesFrame | src/bin/trusted_fleet_principal_cutover_v1.rs:1013-1118 | exactly the migrated tuples add one visit, event and receipt each; schema, exact logs and history are kept |
| CutoverResponsibilities.TuplesReady | src/bin/trusted_fleet_principal_cutover_v1.rs:484-552 | every tuple reads READY or TERMINAL afterwards |
| CutoverResponsibilities.MigrationRecorded | src/bin/trusted_fleet_principal_cutover_v1.rs:1063-1116 | the event's two snapshots are the instance before and after, and the receipt names that event and those snapshots |
| CutoverRecovery.NumberAgrees | src/bin/trusted_fleet_principal_cutover_v1.rs:1077 | the writer's MAX + 1 is the number recovery counts up to |
| CutoverRecovery.EventAccepted | src/store/postgres/admin_recovery_repository/event_replay.rs:638-750 | recovery's allowlist-bound checks accept the event the cutover writes |
| CutoverRecovery.MigratedRebuildable | src/store/postgres/admin_recovery_repository/event_replay.rs:638-750 | a migrated instance is rebuildable if it was before |
| CutoverPairs.CommitsExactly | src/bin/trusted_fleet_principal_cutover_v1.rs:869-971 | from the exact preimage the pair commits if and only if the old principal is an enabled agent, no (domain, role) repeats, all its roles there are planned, nothing has open assistance and the derived ids are free |
| CutoverPairs.CommitIsTerminal | src/bin/trusted_fleet_principal_cutover_v1.rs:983-989 | a commit leaves the exact end state if and only if no earlier audit for the migration existed |
| CutoverPairs.CommitHadPreimage | src/bin/trusted_fleet_principal_cutover_v1.rs:777-818 | a transaction that reaches its commit started from the exact preimage, with the same exception |
| CutoverPairs.PreIsNotTerminal | src/bin/trusted_fleet_principal_cutover_v1.rs:817-866 | preimage and end state are never both exact |
| CutoverPairs.ReportIsSound | src/bin/trusted_fleet_principal_cutover_v1.rs:972-989 | COMMITTED and NOOP mean a durable exact end state, ROLLED_BACK a durable exact preimage, for every commit fate |
| CutoverPairs.ReportDecides | src/bin/trusted_fleet_principal_cutover_v1.rs:972-989 | with both re-reads the report tells the two fates apart; with an earlier audit even an acknowledged commit is a conflict |
| CutoverPairs.EarlierAuditSpoils | src/bin/trusted_fleet_principal_cutover_v1.rs:806-818 | the conflict is real at a drifted state: an audit written by anything else turns every acknowledged commit of the pair into a reported conflict |
| CutoverPairs.RerunWritesNothing | src/bin/trusted_fleet_principal_cutover_v1.rs:887-902 | a committed pair is never written again |
| CutoverPairs.PairKeepsLog | README.md:37-39 | a committed pair keeps the schema, every exact log and the history |
| CutoverPairs.PairConservesBindings | src/bin/trusted_fleet_principal_cutover_v1.rs:918-945 | every pair, with every commit fate, conserves role counts and keeps one owner per domain |
| CutoverPairs.OtherPairKept | src/bin/trusted_fleet_principal_cutover_v1.rs:820-867 | a finished pair stays finished when a pair with other principals commits |
| CutoverPairs.PairRebuildable | src/store/postgres/admin_recovery_repository/event_replay.rs:638-750 | a committed pair leaves every rebuildable instance rebuildable |
| CutoverScope.ScopesPartition | src/bin/trusted_fleet_principal_cutover_v1.rs:387-396 | each pair belongs to exactly one scope |
| CutoverScope.CheckGate | src/bin/trusted_fleet_principal_cutover_v1.rs:683-697 | the gate opens exactly if the canary shows its exact end state for this operator |
| CutoverScope.ApplyScope | src/bin/trusted_fleet_principal_cutover_v1.rs:698-751 | admission, gates and the loop over the selected pairs, with its counts, for every fate of every commit |
| CutoverScope.RunKeepsLog | src/bin/trusted_fleet_principal_cutover_v1.rs:727-737 | a run stopped anywhere keeps the schema, exact logs, history and role counts |
| CutoverScope.RunRebuildable | src/bin/trusted_fleet_principal_cutover_v1.rs:706-720 | no run makes an instance unrecoverable, because the operator is outside the fleet |
| CutoverScope.PairsResume | src/bin/trusted_fleet_principal_cutover_v1.rs:727-737 | after any interruption, rerunning the loop ends in the state of the uninterrupted run |
| CutoverScope.ScopeResumes | src/bin/trusted_fleet_principal_cutover_v1.rs:698-751 | the same for the whole operator with its gates: same tables, finished exactly if the uninterrupted run is, and then committed and no-op counts add up to the selected pairs |
| CutoverScope.FinishedAllTerminal | src/bin/trusted_fleet_principal_cutover_v1.rs:738-749 | a finished run leaves every selected pair in its exact end state |
| CutoverColumns.StatesExactly | src/bin/trusted_fleet_principal_cutover_v1.rs:484-552 | PRE, READY and TERMINAL of a responsibility, column by column |
| CutoverColumns.UnjoinedDrifts | src/bin/trusted_fleet_principal_cutover_v1.rs:485-496 | an instance without a joinable current visit and node is in no accepted state and stops the pair |
| CutoverColumns.MigratesExactly | src/bin/trusted_fleet_principal_cutover_v1.rs:1013-1060 | a closed instance is skipped and never written wherever its version stands; an open one is migrated exactly if every column is as planned, without open assistance, and its derived ids are free |
| CutoverColumns.RolesExactly | src/bin/trusted_fleet_principal_cutover_v1.rs:456-482 | PRE and READY of a domain role, column by column |
| CutoverColumns.PreExactly | src/bin/trusted_fleet_principal_cutover_v1.rs:777-818 | the exact preimage of a pair, with no summary receipt and no audit |
| CutoverColumns.TerminalExactly | src/bin/trusted_fleet_principal_cutover_v1.rs:820-867 | the exact end state of a pair, with exactly one completed summary and one audit |
| CutoverColumns.CommitPrincipals | src/bin/trusted_fleet_principal_cutover_v1.rs:904-930 | a committed pair had an enabled old agent, leaves the new agent as Auth shows it, and touches no other principal |
| CutoverColumns.CommitRecords | src/bin/trusted_fleet_principal_cutover_v1.rs:955-968 | summary and audit count as migrated exactly the visits the pair added, and the other responsibilities as skipped |
| CutoverColumns.AdmittedExactly | src/bin/trusted_fleet_principal_cutover_v1.rs:683-726 | who may run the operator and which canaries must show their end state; anyone else leaves the database as it is |
| Histories.RunSummaries | src/bin/trusted_fleet_principal_cutover_v1.rs:850-866 | a run adds summaries only for its own operator and scope, and loses none |
| Histories.CanaryOrderAlways | src/bin/trusted_fleet_principal_cutover_v1.rs:721-726 | after every history of runs and drifts, a summary outside the build canary implies the canaries before it |
| Histories.LogExactAlways | README.md:37-39 | every history of both operators and of ordinary transitions keeps every log exact and changes no earlier fact |
| Histories.RebuildableExactly | src/store/postgres/admin_recovery_repository/event_replay.rs:752-782 | after every history of both operators and of ordinary transitions an instance that could be rebuilt still can if and only if no normalization was committed for it |
| Histories.PairedAlways | src/bin/trusted_fleet_principal_cutover_v1.rs:955-968 | over the same histories an actor has a completed summary for a migration exactly if it has an audit for it |
| Histories.ReportDecidesAlways | src/bin/trusted_fleet_principal_cutover_v1.rs:972-989 | so in every history a pair that reaches its commit is reported COMMITTED or ROLLED_BACK by its fate when the re-reads work, never as a conflict, and its rerun is a NOOP |
| Transitions.MoveKeepsLog | src/store/postgres/workflow_instance_repository/transition_transaction.rs:731-900 | an ordinary transition keeps the schema, the exact logs and the history, for every commit fate |
| Transitions.MovesExactly | src/store/postgres/workflow_instance_repository/transition_transaction.rs:731-900 | when a transition takes effect, column by column; its visit number and event slot never get in the way |
| Transitions.MoveWrites | src/store/postgres/workflow_instance_repository/transition_transaction.rs:731-900 | what a transition writes, column by column, and nothing else |
| Transitions.NextIsCounted | src/store/postgres/workflow_instance_repository/transition_transaction.rs:731-745 | the visit number taken from MAX + 1 is the one recovery counts up to, also for a node never visited before |
| Transitions.MoveRebuildable | src/store/postgres/admin_recovery_repository/event_replay.rs:784-849 | no transition takes an instance out of recovery's reach |
| IdentityRepair.GrammarExactly | src/bin/identity_repair_v1.rs:180-188 | the hand-written check is the documented grammar |
| IdentityRepair.ValidatePairs | src/bin/identity_repair_v1.rs:192-255 | the two loops decide the declarative meaning of a reviewed pairs file |
| IdentityRepair.PairShapeExactly | src/bin/identity_repair_v1.rs:192-255 | which pairs a reviewed file may contain, column by column |
| IdentityRepair.Observe | src/bin/identity_repair_v1.rs:435-603 | the counters and the saturating planned-insert count equal their meaning |
| IdentityRepair.CensusExactly | src/bin/identity_repair_v1.rs:377-413 | which visits the two counts of affected assignments contain |
| IdentityRepair.Unconflicted | src/bin/identity_repair_v1.rs:490-526 | a pair has no conflict exactly if both principals exist, the successor is an enabled agent, and existing lines agree |
| IdentityRepair.OutcomesAddUp | src/bin/identity_repair_v1.rs:528-574 | CONFLICT, NOOP and PLANNED counts add up to the pairs |
| IdentityRepair.OutcomesExactly | src/bin/identity_repair_v1.rs:490-574 | CONFLICT, NOOP and PLANNED of a pair, column by column: a line at the source that differs in successor, legacy id, canonical id or classification is a conflict, evidence and reason do not matter |
| IdentityRepair.AmbiguityConflicts | src/bin/identity_repair_v1.rs:516-534 | an ambiguity is always also a conflict |
| IdentityRepair.TerminalExact | src/bin/identity_repair_v1.rs:619-679 | decides row identity; the projection proof over all visits can never fail then |
| IdentityRepair.Verify | src/bin/identity_repair_v1.rs:974-1010 | passes exactly if the end state is exact and every source principal exists |
| IdentityRepair.InsertLines | src/bin/identity_repair_v1.rs:805-853 | without conflicts the loop never meets a conflict branch and inserts exactly the PLANNED pairs, skips exactly the NOOP pairs |
| IdentityRepair.Apply | src/bin/identity_repair_v1.rs:690-972 | for every commit fate, and whatever other sessions commit between the probe, the observation and the transaction: the state afterwards and the report; NOOP exactly if every pair's line has its four columns |
| IdentityRepair.AlreadyDoneExactly | src/bin/identity_repair_v1.rs:282-290 | a zero-write NOOP is reported exactly if successor, legacy id, canonical id and classification of every line are the pair's |
| IdentityRepair.DifferingLineRefuses | src/bin/identity_repair_v1.rs:701-741 | a line differing in one of the four refuses every apply and leaves the lines unchanged, whatever its hash, fate and interleaving |
| IdentityRepair.PlanPredictsApply | src/bin/identity_repair_v1.rs:570-600 | the counts of the plan whose hash approved it are what the apply inserts and skips |
| IdentityRepair.HashBinds | src/bin/identity_repair_v1.rs:743-787 | an approved hash means every pair's outcome is the one the plan showed, and the lines are the very ones exactly if they were only appended to |
| IdentityRepair.TextGrows | src/bin/identity_repair_v1.rs:320-340 | the text under the digest gets strictly longer with every appended line |
| IdentityRepair.TextNotInjective | src/bin/identity_repair_v1.rs:326-334 | any two rows have the text of one row whose reason spells out the second |
| IdentityRepair.HashCollides | src/bin/identity_repair_v1.rs:326-334 | so two tables, neither a growth of the other, have one plan hash for pairs that name other principals |
| IdentityRepair.PlanBindsHistory | migrations/0025_workflow_identity_successor_lines.sql:66-79 | over every history a plan binds the lines and outcomes of every transaction it approves later |
| IdentityRepair.AppliedIsTerminal | src/bin/identity_repair_v1.rs:855-876 | a committed apply leaves the exact end state |
| IdentityRepair.LaterApplyIsNoop | src/bin/identity_repair_v1.rs:701-741 | as long as lines are only appended every later apply is a zero-write NOOP, whatever its hash and whatever happens between its reads |
| IdentityRepair.ReportIsSound | src/bin/identity_repair_v1.rs:878-935 | COMMITTED and NOOP mean an exact end state; with the re-read available every other report means the apply itself changed nothing |
| IdentityRepair.ApplyKeepsLineage | src/bin/identity_repair_v1.rs:506-526 | an apply keeps one canonical id per successor and every old line |
| IdentityRepair.LineageAlways | migrations/0025_workflow_identity_successor_lines.sql:43-79 | over every history, with any number of applies interleaved: one line per source, one canonical id per successor, no line ever changes |
| Coordinator.StoredErrorRoundTrip | src/application/coordinator_control_plane.rs:1002-1021 | which errors come back as themselves from a receipt, exactly |
| Coordinator.ReconcileApply | src/application/coordinator_control_plane.rs:631-947 | every branch, for every commit fate: the durable result and the reply; a success under a fresh key implies an enabled coordinator, an enabled domain and an enabled target principal |
| Coordinator.OutcomesExactly | src/application/coordinator_control_plane.rs:714-947 | applied, noop and already_applied, each if and only if the tables are as it says, the target principal being enabled in all three |
| Coordinator.ErrorsExactly | src/application/coordinator_control_plane.rs:703-872 | the five stored or returned errors, each if and only if the tables are as it says |
| Coordinator.AnswerIsRecorded | src/application/coordinator_control_plane.rs:899-972 | a success leaves one audit and a 200 receipt with its body, a stored error its status and label and nothing else, any other answer nothing |
| Coordinator.RefusedEarly | src/application/coordinator_control_plane.rs:200-215 | an actor who is no enabled coordinator, or an input out of bounds, is refused before anything is written |
| Coordinator.LengthIsOfBytes | src/application/coordinator_control_plane.rs:182-215 | the length limits count the bytes of the UTF-8 encoding |
| Coordinator.StatusTells | src/application/coordinator_control_plane.rs:136-150 | which errors each HTTP status stands for |
| Coordinator.UpdateDomain | src/application/coordinator_control_plane.rs:360-498 | the same for the displayName update |
| Coordinator.UpdateExactly | src/application/coordinator_control_plane.rs:182-198 | each answer of the update if and only if the tables are as it says, with actor and coordinator role checked again inside the transaction |
| Coordinator.UpdateShowsState | src/application/coordinator_control_plane.rs:438-484 | a successful update changes exactly that display name, and reply and receipt show the row as it now stands |
| Coordinator.FailReceipt | src/application/coordinator_control_plane.rs:948-972 | the error becomes the answer of its key and nothing else changes: if the commit took effect the same request gets that very error from then on, exactly if it carries no detail, and any other request conflicts |
| Coordinator.AnswerNotOwned | src/application/coordinator_control_plane.rs:668-698 | replay, conflict and processing, with a fate for each of the two commits; an answer other than a lost acknowledgement leaves an attempt record exactly if it is a replay |
| Coordinator.PlanBlockers | src/application/coordinator_control_plane.rs:570-595 | the list names each blocker exactly if what it says is true of the state, once, in a fixed order |
| Coordinator.ListsOnce | src/application/coordinator_control_plane.rs:570-595 | a state has exactly one such list, so planner and specification cannot differ |
| Coordinator.PlanAgrees | src/application/coordinator_control_plane.rs:563-604 | on one snapshot the plan has no blocker and the domain is enabled exactly if the apply would migrate or find nothing to do |
| Coordinator.PlanRefusedExactly | src/application/coordinator_control_plane.rs:500-560 | the plan is refused exactly for actors and inputs an apply is refused for at once, and for an unknown domain |
| Coordinator.DisabledDomainPlansButFails | src/application/coordinator_control_plane.rs:523-527 | the plan ignores the domain's enabled flag while every apply on a disabled domain fails |
| Coordinator.MoveIsTheMove | src/application/coordinator_control_plane.rs:888-897 | disabling by id hits exactly the source row and the owner index never rejects the insert |
| Coordinator.ApplyConserves | src/application/coordinator_control_plane.rs:714-898 | every call conserves role counts and keeps the indexes |
| Coordinator.OnlyAppliedMoves | src/application/coordinator_control_plane.rs:714-898 | only a committed applied outcome changes bindings, and exactly the two of the tuple |
| Coordinator.RerunIsAlreadyApplied | src/application/coordinator_control_plane.rs:758-836 | an applied tuple under a fresh key is already_applied and moves nothing |
| Coordinator.CallIsAtomic | src/application/coordinator_control_plane.rs:377-498 | a business change comes only with its own new 200 receipt, a stored error only with none; nothing is left PROCESSING |
| Coordinator.KnownKeyReplays | src/application/coordinator_control_plane.rs:668-698 | a known key never changes business tables: same request replays, another is a conflict |
| Coordinator.SameKeySameAnswer | src/application/coordinator_control_plane.rs:984-1021 | the first stored answer under a key is every later answer to the same request |
| Coordinator.AtMostOnce | src/application/coordinator_control_plane.rs:377-498 | over every history no two calls under one (actor, key) change the business tables |
| Pagination.ListDomains | src/application/coordinator_control_plane.rs:275-292 | a cursor is the key of the last included row |
| Pagination.CursorExactly | src/store/postgres/domain_role_repository.rs:501-526 | the page is the first rows past the cursor; a cursor is returned exactly if more follow |
| Pagination.Follow | src/application/coordinator_control_plane.rs:260-295 | following the cursors shows every domain exactly once, in order, and stops |
| Pagination.ZeroLimitIsStuck | src/application/coordinator_control_plane.rs:282-292 | with limit zero nothing is shown and no cursor is offered |
| Outbox.BackoffShape | src/store/postgres/outbox.rs:229-262 | the delay doubles from two seconds and is ten minutes from the tenth failure on |
| Outbox.SettledExactly | src/store/postgres/outbox.rs:215-288 | what a settlement writes: delivered exactly on 2xx; dead exactly for a kick rejected for good or out of attempts; otherwise due again after the wait of its number of attempts |
| Outbox.WaitsDouble | src/store/postgres/outbox.rs:229-262 | the first wait is two seconds and each further one twice the wait before, up to ten minutes, as read off consecutive settlements |
| Outbox.UnclaimedFailureWaits | src/forum_sync.rs:978-993 | an event whose thread does not resolve waits just as long and never dies |
| Outbox.RequeuedExactly | migrations/0032_outbox_dead_letter.sql:6-13 | a requeue makes an undelivered row open, due now and without attempts |
| Outbox.ClaimExactly | src/store/postgres/outbox.rs:190-213 | when a worker gets a row: of its channel, undelivered, not dead, due, and in nobody's hands |
| Outbox.EnqueueExactly | src/store/postgres/outbox.rs:40-125 | what may be enqueued: fresh, due now, with a free order and (kind, key) |
| Outbox.BatchExactly | src/forum_sync.rs:902-911 | a worker queries a batch only before its first candidate or after its last |
| Outbox.DeliverExactly | src/forum_sync.rs:1021-1041 | a request is logged with its answer exactly if it was made, and no row changes before the settlement |
| Outbox.ReleaseExactly | src/forum_sync.rs:996-1004 | a crash or a lost settlement releases the row as it was |
| Outbox.DeliveredIsSettled | src/store/postgres/outbox.rs:215-227 | no settlement changes a delivered row |
| Outbox.EligibleExactly | src/store/postgres/outbox.rs:157-188 | which rows a batch may contain, with the per-instance order of forum events |
| Outbox.StepSafe | src/forum_sync.rs:1005-1081 | every step of every interleaving keeps: one holder per row, held rows open, delivered implies a 2xx answer, only kicks dead-letter, open kicks below twelve attempts |
| Outbox.RunSafe | src/forum_sync.rs:996-1004 | so every reachable state has them |
| Outbox.StepFreezes | src/store/postgres/outbox.rs:190-213 | delivered rows never change, dead rows and rows of inactive channels only by a requeue |
| Outbox.DeliveredForEver | src/store/postgres/outbox.rs:215-227 | a delivered row never changes and is never sent again |
| Outbox.DeadUntilRequeued | migrations/0032_outbox_dead_letter.sql:1-18 | a dead row is settled for good until an operator requeues it |
| Outbox.DisabledUntouched | src/forum_sync.rs:885-897 | rows of a channel that is not active never change |
| Outbox.DuplicatesNeedACrash | src/store/postgres/outbox.rs:4-13 | without crashes and lost settlements no row gets two successful deliveries |
| Outbox.EnqueueKeepsOrderExactly | src/store/postgres/outbox.rs:157-188 | an enqueue keeps each thread's order exactly if no later event of the instance is under way |
| Outbox.ForumInOrder | src/store/postgres/outbox.rs:160-161 | with in-order enqueues a forum event is delivered only after all earlier ones of its instance |
| Outbox.LateCommitOvertakes | src/store/postgres/outbox.rs:174-180 | a concrete late commit that breaks the order |
| Reconciler.OutboxTable.DeliverClaimed | src/forum_sync.rs:1005-1081 | one claim among any steps of others: counted exactly if claimed, answered with 2xx and the commit heard of; from claim to settlement nobody else changes the row; a lost settlement leaves it as it was |
| Reconciler.OutboxTable.DrainChannel | src/forum_sync.rs:902-973 | a channel drained among any steps of others, with lost settlements and failing queries, is a run of the protocol; its count never exceeds the deliveries it made and equals them if it heard of all |
| Reconciler.OutboxTable.RunOnce | src/forum_sync.rs:865-899 | the same for a whole pass over the active channels, with the batches the queries return |
| Reconciler.NextPendingBatch | src/store/postgres/outbox.rs:157-188 | the oldest eligible rows in order, at most twenty |
| Reconciler.BatchUnique | src/store/postgres/outbox.rs:157-188 | the batch query has only one answer in a state |
| Reconciler.AroundKeeps | src/forum_sync.rs:996-1004 | the row lock is a lease: whatever others do a held row does not change |
| Reconciler.AnyoneElseActs | src/forum_sync.rs:996-1004 | the others of an interleaving are users, operators, the clock and every other worker |
| Reconciler.ScriptsInOrder | src/forum_sync.rs:911-972 | every candidate of a batch has its turn, in order, and each heard delivery is counted once |
| Reconciler.PassInherits | src/forum_sync.rs:902-973 | so whatever passes and other steps ran: safety, no second delivery without a crash or lost settlement, thread order under in-order enqueues, inactive channels untouched |
| Reconciler.DeliveriesAreRows | src/forum_sync.rs:865-899 | each delivery of a worker is a row of its own, so no pass counts more than the newly delivered rows |
| WakeToken.RenewsInTime | src/forum_sync.rs:517-518 | for every lifetime 1..600 the renewal point lies strictly between request and expiry, a tenth of the lifetime before it |
| WakeToken.TokenCache.Bearer | src/forum_sync.rs:446-533 | hit, fetch and every rejection; a bearer passes its check before the renewal point |
| WakeToken.TokenCache.Invalidate | src/forum_sync.rs:535-540 | evicts exactly the refused token |
| WakeToken.CallExactly | src/forum_sync.rs:456-533 | what a call leaves in the cache: the entry that was there, the new token of a well-formed and timely answer, or nothing under the key |
| WakeToken.FetchedStays | src/forum_sync.rs:456-464 | a fetched token stays cached until refused or past its renewal point |
| WakeToken.SecondFetch | src/forum_sync.rs:456-464 | a second fetch for a key only after the renewal point or a 401 for that very token |
| WakeToken.BearerIsFresh | src/forum_sync.rs:517-532 | every bearer handed out was granted for the key and has not expired |
| Scope.ItemValidExactly | src/auth/claims.rs:153-177 | the first-dot check is the documented regular expression |
| Scope.AcceptedExactly | src/auth/claims.rs:94-151 | accepted exactly if the single-space join of a non-empty strictly ascending list of valid items |
| Scope.EncodingUnique | src/auth/jwks_verifier.rs:325 | two accepted strings with the same decoded set are equal |
| Placeholders.IterationDrops | src/bin/provision-todo-definition.rs:156-173 | each iteration strictly lowers the number of dollar signs |
| Placeholders.ResolvePlaceholders | src/bin/provision-todo-definition.rs:151-174 | the loop terminates and computes the iterated rewriting |
| Placeholders.OkIsFinished | src/bin/provision-todo-definition.rs:157-165 | an Ok text has no placeholder opening, or its first one is never closed |
| Placeholders.LoopIsOnePass | src/bin/provision-todo-definition.rs:151-174 | the repeated replace-all equals one simultaneous left-to-right pass, including which placeholder is reported, if no dollar sign stands right before a braced value |
| Placeholders.OnePassExactly | src/bin/provision-todo-definition.rs:151-174 | for the values the caller allows and every text on which one pass succeeds, the loop agrees with it if and only if that condition holds |
| Diagnostics.ProjectionIgnoresOrder | src/application/definition_governance/diagnostics.rs:22-35 | order and repetition of the errors do not matter |
| Diagnostics.KeepsTheSmallest | src/application/definition_governance/diagnostics.rs:36-46 | the smallest distinct safe codes up to 32, truncated exactly if one is missing |
| Diagnostics.FromReceipt | src/application/definition_governance/diagnostics.rs:59-77 | accepts exactly the closed, bounded, ascending catalog projections |
| Diagnostics.ProjectionAdmissible | src/application/definition_governance/diagnostics.rs:58-77 | the decoder gives back every projection |
| Diagnostics.AdmissibleIsProjection | src/application/definition_governance/diagnostics.rs:58-77 | an accepted untruncated value is the projection of its own codes |
| Publish.GraphRejectionReplays | src/application/definition_governance/receipt.rs:53-91 | a stored rejection replays its diagnostics for the same input hash and a conflict for any other |
| Publish.StoredErrorReplays | src/application/definition_governance/receipt.rs:101-132 | which stored errors come back as themselves, exactly; an archived definition comes back as not editable |
| Publish.RejectionTrustedExactly | src/application/definition_governance/receipt.rs:24-91 | a stored rejection replays its diagnostics, conflicts, or is reported corrupt: each exactly for the bodies it says |
| Publish.UnknownErrorIsInconsistent | src/application/definition_governance/receipt.rs:101-140 | a stored answer with no known label is reported inconsistent, never a success |
| Publish.StatusTells | src/application/definition_governance/mod.rs:96-113 | which errors each HTTP status stands for |
| Publication.PublishVersion | src/application/definition_governance/owner_publish.rs:21-93 | wherever the business part stops, whatever it has written by then, whichever statement fails and however the commit ends: all facts with audit and 200 receipt, or the error receipt alone, or nothing; the deferred check never refuses the commit |
| Publication.PublishIsAtomic | src/application/definition_governance/owner_publish.rs:57-93 | facts change exactly if the call leaves a new 200 receipt, and then version, approval, one success audit and that receipt are exactly as given; any other new receipt comes with no fact; an unstored error or failed statement leaves no trace |
| Publication.FailuresInOrder | src/store/postgres/definition_repository/lifecycle_transactions.rs:193-380 | what exactly a publication needs, and which error answers by the first thing that is wrong |
| Publication.FaultsAnswer | src/application/definition_governance/owner_publish.rs:57-72 | a failing statement answers as a storage error, an answer that does not serialise as an inconsistency, and neither leaves a trace |
| Publication.MissingLooksForbidden | src/application/definition_governance/mod.rs:115-133 | existence and permission failures give one and the same answer |
| Publication.ReplyTells | src/application/definition_governance/owner_publish.rs:57-93 | what the caller may conclude from each reply about the database |
| Publication.ApprovalIsPartial | src/store/postgres/definition_repository/lifecycle_transactions.rs:334-356 | a literal refused after the approval was inserted leaves the approval alone in the savepoint |
| Publication.RollbackIsNeeded | migrations/0031_owner_obligation_workflows.sql:241-244 | such an approval next to an error receipt would be refused by the deferred check when the transaction commits |
| Publication.DeferredExactly | migrations/0031_owner_obligation_workflows.sql:241-244 | what the deferred check lets through: an approval beside its published version and its completed publish receipt |
| Publication.SoundAlways | migrations/0031_owner_obligation_workflows.sql:241-244 | over every history of publications and other commands each approval belongs to the completed receipt that published its version, and one version has one publishing receipt |
| Publication.OnePublicationPerVersion | src/store/postgres/definition_repository/lifecycle_transactions.rs:212-232 | one version is published at most once, whoever calls and whatever the keys |
| Publication.OnePublicationPerKey | src/application/definition_governance/owner_publish.rs:24-32 | one (actor, key) changes the database at most once over every history |
| Publication.LaterCallReplays | src/application/definition_governance/receipt.rs:24-97 | a version or stored error once told is what every later call with the key is told; another request under it conflicts |

## Left out

- SQL text, connection pools, isolation and locking: a transaction is an atomic copy and commit; an error of the database itself inside a transaction is the same as a commit that did not take effect.
- Interference between the phases of one operator run (the re-read after a commit sees what the commit left), except between the reads of the identity repair; drift between runs is covered by the histories.
- Timestamps (`occurredAt`, `updated_at`, `completed_at`) and 32-bit overflow of versions, visit numbers and attempt counts.
- Submissions, and the payload checks of event kinds these operators never write: recovery summarises them by one flag per event; the assistance replay is a check on unchanged columns.
- The Auth database of the cutover: a map of the pairs whose rows match the plan, with their display names.
- `observe` of the cutover (plan and verify reports): it repeats the tuple states of the modelled checks.
- Plan bytes, compiled counts, file digests and command lines of the operators; the excluded identity is one parameter.
- Placeholders.LoopIsOnePass: where one pass would report an error, texts with a placeholder opening inside a placeholder's name are not covered, because the loop may then report another name; `Placeholders.OnePassExactly` needs no such condition.
- Placeholders.ResolvePlaceholders: requires values without dollar signs, which its caller ensures by parsing them as UUIDs; a value naming its own placeholder would reproduce the text for ever (`Placeholders.SelfReferenceLoops`).
- The ordinary commands other than a transition without a context change: creation, context revision, cancellation, assistance, repair and administrative override.
- The checks of a publication on principals, domain, graph, policy targets and directory: their outcomes are parameters, in the source's order, before, between and after the writes.
- Governance wakes with a `phase` payload, which settle rows in a transaction of their own, and the text, thread and error-message sanitising of the forum channel; whether a candidate's thread resolved is a parameter.
- The death of a reconciler worker in the middle of its own pass: the pass as modelled always ends, but each prefix of it is a run of the protocol, which has crash steps.
- The generic governance wrapper around other definition commands: its business logic commits on other connections, so only its stored body and replay are used.
- The forum channel's own token cache, HTTP details, JSON and UUID parsing; a JSON string comparison is on characters.
- Coordinator.UpdateDomain: the trimmed displayName is a parameter; the length check is on UTF-8 bytes as in the source.
- Provisioning, membership, instance services and definition validators: thin or covered by the same receipt pattern.
