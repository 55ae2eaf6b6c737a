# Protocol v2 safety core

This project models the stateful part of the Ratify Protocol v2 library and
proves what it promises to hold over whole runs. It has five parts.

1. **Revocation status.** An issuer's publisher signs full lists and pushes at
   increasing sequences. A verifier folds them into one issuer state (floor,
   accepted snapshot, accepted set, deny union, observations, fork, gap and
   future flags), compacts the observations after every step, and keeps the
   states of all issuers in a hash-linked journal that concurrent writers
   advance by compare-and-swap.
2. **Claim evaluation.** A single-use token goes through local evaluation,
   status, audience, rate and finalization, and ends in a receipt that a
   decision table must accept.
3. **Release.** An ordered chain of checks against a first-record-wins store,
   an immutable checkpoint and a clock.
4. **Key rotation.** A hash-linked journal with replay, fork freeze and
   recovery epochs.
5. **Resource paths.** A string-prefix test that must be a segment-prefix test,
   and an issuer check that must be exact joint satisfiability.

Code that computes is modelled by functions, code that loops or updates by
methods and classes that are proved to compute those functions; the lemmas are
about the functions. Modules follow the components: `StatusTypes`,
`StatusCompaction`, `StatusReducer` (definitions), `StatusMachine`,
`StatusValidation` (the loops), `CompactionProofs`, `CompactionKeys`,
`CompactionResult`, `ReducerInvariant`, `ReducerSteps`, `ReducerRuns`,
`ListEffects`, `PushEffects`, `Contradictions`, `ForkMarker` (the reducer's
safety and what each object does), `PublisherActions`, `StatusPublisher`,
`PublisherDelivery`, `PublisherConvergence`, `ShelvedCopy` (the honest feed),
`SecurityJournal`, `CompareAndSwap`, `JournalWriters`, `JournalStore`,
`JournalChanges`, `LoadedJournals`, `JournalTransitions`, `JournalRecords`,
`JournalCommits`, `EarlyHeartbeat`, `RefusedHeartbeat`, `UnsteadyBatch`,
`RefusedBatch`, `JournalSnapshot`, `Ordering` (the journal), `StatusReport`,
`StatusAggregation`, `AggregateMeaning`, `Audience`, `AudienceOutcomes`,
`TimeWindow`, `ClaimToken`, `ClaimRuns`, `StageOutcomes`, `AllowHorizon`,
`Receipt`, `ReceiptTable`, `VerifyPipeline`, `PipelineOutcome`, `Finalization`,
`SentBodies` (claims), `Release`, `ReleaseGrounds`, `KeyRotation` and
`ResourcePath`.

Beside the invariants, lemmas whose names end in `Exactly` or `Gives`, and the
others named with them below, say what an operation does in terms of its inputs
and the old state alone, without the functions that compute it; those about
small operations have no row.

How values are modelled: a digest is the content it is computed from, so equal
digests mean equal content and a hash link holds the whole chain behind it;
where the source compares digest bytes for order, a record carries that order
as a number about which nothing is assumed. A signature is the name of the key
under which it verifies. A key stands for its key ID. Sorted lists without
duplicates are sets. Integers are unbounded and the source's bounds are written
out. Times, provider answers, store replies and clock readings are inputs.

## What turned out not to hold

- The fork-marker clause of the state validator does not survive every step. A
  withheld list that is delivered again and then found to contradict what was
  observed meanwhile marks the fork without recording it
  (status_state_v2.go:313-318). `ForkMarker.MarkerClauseFails` is a run that
  ends so; `ForkMarker.ValidExactly` says when the clause survives.
- A commit can be refused although the reducer applied the object. If the
  accepted list was first recorded as future-dated, a later future-dated list
  with the same set whose digests sort first absorbs that record as the accepted
  base during compaction, and the validator no longer finds the future-dated
  record (security_journal_v2.go:584-603 against
  security_journal_v2.go:407-420). `RefusedHeartbeat.CommitFails` is a journal
  reached from the empty one whose next commit is refused so;
  `JournalCommits.RefusedExactly` says for every journal that the store can hold
  exactly when the commit of one object is refused.
- A batch of a status stage can be refused although each of its objects could be
  committed by itself. One object ends the reconciliation, the compaction after
  it takes certificates from a withheld record, and a later object asks for the
  whole record again (security_journal_v2.go:574-583).
  `RefusedBatch.BatchFails` is such a batch; `JournalCommits.SmoothBatchIsCommitted`
  gives a condition under which a batch is committed.
- A terminal receipt always passes the decision table, but the body check that
  surrounds it refuses evidence signed by the verifier's own key. The status
  stage excludes that only for the current status key
  (status_provenance_v2.go:355-357), not for a retired one that still witnesses
  a revocation. `VerifyPipeline.BodyCheckFails` is such a claim, and recovery of
  it fails as well; `VerifyPipeline.PipelineIsAccepted` states the condition on
  the inputs, and `VerifyPipeline.SignedByStatusKey` which keys meet it.
- A verifier does not always catch up with an honest feed when the newest list
  arrives fresh. A copy of it that was first recorded stale at the floor, as
  neither accepted nor a gap, is skipped when it arrives again
  (status_state_v2.go:236-239). `ShelvedCopy.ConvergenceFails` is a run that ends
  so; `PublisherConvergence.ConvergesExactly` says which runs catch up.

## Model

| member | source | states |
|---|---|---|
| `StatusMachine.PruneObservations` | security_journal_v2.go:543-620 | the compaction loops compute the specified compaction of the observations |
| `StatusMachine.RetainObservation` | security_journal_v2.go:568-606 | one round narrows a record to its new witnesses unless it must stay whole, and merges it into the record with its semantic key |
| `StatusMachine.ApplyRevocationList` | status_state_v2.go:180-399 | a list application step by step, with its refusals, gives the specified reduced and compacted state |
| `StatusMachine.ApplyRevocationPush` | status_state_v2.go:405-519 | the same for a push application |
| `StatusMachine.IsKnownList` | status_state_v2.go:229-270 | the early returns for a known list or a known set |
| `StatusMachine.MarkListForks` | status_state_v2.go:280-295 | the state is marked as forked exactly for the specified contradictions |
| `StatusMachine.TakeList` | status_state_v2.go:345-398 | acceptance moves snapshot, set, floor and checkpoint, and ends reconciliation only when caught up |
| `StatusMachine.OmissionForPush` | status_state_v2.go:764-783 | the greatest list sequence that contradicts a push |
| `StatusValidation.ValidateAccepted` | security_journal_v2.go:460-535 | the validator loops decide the state predicate that the invariants are about |
| `StatusValidation.ContiguousExactly` | security_journal_v2.go:520-530 | sorted pushes are contiguous up to the floor exactly when every sequence between occurs once |
| `CompactionProofs.RetainedAreDerived` | security_journal_v2.go:543-631 | every retained record comes from an input record and stays whole where later checks need it |
| `CompactionProofs.EveryObservationCovered` | security_journal_v2.go:543-631 | every input record is covered by a retained one |
| `CompactionProofs.NothingUnwitnessed` | security_journal_v2.go:574-583 | compaction keeps exactly the set of witnessed revocations |
| `ReducerInvariant.CompactKeepsInv` | security_journal_v2.go:543-620 | compaction keeps the whole reducer invariant: witnesses, high-water mark, base, contiguous pushes, accepted set |
| `ReducerInvariant.CompactKeepsForkMarker` | security_journal_v2.go:543-620 | compaction neither loses nor invents a fork record |
| `CompactionResult.FoldSums` | security_journal_v2.go:543-620 | the closed form of the compaction loop: the record under a semantic key names what the records with that key were the first to name or keep whole, is accepted if one of them was or the accepted list joined it, and inherits the rest from the first |
| `CompactionResult.CompactedSums` | security_journal_v2.go:543-620 | the same of every record of a compacted state |
| `ReducerInvariant.InvImpliesValid` | security_journal_v2.go:460-535 | the invariant implies every clause of the state validator but the fork marker |
| `ReducerSteps.ReduceListKeepsInv` | status_state_v2.go:229-399 | every list application keeps the invariant |
| `ReducerSteps.ReducePushKeepsInv` | status_state_v2.go:447-519 | every push application keeps the invariant |
| `ReducerSteps.RequiredCoversAccepted` | status_state_v2.go:680-688 | what a snapshot at or above the floor must contain includes the accepted set |
| `ListEffects.LookedAtExactly` | status_state_v2.go:229-270 | a list is skipped exactly when the last record of it, or of its set, is accepted, or is early still, stale still, or shelved |
| `ListEffects.ListApplication` | status_state_v2.go:229-399 | what a list does, said of the records and the old state: nothing if it is skipped; a fork if another set was seen at its sequence, if it omits what was observed up to it, or if it differs from the floor or a push; accepted if it is fresh and at or above the floor; otherwise withheld, as a gap above the floor |
| `PushEffects.PushApplication` | status_state_v2.go:447-519 | the same of a push: nothing if it is on file, a fork if another push of its sequence was seen, a list omits it or it differs from the accepted set, accepted if it is the next after a reconciled floor and in time, otherwise withheld |
| `Contradictions.ListAppliesExactly` | status_state_v2.go:180-228 | an application is refused exactly for another issuer, epoch or key, a malformed list, an invalid policy or an invalid time |
| `Contradictions.ContradictingListIsMarked` | status_state_v2.go:280-342 | a list that is looked at and contradicts what was observed moves nothing accepted, asks for reconciliation, marks a fork at or above its sequence, and is recorded as a fork unless it was on file |
| `Contradictions.ContradictingPushIsMarked` | status_state_v2.go:452-519 | the same of a new push with another body for its sequence, or that a list omits, or that differs from the accepted set |
| `Contradictions.DifferentObjectsFork` | status_state_v2.go:749-761 | over any run, of two different sets or pushes applied for one sequence of an epoch the later new one takes nothing and is marked and recorded as a fork, whatever came between |
| `Contradictions.OnlyOneIsAccepted` | status_state_v2.go:345-398 | over any run, the accepted objects of one kind, epoch and sequence all say the same |
| `ReducerRuns.ReachableInv` | status_state_v2.go:56-519 | every reachable state meets the binding check and every validator clause but the fork marker |
| `ReducerRuns.DeniedForever` | status_state_v2.go:130-137 | a certificate named in any applied object is denied in every later state and never reported not revoked |
| `ReducerRuns.AppliedIsDenied` | status_state_v2.go:235-274 | an application denies everything its object names, also when it returned early |
| `ReducerRuns.FloorNeverFalls` | status_state_v2.go:345-382 | between any two moments of one epoch the floor does not fall and the accepted set loses nothing |
| `ReducerRuns.CompactionHidesNothing` | status_state_v2.go:288-291 | in every reachable state compaction hides no accepted revocation from the fork check |
| `ReducerRuns.QueryExact` | status_state_v2.go:102-151 | a query answers revoked exactly for denied certificates, else unavailable exactly without a reconciled floor, else not revoked or stale as the list is fresh or not |
| `ReducerRuns.FreshUntilIsSound` | status_state_v2.go:143-150 | the list behind a not-revoked answer is fresh at every time before the reported bound |
| `ReducerRuns.FreshUntilIsTight` | status_state_v2.go:143-150 | the reported bound is no earlier than it must be: at it the list is no longer fresh |
| `ForkMarker.ValidExactly` | security_journal_v2.go:493-495 | an operation leaves a valid state exactly when it is not a re-evaluated duplicate that forks unrecorded |
| `ForkMarker.MarkerClauseFails` | status_state_v2.go:313-318 | a run after which an unresolved fork has no record |
| `StatusPublisher.PublishedFeedOk` | status_publisher_v2.go:133-224 | every run of heartbeats and revocations keeps a cumulative feed with exact pushes and one set a sequence |
| `StatusPublisher.GenesisOpens` | status_publisher_v2.go:133-139 | genesis opens such a feed |
| `PublisherActions.RevokeExactly` | status_publisher_v2.go:152-224 | when a revocation succeeds, and that it signs a push of exactly the new IDs and the full list at the next sequence |
| `PublisherActions.PublishedExactly` | status_publisher_v2.go:133-224 | an action is published exactly when it may be, and otherwise changes nothing |
| `PublisherActions.FeedsKeepLifetime` | status_publisher_v2.go:207-224 | over any run every list that is published is to be updated exactly one lifetime after its date |
| `PublisherDelivery.HonestFeedNeverForks` | status_state_v2.go:180-519 | under any reordering, loss and duplication no fork is marked and the accepted set is the publisher's set at the floor |
| `PublisherConvergence.HonestFeedConverges` | status_state_v2.go:102-399 | for deliveries under any policies and at any times, none before its date: if the first applied copy of the newest list was fresh, every query under a policy by which that list is fresh answers revoked exactly for the publisher's set and not revoked otherwise |
| `PublisherConvergence.NewestCatchesUpExactly` | status_state_v2.go:235-263 | a fresh copy of the newest list catches the verifier up exactly when no copy of it is on record as neither accepted nor a gap |
| `PublisherConvergence.ConvergesExactly` | status_state_v2.go:180-399 | a run of deliveries has caught up at its end exactly when at some point the newest list arrived fresh while no copy was shelved |
| `PublisherConvergence.AnyFreshCopyWillDo` | status_state_v2.go:235-263 | under one policy and a clock that does not go back, a fresh copy means that the first copy was fresh |
| `ShelvedCopy.ConvergenceFails` | status_state_v2.go:236-239 | a run in which the newest list arrives fresh and the verifier neither catches up nor answers as the publisher would |
| `PublisherConvergence.PublisherAndVerifierAgree` | status_publisher_v2.go:133-224 | from any genesis, any publishing run and a configured key on: no fork, the publisher's set at the floor, and the convergence above |
| `CompareAndSwap.CommitsAreSequential` | security_journal_v2.go:95-165 | under every interleaving the record is the sequential application of the committed updates, one for every writer that reported a change or whose reply to a successful swap was lost; other successes were no-ops at their load |
| `CompareAndSwap.AtMostTwoAttempts` | status_provenance_v2.go:142-168 | no writer works on more than two records, and on a second one only after a conflict and if it may retry |
| `JournalWriters.NoRevocationIsLost` | status_provenance_v2.go:142-168 | what any writer was told is applied, also after its one reload, or applied without being told, is denied in the journal from then on |
| `JournalWriters.ObjectsAreDenied` | status_provenance_v2.go:273-291 | a batch keeps the state's invariant and denies everything that its objects name |
| `JournalStore.Store.CommitTransition` | security_journal_v2.go:117-146 | a commit conflicts, is a no-op, is refused or advances the record, and says which |
| `JournalStore.Store.CommitWithRetry` | status_provenance_v2.go:142-168 | the two-attempt loop loses no commit of another writer and succeeds only against the record it loaded |
| `JournalStore.ApplyBatch` | status_provenance_v2.go:278-289 | the batch loop applies the objects in order and refuses them all on one refusal |
| `JournalChanges.ConfigureExactly` | security_journal_v2.go:182-214 | an epoch is configured exactly when the issuer is at it with this key, or it is the next one with a key that never had a role; only denials and records survive it |
| `JournalChanges.DeliverExactly` | status_provenance_v2.go:309-359 | objects are taken exactly under the current key, all of them, and in a status stage under a key that is none of the proof |
| `LoadedJournals.ValidStateMeans` | security_journal_v2.go:460-535 | a validated state denies exactly what its records name, and its floor is a list on record followed by one accepted push for each sequence |
| `LoadedJournals.ValidKeysMean` | security_journal_v2.go:774-801 | in a validated record no status key serves two issuers or epochs and no epoch is missing |
| `LoadedJournals.TransitionKeepsEvidence` | security_journal_v2.go:407-420 | a validated transition keeps every record that the floor or a reconciliation rests on |
| `LoadedJournals.TransitionEndsReconciliation` | security_journal_v2.go:443-449 | within an epoch reconciliation ends only by an accepted list that has everything denied and lies after the fork |
| `LoadedJournals.TransitionStartsEpoch` | security_journal_v2.go:424-436 | a validated new epoch has a new key and starts with nothing accepted or observed |
| `LoadedJournals.HistoryLosesNothing` | security_journal_v2.go:374-458 | over a validated history, whoever wrote it, no denial, role or binding is lost and no floor falls within an epoch |
| `JournalTransitions.JournalAcceptsExactly` | security_journal_v2.go:374-458 | after the commit's own compaction both validators accept an operation exactly when it leaves no unrecorded fork and displaces no base record |
| `JournalTransitions.TransitionExactly` | security_journal_v2.go:393-449 | after the commit's own compaction the per-issuer transition clauses (denials, retained evidence, epoch, floor, high-water mark, reconciliation) hold exactly without displacement |
| `JournalTransitions.ChainIsAccepted` | security_journal_v2.go:393-449 | the validator accepts at once the way along any chain of compacted steps that displaces nothing and does not ask for reconciliation again after ending it |
| `CompactionKeys.FoundUnderKey` | security_journal_v2.go:584-603 | without displacement every record is found after compaction under its own semantic key, alone, with everything that the validator asks for |
| `CompactionKeys.DisplacedKeyIsGone` | security_journal_v2.go:584-603 | after a displacement no record carries the semantic key any more |
| `CompactionKeys.CompactedFutureKeysDiffer` | security_journal_v2.go:584-603 | no two future-dated records of a compacted state share a semantic key, whatever was merged |
| `JournalRecords.HistoryIsCommitted` | security_journal_v2.go:150-165 | every record that the store can hold is valid, keeps the reducer invariant for every issuer and has distinct future-dated keys |
| `JournalRecords.OfferedExactly` | security_journal_v2.go:283-376 | the next record after a change to one issuer is refused exactly when that issuer's state fails a validator or no generation is left |
| `JournalCommits.RefusedExactly` | security_journal_v2.go:95-146 | for every journal that the store can hold, the commit of one object that the reducer applied is refused exactly when it leaves an unrecorded fork, displaces the base record, or no generation is left for a change |
| `JournalCommits.BatchIsRun` | status_provenance_v2.go:278-289 | a batch is taken exactly if each object applies after those before it, and leaves what delivering them one by one would |
| `JournalCommits.SmoothBatchIsCommitted` | status_provenance_v2.go:273-291 | a whole batch is committed if no object is refusable where it is applied and reconciliation is not ended and then asked for again |
| `RefusedHeartbeat.CommitFails` | security_journal_v2.go:407-420 | a journal reached from the empty one and a list that the reducer applies to it, whose commit is refused |
| `RefusedBatch.BatchFails` | security_journal_v2.go:407-420 | a journal reached from the empty one and a batch of two objects, neither refusable where it is applied, whose commit is refused |
| `JournalSnapshot.ExportImportRoundTrip` | security_journal_snapshot_v2.go:307-414 | the projection of every committed journal imports against its own head to the same journal |
| `JournalSnapshot.ExportThenImport` | security_journal_snapshot_v2.go:176-414 | export of any record that the writers left in the store succeeds, and its import against that record gives it back |
| `JournalSnapshot.ProjectJournal` | security_journal_snapshot_v2.go:176-239 | the export loop yields the journal's one projection, and fails exactly for an inconsistent floor or genesis |
| `JournalSnapshot.Import` | security_journal_snapshot_v2.go:307-414 | import succeeds exactly for a canonical, ordered, valid projection of the head and rebuilds it |
| `JournalSnapshot.RestoresExactly` | security_journal_snapshot_v2.go:208-237 | a state survives the projection exactly when it hides no floor and no checkpoint |
| `JournalSnapshot.CompactedInOrder` | security_journal_snapshot_v2.go:120-133 | compacted observations are in compaction order |
| `Ordering.CanonicalExactly` | verification_receipt_v2.go:349-356 | a list is its own sorted, duplicate-free form exactly when it is ascending |
| `StatusAggregation.Aggregate` | status_evaluation_v2.go:45-174 | the loops with their maps and flags compute the specified aggregate and fail exactly for malformed checks or roles |
| `StatusAggregation.OrderIndependent` | status_evaluation_v2.go:45-174 | permuting the chain consistently changes neither the assessment nor its evidence nor its bound |
| `StatusAggregation.CurrentHasHistories` | verification_receipt_v2.go:373-414 | a current or stale aggregate carries one base list and contiguous pushes for every issuer |
| `StatusAggregation.CurrentMeans` | status_evaluation_v2.go:108-115 | a current aggregate means every certificate is not revoked, with a bound none outlives |
| `AggregateMeaning.VerdictExactly` | status_evaluation_v2.go:45-174 | revoked exactly when some revoked result has rows that are all genuine and unrivalled; current or stale exactly when every result has one history of genuine, unrivalled rows under the current key and those of one issuer agree |
| `AggregateMeaning.EvidenceExactly` | status_evaluation_v2.go:83-158 | the reported evidence is exactly the genuine rows whose digest no other genuine row claims |
| `AggregateMeaning.HistoryExactly` | status_evaluation_v2.go:227-258 | a current history is one list and one push under its key for each of the next sequences, in any order |
| `StatusAggregation.CheckCurrentEvidence` | status_evaluation_v2.go:227-258 | the evidence loop decides one base and contiguous pushes under one key |
| `StatusAggregation.FindDisagreement` | status_evaluation_v2.go:209-225 | the history map finds exactly the results of one issuer that rest on different histories |
| `StatusReport.AcceptedRowsAreCurrent` | status_state_v2.go:809-821 | the rows that a valid state reports for its floor are one base and contiguous pushes under the current key, as the aggregation demands |
| `StatusReport.RowsExactly` | status_state_v2.go:129-151 | the rows of an answer, each once: the list and pushes that the floor rests on, with the records that name a revoked certificate or that leave the state unsettled |
| `StatusReport.ReportIsValid` | status_state_v2.go:102-151 | whatever a valid journal answers for a certificate, with its rows, the aggregation accepts as a valid result of that kind |
| `Audience.EvaluateAudience` | audience_v2.go:45-167 | the nested loops compute the specified audience assessment: denied over unavailable over passed |
| `Audience.PassStaysValid` | audience_v2.go:115-155 | until the reported bound every link is met by name or by a membership that is unexpired and within the link's age limit |
| `Audience.PassIsLater` | audience_v2.go:115-155 | the bound of a pass lies after the claim time |
| `AudienceOutcomes.EvaluateExactly` | audience_v2.go:45-167 | when the evaluation fails, when it denies and when it is unverifiable: a link denies exactly when its only membership is in force and shares no domain with it |
| `AudienceOutcomes.PassEndsExactly` | audience_v2.go:115-155 | the bound of a pass is attained: at it a membership behind some link expires or reaches its age limit |
| `AudienceOutcomes.EvidenceExactly` | audience_v2.go:115-155 | the reported digests are exactly those of the memberships in force behind the links |
| `TimeWindow.NextOffsetChange` | authorization_v2.go:652-673 | the search ends, and finds the first later instant with another offset, or none in the timestamp domain |
| `TimeWindow.WindowLasts` | authorization_v2.go:611-624 | every instant up to the computed end is inside the window, also across midnight |
| `TimeWindow.WindowsValidUntil` | authorization_v2.go:589-637 | the horizon exists exactly when every window is open now, every window stays open until it, and it is the least of the instants at which one of them first closes |
| `TimeWindow.OpenUntil` | authorization_v2.go:611-637 | one window closes at the first later instant at which the zone changes its offset or the last accepted minute ends |
| `ClaimToken.EvaluationToken.EvaluateOnce` | authorization_v2.go:102-245 | only the first evaluation changes the token, by the ordered local checks |
| `ClaimToken.EvaluationToken.ResolveStatus` | authorization_v2.go:260-329 | the status stage closes the token, holds it for audience and rate, or allows it |
| `ClaimToken.EvaluationToken.ResolveAudience` | authorization_v2.go:336-400 | the audience stage aggregates with a pending local result by precedence |
| `ClaimToken.EvaluationToken.ResolveRate` | authorization_v2.go:410-470 | the rate stage allows only for the sealed batch, reserved or deferred |
| `ClaimToken.EvaluationToken.InterruptEvaluation` | authorization_v2.go:733-745 | interruption ends every pending stage and withdraws the horizon |
| `ClaimToken.EvaluateLocally` | authorization_v2.go:132-245 | the loops over the chain run the ordered checks and build the specified assessment |
| `ClaimToken.EvaluateConstraints` | authorization_v2.go:516-570 | the constraint loop defers audience and rate, keeps the worst outcome (denied over unknown over unverifiable) and the earliest extension horizon |
| `ClaimRuns.LocalExactly` | authorization_v2.go:132-245 | local evaluation passes a chain without a failure exactly when every certificate is timely and scoped, every parent delegates, no constraint fails and the context policy is met |
| `StageOutcomes.LocalEndsExactly` | authorization_v2.go:132-245 | which early end a chain gets: in this order for its trust, times, expiry, scopes, delegation and sealed policy |
| `StageOutcomes.StatusGives` | authorization_v2.go:260-329 | which end or wait each answer of the status stage gives |
| `StageOutcomes.AudienceGives` | authorization_v2.go:336-400 | denied if a link denies, then unknown if a constraint was, then unverifiable, then allowed or held for its rates |
| `StageOutcomes.RateGives` | authorization_v2.go:410-470 | which end each answer of the rate store gives |
| `StageOutcomes.VerdictExactly` | authorization_v2.go:361-369 | after a current status: denied exactly if a constraint of the chain or a link denies, else unknown exactly if a constraint is, else unverifiable exactly if a constraint, a window or a link is |
| `StageOutcomes.OrderDoesNotMatter` | authorization_v2.go:516-570 | rearranging the constraints of a chain changes neither status nor reason |
| `ClaimRuns.AuthorizedOnlyIf` | authorization_v2.go:102-470 | after any calls in any order, an authorized token ran one clean local evaluation, saw every status current, every audience pass and the sealed rates reserved or deferred |
| `ClaimRuns.HorizonExactly` | authorization_v2.go:572-584 | the allow horizon is nonzero exactly when the token is authorized |
| `AllowHorizon.AllowedMeans` | release_v2.go:287-296 | when a released allow may be acted on, every certificate, status list, membership, time window and extension horizon behind it still holds |
| `AllowHorizon.HorizonIsAttained` | authorization_v2.go:572-584 | the horizon of an allow is the end of one of its sources: a certificate, the status, a membership, a window or an extension |
| `VerifyPipeline.Verify` | verify_v2.go:208-361 | the staged method records the specified progress and builds the specified terminal receipt |
| `VerifyPipeline.PipelineIsAccepted` | verification_receipt_v2.go:226-327 | every verification ends in a receipt that the decision table accepts; the evidence check fails exactly when the status stage runs and its aggregate has a row under the verifier's key |
| `VerifyPipeline.BodyCheckFails` | verification_receipt_v2.go:416-434 | a sealed claim whose receipt, and whose recovery after the status was recorded, the body check refuses |
| `VerifyPipeline.SignedByStatusKey` | status_provenance_v2.go:355-357 | such a row is under a status key of an issuer of the chain, and under one that is not current only in a revoked result |
| `VerifyPipeline.ExhaustionIsAccepted` | verify_v2.go:353-360 | the deny that replaces an allow on rate exhaustion is accepted under the same condition on the evidence |
| `VerifyPipeline.RecoveryIsAccepted` | evaluation_progress_v2.go:103-132 | wherever a verification stops, recovery from the last recorded progress builds a receipt that the table accepts; its evidence check fails exactly when the status was recorded with a row under the verifier's key |
| `VerifyPipeline.InterruptedIsRecovered` | verify_v2.go:463-467 | an evaluation interrupted at any stage builds the receipt that recovery builds from the last progress on record exactly when the sealed issuers are sorted and distinct |
| `PipelineOutcome.AllowsExactly` | verify_v2.go:208-361 | a verification allows exactly a trusted, timely, unexpired, scoped and delegated chain with a current status, whose scope, context, constraints, windows and audience links are all met and whose rates, if any, are the sealed ones and were reserved or deferred |
| `PipelineOutcome.EndsExactly` | verify_v2.go:208-361 | the reason with which any verification ends: after an early end, the status first, then scope, context, denied constraints, the audience, unknown and unverifiable constraints, and the rates |
| `PipelineOutcome.RecordsExactly` | verify_v2.go:225-293 | what each progress record says, from the inputs: trust and status count as unavailable while they are asked for, and a context is recorded only if it was met |
| `ReceiptTable.BodyExactly` | verification_receipt_v2.go:191-327 | the whole decision table: a body is accepted exactly if it is a row of it |
| `Finalization.PayloadSwitchesOnce` | claim_store_v2.go:313-363 | over any attempts and other calls every store call carries one body, except that an allow may be replaced once by a deny for the exhausted rate |
| `Finalization.DenyNeverBecomesAllow` | claim_store_v2.go:313-363 | after a body that is not an allow no allow is sent |
| `SentBodies.AttemptExactly` | claim_store_v2.go:313-363 | the store is called exactly with a body that the token and the sealed claim call for, unless it may have kept another; only a rollback changes the token |
| `SentBodies.SentBodiesFit` | claim_store_v2.go:325-345 | over any run, every body sent was called for by the token as it stood, an allow only by an authorized one |
| `Finalization.PipelineMaySend` | claim_store_v2.go:325-345 | the receipt that a verification builds passes every guard of its own finalization exactly when no row is under the verifier's key |
| `Release.ReleaseStore.RecordRelease` | release_v2.go:102-116 | the first record wins and any other later one is a mismatch |
| `Release.ReleaseStore.ReleaseDecision` | release_v2.go:314-447 | an undisturbed call runs the ten steps in order and records what it returns |
| `Release.ReleasedResultsAgree` | release_v2.go:314-447 | all released results of one claim carry the same entry and acknowledgement time and met every deadline, however the calls interleaved |
| `Release.WithheldIsFinal` | release_v2.go:341-351 | once a withheld record exists no call returns released |
| `ReleaseGrounds.GrantsExactly` | release_v2.go:314-447 | a call is granted exactly for a sealed claim, a genuine receipt of its body, an entry acknowledged at its place with its predecessor one place before, and deadlines ahead |
| `ReleaseGrounds.WithholdsExactly` | release_v2.go:400-426 | a call is withheld exactly when all but the deadlines hold, for the first deadline that fails |
| `ReleaseGrounds.StopsExactly` | release_v2.go:320-419 | every other answer, with the one reason that it has |
| `ReleaseGrounds.UndisturbedExactly` | release_v2.go:314-447 | an undisturbed call releases exactly under these grounds, and records it |
| `ReleaseGrounds.LateCallExactly` | release_v2.go:427-447 | a call that others came between is released exactly under the grounds that it had loaded, if the record since then is none or its own |
| `ReleaseGrounds.ReleasedRestsOn` | release_v2.go:314-447 | over any run, every released result rests on these grounds: the claim as it was loaded, the receipt it was called with, and acknowledgements that still stand |
| `ReleaseGrounds.ActedOnExactly` | release_v2.go:287-296 | over any run, a returned decision may be acted on exactly while it is the committed allow and both deadlines lie ahead |
| `KeyRotation.CheckUsedKeys` | key_rotation_v2.go:381-399 | the used-key loop decides a distinct history with the current key and without the replacement |
| `KeyRotation.SameHeadSameHistory` | key_rotation_journal_v2.go:66-121 | equal heads at one sequence mean equal accepted histories, authority, epoch, role and current key |
| `KeyRotation.NoKeyIsCurrentTwice` | key_rotation_journal_v2.go:114-150 | the used keys are the keys that were ever current, in order, and none was current twice in any epoch |
| `KeyRotation.FrozenUntilRecovery` | key_rotation_journal_v2.go:127-150 | a frozen journal changes only by a recovery with a larger epoch and a never-used key |
| `KeyRotation.FreezesExactly` | key_rotation_journal_v2.go:81-106 | a journal freezes exactly on an authenticated different body at an accepted sequence |
| `KeyRotation.AcceptedIsReplay` | key_rotation_journal_v2.go:81-102 | any statement of the accepted history, signed again, changes nothing |
| `KeyRotation.AppendedExactly` | key_rotation_journal_v2.go:66-121 | a statement is appended exactly when it continues the chain, both keys signed it, its time has come and its key is new; the rest leaves the journal or freezes it |
| `KeyRotation.OldExactly` | key_rotation_journal_v2.go:81-106 | which statements are answered as a replay or a fork |
| `KeyRotation.KeysAreHandedOver` | key_rotation_v2.go:363-422 | over any run a key becomes current exactly by a recovery, or by a timely statement that the key before it and the key itself signed |
| `ResourcePath.NormalizePath` | resource_path.go:35-66 | the segment loop decides the path model and trims one trailing slash |
| `ResourcePath.MatchesExactly` | resource_path.go:72-89 | the string test holds exactly when both paths are valid and the prefix's segments begin the path's |
| `ResourcePath.NormalizeExactly` | resource_path.go:35-66 | a path is accepted exactly when it writes a list of names, none empty or dots, each after a slash and with perhaps one slash more, or is the root; its normal form is their rendering |
| `ResourcePath.MatchesByName` | resource_path.go:72-89 | one path matches another exactly when the names of the one begin those of the other |
| `ResourcePath.ValidateIssuance` | protocol_v2_wire.go:1097-1126 | the nested loop accepts exactly bounded lifetimes and resource constraints of one resource with pairwise nested prefixes, where an empty resource ID binds no later one |
| `ResourcePath.IssuerCheckIsSatisfiability` | constraints_v2.go:476-502 | the issuer check with non-empty resource IDs, which decoding demands, accepts a set of resource constraints exactly when some request passes all of them |

## Left out

- Signatures, digests and key components: Ed25519 (section 5.1 of RFC 8032), ML-DSA-65 (FIPS 204), SHA-384 and the checks on the two components of a hybrid key.
- Wire formats: JSON, canonical encoding, base64, size limits, UTF-8 checks, the exact form of IDs beyond being non-empty, and error classes that drive no control flow.
- The order in which a status batch is sorted and its size limits (status_provenance_v2.go:211-268): the results hold for every order.
- The status stage's loop over issuers, its provider calls and cancellation (status_provenance_v2.go:84-141): the aggregate of its results is an input of the claim model.
- References to constraint evaluators in claims and receipts (claim_store_v2.go:404-406): the evaluators are not modelled, so neither are their references.
- Preflight, the claim transaction, leases and the store's own clock checks (claim_store_v2.go:201-292): the sealed values are inputs.
- The evaluators of single constraints other than resource_path and time_window: their outcomes are inputs, including the horizon of an extension evaluator, which is 0 or after the claim time.
- Scope wildcards: a certificate's scopes are the expanded set.
- The zone database behind time windows: a zone is an offset function with the library's bound on its next change; parsing of HH:MM is left out.
- Registration of witness, verifier and other key roles beyond the permanence of a role, and version 1 journal migration.
- Stream sequences, receipt log publication, resumption of committed claims, archival results, the v1 verifier, sessions and policy verdicts: mostly linear checks.
- The second look at the accepted set inside the acceptance branch (status_state_v2.go:345-354) cannot be reached after the first one at status_state_v2.go:284 and is not in the model.
- JournalCommits.SmoothBatchIsCommitted: gives the sufficient direction only; an unsteady batch is refused only if a record that lost certificates is asked for, which depends on what the merged records name.
- StatusReport.ReportIsValid: takes the roles that the status stage builds from the committed journal (status_provenance_v2.go:171-176) and the separation that it has checked as its premise; rows are in the order in which they are collected, on which the aggregation does not depend.
- Release.ReleasedResultsAgree: speaks of one claim; the store contract is the documented one, a record may fail before or after it took effect.
