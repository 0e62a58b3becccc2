# Job ingestion, verified

This project models the transactional core of a job-posting collector and the pure algorithms around
it, and proves what they promise: for every input, every run, and every interleaving.

**Ingestion.** A posting is stored in four tables: jobs, occurrences, raw rows and identity conflicts.
`Ingestion` defines the tables, the identity rules and `Persist`, what one call does when it runs alone.
`Persistence` has the same call as statements over a mutable `Database` class and proves that it refines
`Persist`; `PostingEffects` says, row by row and column by column, what each outcome changes and which one
it is. `Protocol` then lets any number of calls interleave, statement by statement, each query seeing
whatever is committed by then, with the raw-row, advisory, job-row and occurrence-row locks held to the
end; `ProtocolInvariant`, `ProtocolCommit` and `ProtocolTheorems` prove one inductive invariant for all
interleavings. `ProtocolGuarantees`, `ProtocolEffects`, `ProtocolQueries`, `ProtocolSerial`, `ProtocolRequisition`,
`ProtocolProgress` and `ProtocolCollision` read off what it gives (`ProtocolRuns` builds the executions
they exhibit): one job per canonical URL, one occurrence per key, no instability error, and the exact
conditions of one job per requisition, of serial commits and of deadlock. `NaturalKeys` proves the
lock-key encoding injective down to its UTF-8 bytes.

**Runs.** `ProviderExecution` stores one provider's result; `CollectionRuns` holds the run's row and its
attempt rows; `Orchestrator` runs the providers in sequence, `RunScripts` says what it has to show for each of
them, and `RunTotals` what its counters count in the tables. Every transaction may fail or be cancelled
before it commits, or after it committed and before its caller learns of it, and the abort handler may be
struck the same way.

**Evidence.** `Evidence`, `Negation` and `Classification` are the phrase search, masking and negation
engine the employment-type and remote-work classifiers share (`Employment`, `RemoteWork`). Phrase catalogs
are sets; every method takes the order they happen to be enumerated in, and its contract does not
mention it.

**Tools.** `MigrationChain` is the migration-graph check; `CorpusLabels`, `CorpusFreeze`, `CorpusMetrics`,
`CorpusConservation` and `CorpusReadings` are the evaluation corpus, its builder and its metrics; `Urls` (with `FormEncoding`
and `Splitting`) is the URL canonicalizer, after section 6.2.3 of RFC 3986 and section 5 of the WHATWG URL
Standard; `HtmlText` is the post-processing of extracted text; `Taxonomy` is the skills index.

Code that changes state step by step is imperative here too, each method proved against a function or a
predicate; what the source promises is proved about those.

Where the code does less than its prose suggests, the model follows the code and the exact condition is
proved:

- "One job per tenant and requisition" does not hold: a writer with a canonical URL does not take the
  tenant-requisition lock (backend/app/ingestion/persistence.py:586-604). `ProtocolRequisition` reaches two
  jobs, reaches a commit that is not serial, and proves for any set of calls exactly when two jobs can
  come about.
- Freedom from deadlock depends on truncated hashes of different ranks not colliding. `ProtocolCollision`
  proves that a run can deadlock exactly when lock numbers form a ring.
- Removing other-axis phrases is not idempotent (`Employment.CompactingIsNotIdempotent`), and the exact
  condition is `Employment.CompactingIsIdempotentExactly`.
- The migration check can pass on a graph with a repeated revision id (`MigrationChain.RepeatedIdPasses`).
  For distinct ids it is exact, and a graph that passes is a line exactly when no id is repeated
  (`MigrationChain.CleanIsLinearExactly`).
- The corpus builder splits by one employer name and the evaluator partitions by another; `CorpusFreeze.PartitionExactly`
  is the exact condition, and acceptable evidence is given for which it fails.
- An agreement outside the required audit may still be overridden by a `disagreements` entry
  (backend/scripts/freeze_phase3_realistic_corpus.py:606-626), so no claim is made that unaudited
  agreements stand.

`dafny verify dfyconfig.toml` checks the whole project.

## Model

| member | source | states |
|---|---|---|
| `ProtocolGuarantees.OneJobPerUrl` | backend/app/ingestion/persistence.py:584-628 | in every state of every interleaving, all committed occurrences with one canonical URL belong to one job, and no transaction whose posting has a canonical URL ever sees, decides or commits an ambiguity |
| `ProtocolGuarantees.OneOccurrencePerKey` | backend/app/ingestion/persistence.py:537-582 | in every reachable state at most one row matches a well-formed natural key, and the rows that match are exactly those whose own resolved key it is |
| `ProtocolGuarantees.TablesOnlyExtend` | backend/app/ingestion/persistence.py:553-582 | between any two states of a run no occurrence is deleted, re-keyed or moved to another job, sightings only move forward, a raw row that left `fetched` keeps its status, a linked one never changes, conflict rows are only appended |
| `ProtocolGuarantees.NeverUnstable` | backend/app/ingestion/persistence.py:361-401 | in no run does a transaction fail with the instability error or with two rows for one key; every committed outcome carries candidates exactly when ambiguous, and then two or more, sorted and distinct |
| `ProtocolGuarantees.SightingsAndConflicts` | backend/app/ingestion/persistence.py:403-424 | in every reachable state each job's `last_seen_at` is the maximum over its occurrences, no row is first seen after it is last seen, and a raw row is in conflict exactly when one and only one conflict row references it |
| `ProtocolGuarantees.LastSeenIsLatest` | backend/app/ingestion/persistence.py:576-582 | in any state satisfying the invariant, an occurrence's last sighting bounds every committed observation of its key and is one of them |
| `ProtocolGuarantees.LastSeenIsOrderFree` | backend/app/ingestion/persistence.py:576-582 | two runs that committed the same observations of a key, in any order and interleaving, end with the same last sighting of it |
| `ProtocolGuarantees.FirstSeenIsTheCreators` | backend/app/ingestion/persistence.py:630-659 | the first sighting is the observation of a transaction that created the row: the first processed, not the least observed |
| `ProtocolGuarantees.FinishedRawIsRefused` | backend/app/ingestion/persistence.py:680-717 | in every run, a transaction begun when its raw row has already left `fetched` is at every later moment not started, rolled back or refused with the association error; it never holds a lock and none of its steps changes a table |
| `ProtocolGuarantees.CommitsOwnTheirRawRows` | backend/app/ingestion/persistence.py:789-846 | distinct committed transactions finished distinct raw rows, each linked to its occurrence and in conflict exactly for the two conflicting kinds |
| `ProtocolGuarantees.CommitsLeaveEvidence` | backend/app/ingestion/persistence.py:789-846 | for good: the occurrence of a committed outcome is active; a quarantine has its conflict row with two really different URLs; an ambiguity has its conflict row with its list of other existing jobs; any other outcome agrees with the posting on the canonical URL |
| `ProtocolQueries.CreationsFollowAQuery` | backend/app/ingestion/persistence.py:361-401 | every committed insertion, attachment and ambiguity under a tier is the simple rule on the complete candidate set of one earlier moment of its run, when the transaction held the tier lock and was about to query: in particular an ambiguity lists every candidate of that moment |
| `ProtocolQueries.DecisionWasQueried` | backend/app/ingestion/persistence.py:361-401 | a pending tier decision was taken at one earlier moment, under the tier lock, as the simple rule on the candidates of that moment, and has not been revisited since |
| `ProtocolQueries.CommitIsSerialSinceItsQuery` | backend/app/ingestion/persistence.py:584-666 | a commit under a tier is what the whole call would do alone at that moment, if and only if the candidates are the ones its last query saw |
| `ProtocolEffects.CommitsHaveEffects` | backend/app/ingestion/persistence.py:553-666 | every commit of every interleaving changes exactly the rows its outcome names and no column but these: an old occurrence and its job are sighted again, forward; a new occurrence carries the posting under its own key; a new job is first and last seen when the posting was observed; the raw row is linked and the conflict row added as the outcome demands |
| `ProtocolEffects.JobsAreFirstSeenByTheirFounders` | backend/app/ingestion/persistence.py:630-637 | in every reachable state every job was created by a committed insertion or ambiguity that names it, and its first sighting is when that posting was observed |
| `ProtocolEffects.CreationsFollowTheEvidence` | backend/app/ingestion/persistence.py:584-628 | every committed creation went where the evidence led at an earlier moment under its lock, said of rows and columns: no job had an occurrence sharing the canonical URL (or, without one, tenant and requisition within provider and source), exactly one had and was joined, or several had and all of them are listed |
| `ProtocolEffects.NoEvidenceInserts` | backend/app/ingestion/persistence.py:603-628 | a committed creation whose posting has neither a canonical URL nor both tenant and requisition was an insertion |
| `ProtocolTheorems.StepKeepsInv` | backend/app/ingestion/persistence.py:427-666 | every step of the protocol, of any transaction, keeps the inductive invariant and only extends the tables |
| `ProtocolTheorems.ReachableInv` | backend/app/ingestion/persistence.py:427-666 | every state of every run from empty tables satisfies the invariant |
| `ProtocolInvariant.ProbeKeyStep` | backend/app/ingestion/persistence.py:553-603 | the natural-key probe finds at most one row; what it found, or that there is none, stays justified under the advisory lock |
| `ProtocolInvariant.RecheckStep` | backend/app/ingestion/persistence.py:374-401 | a re-check under the candidate's lock finds the locked candidate alone, or more, and never another or none |
| `ProtocolInvariant.RequeryStep` | backend/app/ingestion/persistence.py:361-372 | the authoritative query after a probe of two finds at least two |
| `ProtocolCommit.CommitStep` | backend/app/ingestion/persistence.py:762-846 | a commit keeps the invariant: table rules, what every other transaction already learned, and the history of outcomes |
| `ProtocolCommit.PhaseSurvivesTouch` | backend/app/ingestion/persistence.py:569-582 | what any other transaction has probed, locked or decided stays true when a found-branch transaction commits, because their locks are disjoint |
| `ProtocolCommit.PhaseSurvivesNew` | backend/app/ingestion/persistence.py:630-659 | the same when a miss-branch transaction commits a new row: canonical-URL candidate sets another transaction has locked do not change, tenant-requisition ones can only grow |
| `ProtocolCommit.PendingCanonicalHome` | backend/app/ingestion/persistence.py:586-628 | a pending writer with a canonical URL is bound to the only job holding that URL, or is its first |
| `ProtocolCommit.CommitKeepsDb` | backend/app/ingestion/persistence.py:762-846 | a commit keeps every table rule and only extends the tables |
| `ProtocolCommit.CommitIsRecorded` | backend/app/ingestion/persistence.py:789-846 | right after its commit a transaction's outcome is recorded in the tables as its kind demands |
| `ProtocolSerial.CommitIsSerialExactly` | backend/app/ingestion/persistence.py:584-666 | a commit writes exactly what the whole call run alone at that moment would write, if and only if the candidates its decision was taken on are still all there are |
| `ProtocolSerial.SerializedCommitsAreSerial` | backend/app/ingestion/persistence.py:586-604 | every transaction decided by its natural key, by its canonical URL or by no tier commits serially in every reachable state |
| `ProtocolRequisition.TierThreeCommitsMayNotBeSerial` | backend/app/ingestion/persistence.py:586-604 | of two postings with one tenant-requisition evidence, only one with a canonical URL, the other can decide first and commit last, and then its commit is not what the call would do alone |
| `ProtocolRequisition.NonSerialCommitsHappen` | backend/app/ingestion/persistence.py:586-604 | such a commit is reached by a run of two concrete postings |
| `ProtocolRequisition.AgreeingRowsShareAJob` | backend/app/ingestion/persistence.py:586-604 | in every reachable state, rows with one tenant-requisition evidence that agree on the canonical URL, or all have none, belong to one job |
| `ProtocolRequisition.TwoJobsHaveSplitCalls` | backend/app/ingestion/persistence.py:586-604 | whenever one evidence is on two jobs, two of the calls begun carry it under different identities and not the same canonical URL |
| `ProtocolRequisition.OneJobPerRequisitionExactly` | backend/app/ingestion/persistence.py:586-604 | for any set of calls, some run of only those calls puts a tenant-requisition evidence on two jobs if and only if two of them, on different raw rows and with lock numbers, carry it under different identities and not the same canonical URL; without canonical URLs it is one job |
| `ProtocolRequisition.TwoJobsHappen` | backend/app/ingestion/persistence.py:586-604 | whatever the hash, a run of two concrete postings ends with two jobs for one tenant and requisition |
| `ProtocolSerial.ExecutionIsSerial` | backend/app/ingestion/persistence.py:427-666 | a run all of whose commits found their candidates unchanged ends in the same tables as the serial run of whole calls in commit order |
| `ProtocolProgress.NoDeadlock` | backend/app/ingestion/persistence.py:537-615 | in every reachable state with an unfinished transaction some transaction can take its next step, when truncated hashes of different byte strings in play do not collide |
| `ProtocolProgress.Progress` | backend/app/ingestion/persistence.py:669-677 | following whoever holds the wanted lock upward in rank ends at a transaction that can step |
| `ProtocolProgress.HolderIsFurther` | backend/app/ingestion/persistence.py:537-615 | whoever holds the lock another transaction waits for is unfinished and itself at a later rank: raw row, natural key, tier, job row, occurrence row |
| `ProtocolProgress.TagsKeepRanksApart` | backend/app/ingestion/natural_key.py:62-66 | since the tags of the encodings never overlap, absence of truncated collisions is enough to keep natural-key and tier locks apart |
| `ProtocolCollision.DeadlockExactly` | backend/app/ingestion/natural_key.py:82-91 | for any hash, some run deadlocks if and only if the lock numbers of some admissible calls form a ring: different raw rows, different natural-key numbers, each tier number the next natural-key number |
| `ProtocolCollision.RingDeadlocks` | backend/app/ingestion/natural_key.py:82-91 | every ring is reached by a run in which its calls wait for one another and no transaction can step |
| `ProtocolCollision.DeadlockHasRing` | backend/app/ingestion/persistence.py:537-615 | in every deadlocked reachable state the calls of some of its own waiting transactions form a ring |
| `ProtocolCollision.DeadlocksHappen` | backend/app/ingestion/natural_key.py:82-91 | under some hash a run of two concrete postings deadlocks |
| `ProtocolCollision.SomeHashCrosses` | backend/app/ingestion/natural_key.py:82-91 | no choice of encoding prevents it: for any two encodable postings of different identity and tier evidence some hash makes a ring of the two |
| `NaturalKeys.EncodeLengthPrefixed` | backend/app/ingestion/natural_key.py:69-79 | the loop computes the length-prefixed encoding, and overflows exactly when some component has 2^32 UTF-8 bytes or more |
| `NaturalKeys.Utf8Injective` | backend/app/ingestion/natural_key.py:69-79 | different strings have different UTF-8 forms |
| `NaturalKeys.LengthPrefixedInjective` | backend/app/ingestion/natural_key.py:69-79 | equal encodings are equal component lists, also between lists of different lengths |
| `NaturalKeys.TaggedBytesInjective` | backend/app/ingestion/natural_key.py:128-132 | equal tagged bytes are equal tags and equal components |
| `NaturalKeys.CanonicalBytesInjective` | backend/app/ingestion/natural_key.py:107-132 | two natural keys have equal bytes if and only if they are the same identity, across all three domains |
| `NaturalKeys.TierBytesInjective` | backend/app/ingestion/natural_key.py:140-175 | each tier encoding is injective, and neither meets the other or any natural key |
| `NaturalKeys.LockNumberBijection` | backend/app/ingestion/natural_key.py:82-91 | the lock number is a bijection between the first eight digest bytes and the signed 64-bit range |
| `NaturalKeys.LockNumberSpells` | backend/app/ingestion/natural_key.py:82-91 | the lock number is what the first eight digest bytes spell, most significant first, in two's complement |
| `NaturalKeys.Utf8CharSpells` | backend/app/ingestion/natural_key.py:69-79 | the bytes of a character carry its code point behind the markers of UTF-8, in the shortest form |
| `NaturalKeys.PrefixedIs` | backend/app/ingestion/natural_key.py:69-79 | the encoding is the components in order, each behind four bytes that spell its length, most significant first |
| `NaturalKeys.CanonicalBytesAre` | backend/app/ingestion/natural_key.py:107-132 | which tag and which parts, in which order, each form of key is written with |
| `NaturalKeys.SameIdentityExactly` | backend/app/ingestion/natural_key.py:178-223 | two postings have the same identity if and only if provider and source agree once canonicalized, and so do job id and tenant when there is a job id, or the URLs when there is none |
| `NaturalKeys.Resolve` | backend/app/ingestion/natural_key.py:178-223 | a key results exactly when there is a job id or a source URL; it is well formed and its parts canonical; the URL form is chosen exactly without a job id, the tenant form exactly with a job id and a tenant |
| `CoveredText.CanonicalizationIsStable` | backend/app/ingestion/natural_key.py:14-27 | canonicalizing an identifier or a nullable text twice is canonicalizing it once |
| `CoveredText.TrimIsTheMiddle` | backend/app/ingestion/natural_key.py:14-27 | trimming gives what lies between covered whitespace, however the text is taken apart |
| `Ingestion.MatchesExactlyOwnKey` | backend/app/ingestion/persistence.py:160-184 | the domain-scoped lookup conditions match a stored row if and only if the row's own resolved key is the key looked up |
| `Ingestion.StoredKey` | backend/app/ingestion/persistence.py:160-184 | which domain, and which components, a stored row's own key has |
| `Ingestion.NewRowResolvesToItsKey` | backend/app/ingestion/persistence.py:630-659 | the row written for a posting is in stored form, keeps its canonical URL, and resolves back to the key it was written under |
| `Ingestion.DecideInjective` | backend/app/ingestion/persistence.py:226-266 | the tier decision determines the exact candidate set it was taken on |
| `TableWrites.TouchKeepsDb` | backend/app/ingestion/persistence.py:569-582 | the found branch keeps every table rule and only extends the tables |
| `TableWrites.AddKeepsDb` | backend/app/ingestion/persistence.py:403-424 | the miss branch keeps every table rule and only extends the tables, provided a canonical URL only ever joins the job already holding it |
| `Persistence.PersistKeepsDb` | backend/app/ingestion/persistence.py:762-846 | a call run alone on valid tables ends in valid tables that extend them and leaves its raw row processed, or fails otherwise than by instability |
| `Persistence.PersistKindTells` | backend/app/ingestion/persistence.py:26-77 | the outcome kind tells which rows were created: a job for an insertion or ambiguity, a conflict row for an ambiguity or quarantine, no raw row; and that no other raw row than the one of the call changed, to the status the kind demands |
| `Persistence.DerivedKeyIsAccepted` | backend/app/ingestion/persistence.py:680-717 | a raw row stored for a posting and the key derived from that posting always pass the association check |
| `PostingEffects.AssociationExactly` | backend/app/ingestion/persistence.py:680-717 | the raw row is accepted if and only if it is still as it was fetched for this posting and the key is the posting's own |
| `PostingEffects.FetchedAlike` | backend/app/ingestion/provider_execution.py:101-122 | two postings are fetched as the same row if and only if provider, source and job id agree once canonicalized, and payload hash and discovery time agree |
| `Persistence.Database.DiscoverCandidates` | backend/app/ingestion/persistence.py:226-241 | the limit-2 query returns all candidates when there are fewer than two and some two distinct ones otherwise |
| `Persistence.Database.DiscoverAllCandidates` | backend/app/ingestion/persistence.py:244-266 | the unbounded query returns the complete candidate set, sorted and distinct |
| `Persistence.Database.AttachToCandidate` | backend/app/ingestion/persistence.py:290-424 | probe, re-check and requery together refine the simple rule: none inserts, exactly one attaches, more are ambiguous with the complete set |
| `Persistence.Database.TouchExisting` | backend/app/ingestion/persistence.py:553-582 | refines the found branch of the specification, and sights exactly the occurrence found and its job again |
| `Persistence.Database.CreateOrAttach` | backend/app/ingestion/persistence.py:584-666 | refines the miss branch of the specification; said of rows: a new occurrence joins the one job that holds the posting's evidence, which is sighted again, or founds a new job first and last seen when the posting was observed, tied with exactly the jobs listed |
| `Persistence.Database.UpsertJobOccurrence` | backend/app/ingestion/persistence.py:427-666 | makes every job and occurrence write the specification asks for and no other: exactly the rows of its outcome, found again if and only if the key was known |
| `Persistence.Database.PersistPosting` | backend/app/ingestion/persistence.py:762-846 | is the specification; said of rows and columns: what each outcome changes and nothing else, a new job's sightings being the observation, which outcome the key and the evidence lead to, and exactly which calls fail and how; on an error the tables are untouched; all table rules survive |
| `Persistence.Database.WriteFetchedRow` | backend/app/ingestion/provider_execution.py:101-122 | adds exactly one `fetched` row for the posting and keeps every table rule |
| `Persistence.Database.MarkParseError` | backend/app/ingestion/provider_execution.py:125-141 | marks an unlinked row, refuses a linked one, changes nothing else |
| `ProviderExecution.CheckResult` | backend/app/ingestion/provider_execution.py:170-211 | accepts a result exactly when it is of this provider and of exactly the sources queried, every job is of this provider, every source's count is the number of its jobs, and a source that did not complete has none and claims no partial results |
| `ProviderExecution.SelectErrors` | backend/app/ingestion/provider_execution.py:220-225 | selects for every source its latest error, ties going to the later position |
| `ProviderExecution.ProviderExecutionState.SetDefaults` | backend/app/ingestion/provider_execution.py:245-250 | adds missing sources with a zero count and changes no count |
| `ProviderExecution.ProviderExecutionState.CountFate` | backend/app/ingestion/provider_execution.py:265-305 | each fate lands in exactly its bucket, of its own source, with its flags |
| `ProviderExecution.FetchPostings` | backend/app/ingestion/provider_execution.py:252-254 | every posting gets one new `fetched` row of its own, in order |
| `ProviderExecution.StorePosting` | backend/app/ingestion/provider_execution.py:256-265 | the reported fate is what the tables show: a parse error exactly when the posting has no identity, changing nothing but the raw row's status, and otherwise every effect of persisting that posting under its own key as observed then; struck, at most that happened |
| `ProviderExecution.StorePostings` | backend/app/ingestion/provider_execution.py:256-305 | on every ending the counters are those of the postings counted, which are stored as counted; a normal end has stored them one after the other, each on the tables the one before left; when it breaks off, at most the next posting is stored besides, uncounted |
| `ProviderExecution.FetchAndStore` | backend/app/ingestion/provider_execution.py:252-305 | both loops over the postings: all fetched, one new raw row each, then stored in order; broken off, within one of what is counted |
| `ProviderExecution.ExecuteProviderQuery` | backend/app/ingestion/provider_execution.py:144-305 | on every ending: if discovery returned a consistent result, the failures on the state are its errors one by one and in order, with statistics, selected errors, every discovered count, and the counts of the postings dealt with; otherwise the state is as it was and no table changed; the inserted count misses at most the last job created, the discovered count no raw row; everything new is first and last seen when observed; a normal end has fetched all postings and then stored each with all its effects, in order |
| `ProviderExecution.BucketsPartition` | backend/app/ingestion/provider_execution.py:256-305 | per source, the postings dealt with are the parse errors plus the inserted plus the updated |
| `ProviderExecution.CompletionConserves` | backend/app/ingestion/provider_execution.py:245-305 | on normal completion each source's discovered count is what it declared, the number of its postings, and equals inserted plus updated plus parse-error rows; inserted and updated are its postings with an identity; new raw rows, and new jobs, sum up; no new row is left `fetched` |
| `ProviderExecution.CompletionIsCounted` | backend/app/ingestion/provider_execution.py:245-305 | on normal completion the counters sum to rows of the tables: discovered to the new raw rows, inserted to the new jobs, updated to the new raw rows that are neither parse errors nor new jobs' |
| `ProviderExecution.CountIsHowMany` | backend/app/ingestion/provider_execution.py:196-211 | the count of a source is the number of its postings |
| `CollectionRuns.RunStore.AppendPlanningFailure` | backend/app/ingestion/orchestrator.py:104-131 | appends exactly that failure or, aborted, nothing or that; a cancelled caller cannot tell which |
| `CollectionRuns.RunStore.BeginProviderAttempt` | backend/app/ingestion/orchestrator.py:134-175 | one new running row per source and one attempted provider, all or nothing; ids come back only if it committed |
| `CollectionRuns.RunStore.FinalizeProviderSuccess` | backend/app/ingestion/orchestrator.py:178-229 | the provider's rows become terminal and show, source by source, the state's discovered, inserted and updated counts; the run's counters rise by their sums and the state's failures are appended, all or nothing |
| `CollectionRuns.RunStore.FetchRunningAttempts` | backend/app/ingestion/orchestrator.py:232-256 | finds exactly the rows still running |
| `CollectionRuns.RunStore.FinalizeRunningAttemptsAborted` | backend/app/ingestion/orchestrator.py:259-322 | fails exactly the given running rows, which show the counts of the state and append its failures only when a state is given, all or nothing |
| `CollectionRuns.RunStore.FinishRun` | backend/app/ingestion/orchestrator.py:561-578 | writes the final status and nothing else |
| `CollectionRuns.RunStore.RecomputeAndFail` | backend/app/ingestion/orchestrator.py:616-636 | the rollup becomes the exact sum over the attempt rows, with status failed, all or nothing |
| `CollectionRuns.FinalizeRows` | backend/app/ingestion/orchestrator.py:195-220 | finalizing row by row keeps terminal rows and raises each column sum by exactly the provider's own counts |
| `CollectionRuns.AbortedMovesAll` | backend/app/ingestion/orchestrator.py:259-322 | failing all rows in flight raises each column sum by exactly what the telemetry counts, and by nothing without telemetry |
| `CollectionRuns.HistoryGrows` | backend/app/ingestion/orchestrator.py:259-322 | if every commit keeps the terminal rows of the one before it, every commit keeps those of all before it |
| `Orchestrator.RunQuery` | backend/app/ingestion/orchestrator.py:520-559 | one provider: a normal end leaves the run at rest, the provider reported, its rows finalized with the counts of its state source by source, and the run's counters risen by exactly what the tables gained; any interruption leaves no trace, running rows with nothing reported, or a complete turn, and whoever learned the ids holds all there is to tell |
| `Orchestrator.RunTurn` | backend/app/ingestion/orchestrator.py:489-559 | one provider name: planning failures and empty plans continue, everything else is as for a query |
| `Orchestrator.RunProviders` | backend/app/ingestion/orchestrator.py:481-559 | after any number of providers every finished one was asked, attempted and reported exactly once and in order, its rows say what its result said, and the flags are those of the tables |
| `Orchestrator.HandleAbort` | backend/app/ingestion/orchestrator.py:580-636 | fails exactly the rows found running; when it finishes, the in-memory state contributed its counts, row by row, and its failures, each once, if its ids are exactly those rows, and nothing otherwise; however far it gets, a terminal rollup is exact |
| `Orchestrator.RunSavedSearch` | backend/app/ingestion/orchestrator.py:325-637 | on every run, with an abort before or after any commit and a failing handler: a run no longer running has counters equal to the sums over its rows and none running, which count no job that is not in the tables, miss at most one, and count every new raw row; terminal rows never change; every row is the finalized account of a finished provider, its inserted and updated being its postings with an identity, or belongs to the one interrupted; the failures are, turn by turn and in order, exactly the planning failures and every error of every finished provider, and of the interrupted one if it had been asked and the handler completed; everything new is first and last seen when observed; a normal end has inserted the number of new jobs, discovered that of new raw rows, updated the rest less the parse errors, and is `completed` if and only if no provider degraded, which is if and only if no failure is listed and every attempt completed, and no parse error or conflict was stored |
| `Orchestrator.InterruptedReported` | backend/app/ingestion/orchestrator.py:594-615 | wherever a turn was interrupted and whatever the handler managed: no failure of a finished provider is lost and none recorded twice; a handler that completed has recorded those of the interrupted provider too if it had been asked; and each of its rows is as it was begun or failed, keeping what the accepted result said of its source |
| `Orchestrator.InterruptedWithin` | backend/app/ingestion/orchestrator.py:594-636 | wherever a turn was interrupted: once the run is no longer running, its inserted count is the number of new jobs or one less, and its discovered count at least that of new raw rows |
| `Orchestrator.NothingMissed` | backend/app/ingestion/orchestrator.py:546-570 | if no failure is listed and every attempt completed, no plan failed and no result was possibly incomplete |
| `RunScripts.ExpectedInTurns` | backend/app/ingestion/orchestrator.py:104-131 | the failures to be listed fall into one piece per provider, in order: its planning failure, or every error of its accepted result, one by one |
| `RunScripts.ExpectedListedOnce` | backend/app/ingestion/provider_execution.py:231-243 | with distinct providers, every error of a reported provider is listed exactly as often as its result has it |
| `RunTotals.RaisedTwice` | backend/app/ingestion/orchestrator.py:195-206 | counters that rise turn by turn with the tables have risen with them over all turns, the parse errors of different turns being different rows |
| `RunTotals.FailedWithin` | backend/app/ingestion/orchestrator.py:594-636 | failing an execution's rows with its telemetry raises the rollup within one job of what it stored |
| `Orchestrator.FinalizedTurn` | backend/app/ingestion/orchestrator.py:540-559 | a finalized turn leaves the rollup exact, no row running, the provider reported, and each new row saying what the accepted result said of its source |
| `Orchestrator.FinalizedCompleted` | backend/app/ingestion/provider_execution.py:71-98 | a row finalized from a result that is not possibly incomplete is completed, without error fields |
| `Orchestrator.StoredParseErrors` | backend/app/ingestion/orchestrator.py:552-554 | the parse-error and conflict flags are raised exactly when rows of that kind were stored |
| `Evidence.FindSpans` | backend/app/normalization/employment.py:434-446 | exactly the occurrences of the phrase, in ascending order |
| `Evidence.MaskPhrases` | backend/app/normalization/employment.py:449-462 | longest-first masking that skips touched spans masks exactly the positions some catalog phrase covers, whatever the order among equal lengths |
| `Evidence.AllOrNone` | backend/app/normalization/employment.py:449-462 | in a nesting catalog a span that meets a masked token is masked entirely |
| `Evidence.HeadsNest` | backend/app/normalization/employment.py:449-462 | a catalog nests when no head word of a longer phrase occurs further inside any phrase |
| `Employment.MaskNests` | backend/app/normalization/employment.py:449-462 | the mask catalog of the classifier nests |
| `Employment.CompactTokens` | backend/app/normalization/employment.py:465-469 | leaves exactly the tokens no mask phrase covers, in order |
| `Evidence.CompactKeepsExactly` | backend/app/normalization/employment.py:465-469 | compacting keeps exactly the unmasked tokens, at increasing places |
| `Employment.CompactingIsNotIdempotent` | backend/app/normalization/employment.py:465-469 | "per temp diem" compacts to "per diem", which compacts to nothing |
| `Employment.CompactingIsIdempotentExactly` | backend/app/normalization/employment.py:465-469 | compacting twice is compacting once if and only if the text has no uncovered "per" and "diem", or "w" and "2", kept apart only by covered tokens |
| `Negation.StruckIsLeastFixedPoint` | backend/app/normalization/employment.py:583-639 | the struck candidates are the least set that contains every nearest candidate and is closed under or/nor coordination |
| `Negation.DistanceIsToTheNearest` | backend/app/normalization/employment.py:472-479 | the distance to a span is the least of the distances to its positions, on either side of it |
| `Negation.NearestMeans` | backend/app/normalization/employment.py:583-619 | the candidates a negator binds, token by token: some token of theirs is within three of it, and no token of any candidate on that side is nearer; ahead of it first where the classifier asks for that |
| `Negation.JoinedIsCoordinated` | backend/app/normalization/employment.py:482-502 | two candidates are coordinated if and only if one conjunction, with at most one determiner behind it, is all there is between them |
| `Negation.StruckExactly` | backend/app/normalization/employment.py:583-639 | token by token, a candidate is struck if and only if it lies in every set that holds the closest candidates of every negator and everything coordinated with a member |
| `Negation.UnresolvedMeans` | backend/app/normalization/employment.py:583-619 | a negator is unresolved if and only if no token of any candidate is within three of it |
| `Negation.NearestWhere` | backend/app/normalization/employment.py:583-639 | exactly the candidates at least distance on the given side, ties included, which are those with a token within three of the negator and none nearer; none if and only if none is eligible |
| `Negation.NearestIndices` | backend/app/normalization/employment.py:583-639 | the nearest candidates of one negator under the classifier's binding rule, also token by token |
| `Negation.Spread` | backend/app/normalization/employment.py:620-639 | one worklist round adds only justified positions and makes progress |
| `Negation.Propagate` | backend/app/normalization/employment.py:620-639 | the worklist terminates with nothing left to spread |
| `Negation.SpreadIsComplete` | backend/app/normalization/employment.py:620-639 | once nothing is left, a position is suppressed if and only if its candidate is struck |
| `Negation.Suppress` | backend/app/normalization/employment.py:583-639 | the whole engine suppresses exactly the struck candidates, whatever order they were collected in, and tells exactly when a negator found none |
| `Classification.FindUnmaskedSpans` | backend/app/normalization/remote.py:367-380 | exactly the occurrences that meet no masked token |
| `Classification.Collect` | backend/app/normalization/employment.py:547-582 | the collected candidates are all occurrences of all catalog entries, whatever order the catalog is enumerated in |
| `Classification.CandidatesSpell` | backend/app/normalization/employment.py:547-582 | a candidate is a stretch of unmasked tokens that spells some entry's phrase |
| `Classification.Summarize` | backend/app/normalization/employment.py:640-645 | none, one value, or contradiction, according to the surviving set |
| `Classification.CombineIsUnanimous` | backend/app/normalization/employment.py:655-675 | a value results if and only if title and description together say it and nothing else; unavailable exactly without one, inferred exactly when the description is silent |
| `Employment.TitleSurvivors` | backend/app/normalization/employment.py:518-544 | a title says a type exactly when some segment, compacted, is a bare marker of it |
| `Employment.SegmentSaysExactly` | backend/app/normalization/employment.py:518-544 | a segment says a type if and only if its uncovered tokens, one after the other, spell a bare marker of it |
| `Employment.SentenceSurvivors` | backend/app/normalization/employment.py:547-645 | a sentence says a type exactly when no negator is left unresolved and some qualified phrase of it is not struck |
| `Employment.SentenceSaysExactly` | backend/app/normalization/employment.py:547-645 | token by token: every negator has a phrase within three tokens, and an arrangement phrase of the type escapes some set that holds all that negators bind and all that is coordinated with a member |
| `Employment.WithoutNegators` | backend/app/normalization/employment.py:547-645 | a sentence without negators says exactly what its arrangement phrases spell |
| `Employment.NearestAloneIsStruck` | backend/app/normalization/employment.py:583-619 | a phrase within three tokens of a negator is struck when no other phrase is as near |
| `Employment.DescriptionSurvivors` | backend/app/normalization/employment.py:547-645 | a description says what some sentence of it says |
| `Employment.Classify` | backend/app/normalization/employment.py:648-675 | the result depends on the text alone: a value if and only if the fields say it and nothing else, inferred exactly when the description is silent |
| `RemoteWork.ExclusionsNest` | backend/app/normalization/remote.py:383-389 | exclusion phrases are two tokens long and nest |
| `RemoteWork.MaskExclusions` | backend/app/normalization/remote.py:383-389 | masks exactly the positions some exclusion phrase covers, in any order of the phrases |
| `RemoteWork.ExplicitSurvivors` | backend/app/normalization/remote.py:469-512 | exactly the kinds with an explicit phrase unmasked in the title |
| `RemoteWork.SegmentSurvivors` | backend/app/normalization/remote.py:469-512 | exactly the kinds some title segment, unmasked, is a bare marker of |
| `RemoteWork.SegmentSaysExactly` | backend/app/normalization/remote.py:469-512 | a segment says a type if and only if its unmasked tokens, one after the other, spell a bare marker of it |
| `RemoteWork.SuppressNearCues` | backend/app/normalization/remote.py:574-628 | on top of the struck ones exactly the candidates near a context cue are suppressed |
| `RemoteWork.CountingKinds` | backend/app/normalization/remote.py:416-443 | exactly the kinds with a counting candidate; comma contrast against a negated one counts |
| `RemoteWork.PositionIsValue` | backend/app/normalization/remote.py:574-628 | whether a position counts is a property of the candidate, not of the order of collection |
| `RemoteWork.SentenceKinds` | backend/app/normalization/remote.py:515-634 | a sentence says a kind, the attendance blocker included, exactly when no negator is left unresolved and some candidate of it counts |
| `RemoteWork.SentenceSaysExactly` | backend/app/normalization/remote.py:515-634 | token by token: every negator has a phrase within three tokens, and a phrase of the kind escapes negation, has no word of another context within three tokens, and is an arrangement phrase or set off by a bare comma from a withdrawn one |
| `RemoteWork.DescriptionKinds` | backend/app/normalization/remote.py:515-634 | a description says what some sentence of it says |
| `RemoteWork.Classify` | backend/app/normalization/remote.py:637-679 | the result depends on the text alone: a value if and only if the fields say it and nothing else, except remote against an attendance requirement; inferred exactly when the description is silent |
| `MigrationChain.CheckChain` | backend/scripts/check_repo.py:502-587 | the findings are exactly those due; for distinct ids there are none if and only if the migrations form one line from the single head to the single baseline covering every revision |
| `MigrationChain.CleanExactlyWhenLinear` | backend/scripts/check_repo.py:502-587 | for distinct ids, no finding is due if and only if the graph is such a line |
| `MigrationChain.LineIsClean` | backend/scripts/check_repo.py:502-587 | a line draws no finding |
| `MigrationChain.CleanIsLinear` | backend/scripts/check_repo.py:502-587 | a graph without findings is a line: the walk from the head gives it |
| `MigrationChain.WalkParents` | backend/scripts/check_repo.py:568-574 | terminates on every input, cycles included, and collects exactly the ancestors of the head |
| `MigrationChain.ReachedByPath` | backend/scripts/check_repo.py:568-574 | for distinct ids a revision is reached if and only if a path of migrations with single parents leads down to it |
| `MigrationChain.DisconnectedExactly` | backend/scripts/check_repo.py:568-587 | for distinct ids the disconnection finding names exactly the revisions no such path leads to from the one head and that are no merges themselves |
| `MigrationChain.ScanMigrations` | backend/scripts/check_repo.py:517-547 | the tables filled in one pass are those of the graph, with exactly the per-migration findings |
| `MigrationChain.SharedParents` | backend/scripts/check_repo.py:558-566 | exactly the parents with more than one child, the baseline's absent parent included |
| `MigrationChain.RepeatedIdPasses` | backend/scripts/check_repo.py:517-521 | distinctness is needed: three migrations with a repeated id draw no finding and form no line |
| `MigrationChain.CleanIsLinearExactly` | backend/scripts/check_repo.py:502-587 | a graph without findings is a line if and only if no id is repeated |
| `CorpusFreeze.ComputeRequiredAuditKeys` | backend/scripts/freeze_phase3_realistic_corpus.py:502-540 | required are exactly every supported agreement and, of each other stratum, the agreement of its least record id |
| `CorpusFreeze.EveryStratumIsAudited` | backend/scripts/freeze_phase3_realistic_corpus.py:502-540 | every unsupported stratum has exactly one required agreement, whose record id comes no later than any other in it; every supported agreement is required itself |
| `CorpusFreeze.CheckAudit` | backend/scripts/freeze_phase3_realistic_corpus.py:543-679 | accepts exactly the audits that adjudicate every disagreement, really change every agreement they adjudicate, cover every required key, and are overturned exactly when adjudicated |
| `CorpusFreeze.AgreedIsValid` | backend/scripts/freeze_phase3_realistic_corpus.py:696-711 | a merged agreement of a valid label satisfies the evaluator |
| `CorpusFreeze.AdjudicatedIsValid` | backend/scripts/freeze_phase3_realistic_corpus.py:714-775 | a merged adjudication satisfies the evaluator: the primary label is the adjudicated one and the second annotation really differs, sol's unless it is the final label, then claude's |
| `CorpusFreeze.MergedIsValid` | backend/scripts/evaluate_phase3_corpus.py:458-621 | every label merged from two validated passes and a validated audit satisfies the evaluator's rules; an adjudicated one is the user's, dated as adjudicated, with the second signed and dated by its pass; an agreed one is what both passes gave, dated as the later of them |
| `CorpusFreeze.DeterministicSplit` | backend/scripts/freeze_phase3_realistic_corpus.py:682-693 | holds out the greatest employer, and refuses fewer than two |
| `Ordering.AtMostExactly` | backend/scripts/freeze_phase3_realistic_corpus.py:682-693 | a name comes no later than another if and only if it is a prefix of it or has the lower code point where they first part |
| `CorpusFreeze.MergeRecord` | backend/scripts/freeze_phase3_realistic_corpus.py:887-928 | each label path gets exactly its merged annotation |
| `CorpusFreeze.BuildCorpus` | backend/scripts/freeze_phase3_realistic_corpus.py:876-948 | builds exactly from acceptable evidence, record for record; a record is held out if and only if no employer comes after its candidate's |
| `CorpusFreeze.BuiltRecordsAreValid` | backend/scripts/evaluate_phase3_corpus.py:683-749 | every record of every built corpus passes the evaluator's annotation rules at every label path, and every label is what the passes and the user made of it |
| `CorpusFreeze.PartitionExactly` | backend/scripts/evaluate_phase3_corpus.py:878-890 | a built corpus passes the employer-disjoint partition check if and only if no provenance employer lies on both sides, in particular whenever the two employer names agree |
| `CorpusFreeze.DisagreeingEmployersBreakThePartition` | backend/scripts/freeze_phase3_realistic_corpus.py:876-885 | acceptable evidence for two candidates whose provenance names one employer, from which every corpus built fails the partition check |
| `CorpusMetrics.Score` | backend/scripts/evaluate_phase3_corpus.py:1103-1199 | every metric of the component rises by exactly what the case weighs in it |
| `CorpusMetrics.ScoreLabelled` | backend/scripts/evaluate_phase3_corpus.py:1262-1314 | every skills metric rises by exactly what one labelled id weighs in it |
| `CorpusMetrics.SplitEvaluation.ScoreComponent` | backend/scripts/evaluate_phase3_corpus.py:1103-1199 | of all reported numbers, exactly the ones of that component rise, by the case's weight |
| `CorpusMetrics.SplitEvaluation.EvaluateParser` | backend/scripts/evaluate_phase3_corpus.py:1202-1259 | of all reported numbers, exactly the parser's own rise; a failed call scores no component |
| `CorpusMetrics.SplitEvaluation.EvaluateSkills` | backend/scripts/evaluate_phase3_corpus.py:1262-1314 | of all reported numbers, exactly the skills numbers rise, whatever order the id sets are taken in |
| `CorpusMetrics.SplitEvaluation.EvaluateRecord` | backend/scripts/evaluate_phase3_corpus.py:1317-1381 | every reported number rises by exactly what the record weighs in it |
| `CorpusMetrics.SplitEvaluation.EvaluateRecords` | backend/scripts/evaluate_phase3_corpus.py:1317-1381 | every reported number is the sum of the records' weights |
| `CorpusConservation.CaseIsConserved` | backend/scripts/evaluate_phase3_corpus.py:1103-1199 | correctness, abstention and confidently-wrong share a denominator and their hits partition it; gap hits plus it are the supported case; the outcomes partition the cases |
| `CorpusConservation.ComponentConserves` | backend/scripts/evaluate_phase3_corpus.py:1103-1199 | the same for the reported numbers of any component over any records |
| `CorpusConservation.SkillsConserve` | backend/scripts/evaluate_phase3_corpus.py:1262-1314 | skill precision and recall have equal numerators, and precision's misses are exactly the false positives of the other outcomes |
| `CorpusConservation.SplitsAddUp` | backend/scripts/evaluate_phase3_corpus.py:1388-1410 | every combined number is the dev number plus the holdout number |
| `CorpusConservation.EmployersAddUp` | backend/scripts/evaluate_phase3_corpus.py:1388-1410 | every combined number is the sum of the employers' numbers |
| `CorpusConservation.OrderFree` | backend/scripts/evaluate_phase3_corpus.py:1317-1381 | no number depends on the order of the records |
| `CorpusConservation.EvaluateCorpus` | backend/scripts/evaluate_phase3_corpus.py:1388-1410 | each of the evaluations returned counts exactly its own records |
| `CorpusReadings.GradedNumbersCount` | backend/scripts/evaluate_phase3_corpus.py:1103-1199 | correct, abstained, confidently wrong and provenance-right are numbers of records: those whose parser answered, whose label is supported and whose input was there, by whether the value said is the label's |
| `CorpusReadings.PerfectExactly` | backend/scripts/evaluate_phase3_corpus.py:1103-1199 | a component is all correct if and only if every value there to be found was said; then nothing is confidently wrong or abstained from |
| `CorpusReadings.WrongExactly` | backend/scripts/evaluate_phase3_corpus.py:1103-1199 | a component is confidently wrong at all if and only if some record returned a value other than its label where one was to be found |
| `CorpusReadings.NoFalsePositiveExactly` | backend/scripts/evaluate_phase3_corpus.py:1103-1199 | a false-positive number is zero if and only if nothing was said where the label has that outcome |
| `CorpusReadings.ProvenanceRightExactly` | backend/scripts/evaluate_phase3_corpus.py:1103-1199 | provenance is all right if and only if it agrees wherever a value there to be found was said |
| `CorpusReadings.LabelNumbersCount` | backend/scripts/evaluate_phase3_corpus.py:1103-1199 | opportunities are the records with that label, gaps the supported ones whose input was missing |
| `CorpusReadings.RuntimeNumbersCount` | backend/scripts/evaluate_phase3_corpus.py:1202-1259 | every parser is invoked once a record and failed as often as it raised |
| `CorpusReadings.FalsePositivesCount` | backend/scripts/evaluate_phase3_corpus.py:1103-1199 | a false positive of an outcome is a record with that label in which something was said |
| `CorpusReadings.SplitCounts` | backend/scripts/evaluate_phase3_corpus.py:1388-1410 | a number of one split counts exactly the records of that split |
| `CorpusReadings.EmployerCounts` | backend/scripts/evaluate_phase3_corpus.py:1388-1410 | a number of one employer counts exactly the records of that employer |
| `CorpusReadings.SkillFalsePositivesCount` | backend/scripts/evaluate_phase3_corpus.py:1262-1314 | in sets of ids: the skills false positives are the returned ids labelled with that outcome |
| `CorpusReadings.SkillNumbersCount` | backend/scripts/evaluate_phase3_corpus.py:1262-1314 | in sets of ids: recall runs over the ids labelled supported, precision over the returned ones, both hit by those that are both |
| `CorpusReadings.SkillsPerfectExactly` | backend/scripts/evaluate_phase3_corpus.py:1262-1314 | precision is perfect if and only if no returned id is not labelled supported, recall if and only if no supported one is left out |
| `FormEncoding.UnquoteQuote` | backend/app/normalization/url.py:185-191 | form-decoding what was form-encoded gives the text back, whatever malformed bytes are replaced by |
| `FormEncoding.QuotedAs` | backend/app/normalization/url.py:185-191 | a space is written as a plus, a safe character as itself, any other as the upper-case escapes of its UTF-8 bytes |
| `Urls.QueryRoundTrip` | backend/app/normalization/url.py:185-191 | parsing a serialized query gives its parameters back, order and blank values included |
| `Urls.SortedUnique` | backend/app/normalization/url.py:190 | sorting depends only on which parameters there are and how often |
| `Urls.KeepsExactly` | backend/app/normalization/url.py:76-80 | the canonical query holds each parameter that is no tracking parameter exactly as often as before, each tracking one never, in order of names and then values; tracking are the listed names and the utm_ ones, unless allowed |
| `Urls.OrderOfParametersIsIrrelevant` | backend/app/normalization/url.py:185-191 | reordering the parameters never changes the result |
| `Urls.TailReadsBack` | backend/app/normalization/url.py:175-193 | the written path and query are read back as the same path and query |
| `Urls.TailIsStable` | backend/app/normalization/url.py:175-193 | canonicalizing the path and query twice is doing it once |
| `Urls.NormalizeExactly` | backend/app/normalization/url.py:113-193 | which URLs are normalized, and to which scheme, host, port and path: http and https without credentials or whitespace, the scheme's own port dropped |
| `Urls.CanonicalPathIs` | backend/app/normalization/url.py:175-184 | a path loses its trailing slashes and is the root alone when nothing is left |
| `Urls.TailParts` | backend/app/normalization/url.py:175-193 | the path ends at the first question mark, the fragment begins at the first number sign and is dropped |
| `Urls.NormalizationIsIdempotent` | backend/app/normalization/url.py:113-193 | a normalized URL is its own normal form, given that the host step writes again what it reads back of its own output, brackets of an IPv6 literal removed |
| `Splitting.SplitJoin` | backend/scripts/greenhouse_html_convert.py:317-321 | splitting joined pieces that hold no separator gives the pieces back |
| `Splitting.JoinSplit` | backend/scripts/greenhouse_html_convert.py:317-321 | joining split text gives the text back |
| `HtmlText.CollapseBlankLines` | backend/scripts/greenhouse_html_convert.py:197-215 | the loop computes the collapsing function on every list of lines |
| `HtmlText.InkIsPreserved` | backend/scripts/greenhouse_html_convert.py:317-321 | every character but space, tab, CR and LF is kept, in order |
| `HtmlText.ResultIsTidy` | backend/scripts/greenhouse_html_convert.py:317-321 | the result is the join of its collapsed lines without a blank one at either end, and no step would change those lines again |
| `HtmlText.LinesAreKept` | backend/scripts/greenhouse_html_convert.py:189-215 | the result is, of the text's lines with every run of spaces and tabs collapsed, exactly those that are not blank and one empty line for every run of blank ones between them |
| `HtmlText.RunsAre` | backend/scripts/greenhouse_html_convert.py:189-195 | a whole run of spaces and tabs is one space |
| `HtmlText.EndingsAre` | backend/scripts/greenhouse_html_convert.py:317-321 | CR LF, CR and LF are each one line ending; no other character changes |
| `HtmlText.PostProcessIsIdempotent` | backend/scripts/greenhouse_html_convert.py:189-215 | processing a result again changes nothing |
| `HtmlText.NoTwoBlankLines` | backend/scripts/greenhouse_html_convert.py:197-215 | the result never has two adjacent blank lines, nor one at either end unless it is empty |
| `Taxonomy.Load` | backend/app/normalization/taxonomy.py:249-321 | accepts exactly when all normalized keys are non-blank and pairwise distinct, ids are distinct slugs, and every display name is reachable through its own entry; the index then agrees with a scan |
| `Taxonomy.AddKeys` | backend/app/normalization/taxonomy.py:291-311 | one entry is added whole, or refused exactly for a blank, repeated or taken key |
| `Taxonomy.ScanFinds` | backend/app/normalization/taxonomy.py:184-195 | a scan finds an entry exactly when some entry has the key |
| `Taxonomy.LookupIsScan` | backend/app/normalization/taxonomy.py:184-195 | lookup agrees with the scan; an entry is found by exactly its own keys, its display name among them |
| `Taxonomy.CanonicalIdsAreDeclared` | backend/app/normalization/taxonomy.py:197-201 | the canonical ids are exactly the declared ones |

## Left out

- SHA-256: an arbitrary function from bytes to 32-byte digests; where collisions matter the assumption is explicit.
- SQL, sessions and PostgreSQL itself: tables are maps, locks a set per transaction, a statement is one step, a commit or rollback another. Lock time-outs and server-side deadlock detection are not modelled.
- Row ids are fresh values chosen by the environment; time columns other than the sightings, clocks and durations are not modelled.
- Marking a parse error is one atomic step of the protocol, taken when no transaction holds that raw row; the database CHECK that refuses it for a linked row (backend/app/db/models/raw_job_ingestion.py:164-168) is part of the step.
- A posting carries the results of URL normalization and the hash of its raw payload; the normalizer is proved separately and not composed with it.
- Identifiers are lower-cased in ASCII only, which suffices for the slugs providers and sources are; surrogate code points, which have no UTF-8 form, do not exist in the model.
- Orchestrator.RunSavedSearch: runs on tables no other run is writing; concurrent postings are the interleaved protocol's subject.
- Orchestrator.RunSavedSearch: does not model loading the saved search, resolving and validating provider names, `providers_enforced_locally`, or the run's duration, because they precede or accompany the run without affecting its accounting.
- ProviderExecution.ExecuteProviderQuery: a result failing its own type's validator (backend/app/schemas/discovered_job.py:103-120) is treated as discovery raising, since such a result cannot be built.
- The database CHECKs that refuse, say, a negative retry count are covered by a transaction failing before its commit.
- Text processing in front of the classifiers: NFKC, case folding, hyphen compounds, sentence and segment splitting and tokenization; they take token sequences (the phrase catalogs are the source's own, tokenized), and whether a comma lies between two positions is a parameter.
- Corpus files: reading, shapes, hashes, and the atomic write; label keys are pairs of record and path instead of joined strings. The evaluator's mismatch list and the rendered report are left out; counters are values in maps, so aliasing between metric objects is not modelled, and whether an input was wired is given per case.
- CorpusMetrics.SplitEvaluation.EvaluateRecords: parser calls are given by what they returned or raised; the parsers are not run.
- Urls.NormalizationIsIdempotent: scheme, host and port come as parsed parts, and the host step (lower-casing, IDNA, IP literals) is any function that is stable on what is read back of its own results; Unicode lower-casing of parameter names and the replacement of malformed UTF-8 are parameters.
- HTML parsing, tag boundaries and the double-escape mode of the converter.
- Taxonomy.Load: takes entries already read from YAML with the right field types; Unicode normalization of keys is a parameter.
- MigrationChain.CheckChain: findings are values, not rendered and sorted messages.
- `experience.py`, `location.py`, `company.py`, `pipeline.py`, `query_planner.py` and the verification, canary and command-line scripts: regular expressions, library calls or process control, with little logic of their own around them.
- Log lines, error texts and the hooks that exist for the repository's own tests.
