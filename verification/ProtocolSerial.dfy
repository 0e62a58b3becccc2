/** Serializability: each commit does what `Persist` would do at that very moment to the tables as
    they then are, exactly when the candidates its decision was taken on are still all there are. */
module ProtocolSerial {
  import opened Options
  import opened NaturalKeys
  import opened Ingestion
  import opened TableWrites
  import opened Protocol
  import opened ProtocolInvariant
  import opened ProtocolCommit
  import opened ProtocolTheorems

  // The identifiers a pending transaction has chosen for new rows.
  function NewJobOf(phase: Phase): JobId {
    if phase.PendingNew? then phase.newJob else 0
  }

  function NewOccurrenceOf(phase: Phase): OccurrenceId {
    if phase.PendingNew? then phase.newOccurrence else 0
  }

  // Running the whole call alone, on these tables, instead of committing the pending writes.
  function Alone(hash: HashFunction, db: Db, txn: Txn): Result<(Db, Outcome)> {
    Persist(hash, db, txn.call, NewJobOf(txn.phase), NewOccurrenceOf(txn.phase))
  }

  // Whether the candidates the decision was taken on are still all there are.
  predicate UpToDate(db: Db, phase: Phase) {
    phase.PendingNew? ==> Seen(phase.decision) == FilterCandidates(db, phase.filter)
  }

  lemma TouchIsPersist(hash: HashFunction, db: Db, txn: Txn)
    requires ValidDb(db) && CanWrite(db, txn) && txn.phase.PendingTouch? && PhaseInv(hash, db, txn.call, txn.phase)
    ensures Alone(hash, db, txn) == Ok((CommittedDb(db, txn), PendingOutcome(db, txn)))
  {
    hide Matches, NaturalLock, AssociationValid, IsMismatch, StoredForm, ValidJobs, ValidRaws, OneJobPerCanonicalUrl,
      WriteTouch, UniqueNaturalKeys;
    WellFormedKey(hash, txn.call.key);
    MatchingAtMostOne(db, txn.call.key);
    assert txn.phase.occurrence in Matching(db, txn.call.key);
    assert Only(Matching(db, txn.call.key)) == txn.phase.occurrence;
  }

  lemma NewIsPersist(hash: HashFunction, db: Db, txn: Txn)
    requires CanWrite(db, txn) && txn.phase.PendingNew? && PhaseInv(hash, db, txn.call, txn.phase)
    ensures var decision := Decide(FilterCandidates(db, txn.phase.filter));
            (decision.AttachTo? ==> decision.job in db.jobs) ==>
               Alone(hash, db, txn) == Ok((
                 WriteNew(db, txn.call, decision, if decision.AttachTo? then db.jobs[decision.job].lastSeen else 0,
                          txn.phase.newJob, txn.phase.newOccurrence),
                 NewOutcome(decision, txn.phase.newJob, txn.phase.newOccurrence)))
  {
    hide Matches, NaturalLock, TierLock, TierFilter, AssociationValid, WriteNew, Decide, FilterCandidates, Unmatched, Seen;
    MatchingIsUnmatched(db, txn.call.key);
  }

  // Different decisions leave different outcomes.
  lemma OutcomeShowsDecision(a: Decision, b: Decision, newJob: JobId, newOccurrence: OccurrenceId)
    requires NewOutcome(a, newJob, newOccurrence) == NewOutcome(b, newJob, newOccurrence)
    ensures a == b
  {
  }

  /** A commit equals running the call alone at that moment if and only if the candidates its decision
      was taken on are still all there are. */
  lemma CommitIsSerialExactly(hash: HashFunction, s: State, t: TxnId)
    requires Inv(hash, s) && CanCommit(s, t)
    ensures Alone(hash, s.db, s.txns[t]) == Ok((DoCommit(s, t).db, DoCommit(s, t).txns[t].phase.outcome))
       <==> UpToDate(s.db, s.txns[t].phase)
  {
    hide ValidDb, Alone, CommittedDb, PendingOutcome, HistoryInv, PendingFresh, Decide, FilterCandidates, CanWrite, PhaseInv;
    var txn := s.txns[t];
    assert CanWrite(s.db, txn) && TxnInv(hash, s.db, txn);
    if txn.phase.PendingNew? {
      NewSerialExactly(hash, s.db, txn);
    } else {
      CanWriteIsPending(s.db, txn);
      TouchIsPersist(hash, s.db, txn);
    }
  }

  lemma CanWriteIsPending(db: Db, txn: Txn)
    requires CanWrite(db, txn)
    ensures txn.phase.PendingTouch? || txn.phase.PendingNew?
  {
  }

  lemma NewSerialExactly(hash: HashFunction, db: Db, txn: Txn)
    requires CanWrite(db, txn) && txn.phase.PendingNew? && PhaseInv(hash, db, txn.call, txn.phase)
    ensures Alone(hash, db, txn) == Ok((CommittedDb(db, txn), PendingOutcome(db, txn))) <==> UpToDate(db, txn.phase)
  {
    hide Alone, FilterCandidates, Decide, NaturalLock, TierLock, TierFilter, AssociationValid, WriteNew, Unmatched, Seen;
    var phase := txn.phase;
    NewIsPersist(hash, db, txn);
    DecideInjective(Seen(phase.decision), FilterCandidates(db, phase.filter));
    if phase.decision == Decide(FilterCandidates(db, phase.filter)) {
      WriteNewIgnoresUnusedSighting(db, txn.call, phase.decision, phase.jobLastSeen, phase.newJob, phase.newOccurrence);
    } else if Alone(hash, db, txn) == Ok((CommittedDb(db, txn), PendingOutcome(db, txn))) {
      AloneDecides(hash, db, txn);
      OutcomeShowsDecision(phase.decision, Decide(FilterCandidates(db, phase.filter)), phase.newJob, phase.newOccurrence);
    }
  }

  lemma AloneDecides(hash: HashFunction, db: Db, txn: Txn)
    requires CanWrite(db, txn) && txn.phase.PendingNew? && PhaseInv(hash, db, txn.call, txn.phase)
    requires Alone(hash, db, txn).Ok?
    ensures Alone(hash, db, txn).value.1
         == NewOutcome(Decide(FilterCandidates(db, txn.phase.filter)), txn.phase.newJob, txn.phase.newOccurrence)
  {
    hide Matches, NaturalLock, TierLock, TierFilter, AssociationValid, WriteNew, Decide, FilterCandidates, Unmatched, Seen;
    MatchingIsUnmatched(db, txn.call.key);
  }

  /** Every posting decided by its natural key or its canonical URL, or by no tier at all,
      commits serially in every state of every execution. */
  lemma SerializedCommitsAreSerial(hash: HashFunction, states: seq<State>, actions: seq<Action>, i: nat, t: TxnId)
    requires Execution(hash, states, actions) && i < |actions| && actions[i] == Commit(t)
    requires states[i].txns[t].phase.PendingNew? ==> Serialized(states[i].txns[t].phase.filter)
    ensures Alone(hash, states[i].db, states[i].txns[t]) == Ok((states[i + 1].db, states[i + 1].txns[t].phase.outcome))
  {
    hide Inv, Alone, CanCommit;
    ReachableInv(hash, states, actions, i);
    CommitIsEnabled(hash, states[i], t);
    CommitIsSerialExactly(hash, states[i], t);
    SerializedIsUpToDate(hash, states[i], t);
  }

  lemma SerializedIsUpToDate(hash: HashFunction, s: State, t: TxnId)
    requires Inv(hash, s) && t in s.txns && (s.txns[t].phase.PendingNew? ==> Serialized(s.txns[t].phase.filter))
    ensures UpToDate(s.db, s.txns[t].phase)
  {
    hide ValidDb, HistoryInv, PendingFresh, FilterCandidates, Decide, Seen, RawReady, NaturalLock, TierLock, Unmatched;
    assert TxnInv(hash, s.db, s.txns[t]);
  }

  // ---------- Whole executions ----------

  // One step from the tables `db`, with a commit replaced by one whole call run alone.
  function SerialStep(hash: HashFunction, s: State, a: Action, db: Db): Db {
    match a
    case WriteFetched(raw, posting) => db.(raws := db.raws[raw := FetchedRow(posting)])
    case MarkParseError(raw) => if raw in db.raws then MarkedParseError(db, raw) else db
    case Commit(t) =>
      if t in s.txns && Alone(hash, db, s.txns[t]).Ok? then Alone(hash, db, s.txns[t]).value.0 else db
    case _ => db
  }

  // The first `n` steps with every transaction collapsed into one atomic call at its commit.
  function SerialDb(hash: HashFunction, states: seq<State>, actions: seq<Action>, n: nat): Db
    requires |states| == |actions| + 1 && n <= |actions|
  {
    if n == 0 then EMPTY_DB else SerialStep(hash, states[n - 1], actions[n - 1], SerialDb(hash, states, actions, n - 1))
  }

  predicate FindsUpToDate(s: State, a: Action) {
    a.Commit? && a.t in s.txns ==> UpToDate(s.db, s.txns[a.t].phase)
  }

  // Every commit among the first `n` steps found its candidates unchanged.
  ghost predicate CommitsUpToDate(states: seq<State>, actions: seq<Action>, n: nat)
    requires |states| == |actions| + 1 && n <= |actions|
  {
    forall i :: 0 <= i < n ==> FindsUpToDate(states[i], actions[i])
  }

  lemma StepIsSerial(hash: HashFunction, s: State, a: Action)
    requires Inv(hash, s) && Enabled(hash, s, a) && FindsUpToDate(s, a)
    ensures SerialStep(hash, s, a, s.db) == Next(hash, s, a).db
  {
    hide Inv, Alone, CanLockRaw, CanLockKey, CanProbeKey, CanLockFoundJob, CanLockOccurrence, CanLockTier, CanProbe,
      CanLockCandidate, CanRecheck, CanRequery, CanWriteRows, CanCommit, FetchedRow, MarkedParseError, UpToDate;
    if a.Commit? {
      CommitIsEnabled(hash, s, a.t);
      CommitIsSerialExactly(hash, s, a.t);
    }
  }

  /** The interleaved execution and the serial one reach the same tables, commit for commit. */
  lemma {:induction false} ExecutionIsSerial(hash: HashFunction, states: seq<State>, actions: seq<Action>, n: nat)
    requires Execution(hash, states, actions) && n <= |actions| && CommitsUpToDate(states, actions, n)
    ensures SerialDb(hash, states, actions, n) == states[n].db
  {
    hide Inv, SerialStep, Enabled, Next, FindsUpToDate;
    if n > 0 {
      ExecutionIsSerial(hash, states, actions, n - 1);
      ReachableInv(hash, states, actions, n - 1);
      StepIsSerial(hash, states[n - 1], actions[n - 1]);
    }
  }

  lemma CommitIsEnabled(hash: HashFunction, s: State, t: TxnId)
    requires Enabled(hash, s, Commit(t))
    ensures CanCommit(s, t) && t in s.txns
  {
  }
}
