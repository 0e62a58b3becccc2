/** Any number of posting transactions, interleaved statement by statement over the shared tables
    under READ COMMITTED visibility.  Locks are held until the transaction ends; writes become
    visible at commit. */
module Protocol {
  import opened Options
  import opened NaturalKeys
  import opened Ingestion

  type TxnId = nat

  datatype Lock =
    | RawLock(raw: RawId)
    | Advisory(number: int)
    | JobLock(job: JobId)
    | OccurrenceLock(occurrence: OccurrenceId)

  // Where a transaction stands, with what its earlier statements returned to it.
  datatype Phase =
    | Started
    | RawLocked
    | KeyLocked
    | Found(occurrence: OccurrenceId, job: JobId)
    | FoundJobLocked(occurrence: OccurrenceId, job: JobId, jobLastSeen: Time)
    | PendingTouch(occurrence: OccurrenceId, job: JobId, lastSeen: Time, jobLastSeen: Time, mismatch: bool)
    | Missed(wanted: Filter)
    | TierLocked(wanted: Filter)
    | Candidate(wanted: Filter, job: JobId)
    | CandidateLocked(wanted: Filter, job: JobId, jobLastSeen: Time)
    | ProbedMany(wanted: Filter, locked: Option<JobId>)
    | Resolved(filter: Option<Filter>, decision: Decision, jobLastSeen: Time, locked: Option<JobId>)
    | PendingNew(filter: Option<Filter>, decision: Decision, jobLastSeen: Time, locked: Option<JobId>,
                 newJob: JobId, newOccurrence: OccurrenceId)
    | Committed(outcome: Outcome)
    | Failed(error: Error)
    | RolledBack

  datatype Txn = Txn(call: Call, phase: Phase, held: set<Lock>)

  predicate Finished(txn: Txn) {
    txn.phase.Committed? || txn.phase.Failed? || txn.phase.RolledBack?
  }

  datatype State = State(db: Db, txns: map<TxnId, Txn>)

  const INITIAL := State(EMPTY_DB, map[])

  // One statement of one transaction, or one of the two single-statement raw-row transactions.
  // The rows a limit-2 query returns and the identifiers of new rows are chosen by the environment.
  datatype Action =
    | WriteFetched(raw: RawId, posting: Posting)
    | MarkParseError(raw: RawId)
    | Begin(t: TxnId, call: Call)
    | LockRaw(t: TxnId)
    | LockKey(t: TxnId)
    | ProbeKey(t: TxnId)
    | LockFoundJob(t: TxnId)
    | LockOccurrence(t: TxnId)
    | LockTier(t: TxnId)
    | Probe(t: TxnId, rows: seq<JobId>)
    | LockCandidate(t: TxnId)
    | Recheck(t: TxnId, rows: seq<JobId>)
    | Requery(t: TxnId)
    | Write(t: TxnId, newJob: JobId, newOccurrence: OccurrenceId)
    | Commit(t: TxnId)
    | Rollback(t: TxnId)

  // No other transaction holds the lock; a transaction never waits for itself.
  predicate Free(s: State, t: TxnId, lock: Lock) {
    forall u :: u in s.txns && u != t ==> lock !in s.txns[u].held
  }

  predicate FreshIds(s: State, t: TxnId, newJob: JobId, newOccurrence: OccurrenceId) {
    && newJob !in s.db.jobs && newOccurrence !in s.db.occurrences
    && forall u :: u in s.txns && u != t && s.txns[u].phase.PendingNew? ==>
         s.txns[u].phase.newJob != newJob && s.txns[u].phase.newOccurrence != newOccurrence
  }

  function Move(s: State, t: TxnId, phase: Phase, taken: set<Lock>): State
    requires t in s.txns
  {
    s.(txns := s.txns[t := Txn(s.txns[t].call, phase, s.txns[t].held + taken)])
  }

  // Every way of ending releases all locks.
  function End(s: State, t: TxnId, phase: Phase): State
    requires t in s.txns
  {
    s.(txns := s.txns[t := Txn(s.txns[t].call, phase, {})])
  }

  function Fail(s: State, t: TxnId, error: Error): State
    requires t in s.txns
  {
    End(s, t, Failed(error))
  }

  // ---------- The statements, one by one ----------

  // Lock the raw row and validate its association with the posting.
  predicate CanLockRaw(s: State, t: TxnId) {
    t in s.txns && s.txns[t].phase.Started? && Free(s, t, RawLock(s.txns[t].call.rawId))
  }

  function DoLockRaw(s: State, t: TxnId): State
    requires CanLockRaw(s, t)
  {
    var call := s.txns[t].call;
    if call.rawId !in s.db.raws then Fail(s, t, NoRawRow)
    else if !AssociationValid(s.db.raws[call.rawId], call) then Fail(s, t, InvalidAssociation)
    else Move(s, t, RawLocked, {RawLock(call.rawId)})
  }

  // Take the natural key's advisory lock.
  predicate CanLockKey(hash: HashFunction, s: State, t: TxnId) {
    && t in s.txns && s.txns[t].phase.RawLocked?
    && var number := NaturalLock(hash, s.txns[t].call.key);
       number.Some? ==> Free(s, t, Advisory(number.value))
  }

  function DoLockKey(hash: HashFunction, s: State, t: TxnId): State
    requires CanLockKey(hash, s, t)
  {
    var number := NaturalLock(hash, s.txns[t].call.key);
    if number.None? then Fail(s, t, EncodingOverflow) else Move(s, t, KeyLocked, {Advisory(number.value)})
  }

  // The unlocked probe for an existing occurrence; a miss goes on to the one tier that applies.
  predicate CanProbeKey(s: State, t: TxnId) {
    t in s.txns && s.txns[t].phase.KeyLocked?
  }

  function DoProbeKey(s: State, t: TxnId): State
    requires CanProbeKey(s, t)
  {
    var call := s.txns[t].call;
    var matching := Matching(s.db, call.key);
    var filter := TierFilter(call);
    if |matching| > 1 then Fail(s, t, MultipleOccurrences)
    else if |matching| == 1 then Move(s, t, Found(Only(matching), s.db.occurrences[Only(matching)].job), {})
    else if filter.Some? then Move(s, t, Missed(filter.value), {})
    else Move(s, t, Resolved(None, Insert, 0, None), {})
  }

  predicate CanLockFoundJob(s: State, t: TxnId) {
    t in s.txns && s.txns[t].phase.Found? && Free(s, t, JobLock(s.txns[t].phase.job))
  }

  function DoLockFoundJob(s: State, t: TxnId): State
    requires CanLockFoundJob(s, t)
  {
    var phase := s.txns[t].phase;
    if phase.job !in s.db.jobs then Fail(s, t, Unstable)
    else Move(s, t, FoundJobLocked(phase.occurrence, phase.job, s.db.jobs[phase.job].lastSeen), {JobLock(phase.job)})
  }

  // Load the occurrence under its own row lock, confirm the probe, and compute the updates.
  predicate CanLockOccurrence(s: State, t: TxnId) {
    && t in s.txns && s.txns[t].phase.FoundJobLocked?
    && forall o :: o in Matching(s.db, s.txns[t].call.key) ==> Free(s, t, OccurrenceLock(o))
  }

  function DoLockOccurrence(s: State, t: TxnId): State
    requires CanLockOccurrence(s, t)
  {
    var call, phase := s.txns[t].call, s.txns[t].phase;
    var matching := Matching(s.db, call.key);
    if |matching| > 1 then Fail(s, t, MultipleOccurrences)
    else if phase.occurrence !in matching || s.db.occurrences[phase.occurrence].job != phase.job then Fail(s, t, Unstable)
    else
      var row := s.db.occurrences[phase.occurrence];
      Move(s, t, PendingTouch(phase.occurrence, phase.job, Later(row.lastSeen, call.observedAt),
                              Later(phase.jobLastSeen, call.observedAt), IsMismatch(row, call)),
           {OccurrenceLock(phase.occurrence)})
  }

  predicate CanLockTier(hash: HashFunction, s: State, t: TxnId) {
    && t in s.txns && s.txns[t].phase.Missed?
    && var number := TierLock(hash, s.txns[t].phase.wanted);
       number.Some? ==> Free(s, t, Advisory(number.value))
  }

  function DoLockTier(hash: HashFunction, s: State, t: TxnId): State
    requires CanLockTier(hash, s, t)
  {
    var wanted := s.txns[t].phase.wanted;
    var number := TierLock(hash, wanted);
    if number.None? then Fail(s, t, EncodingOverflow) else Move(s, t, TierLocked(wanted), {Advisory(number.value)})
  }

  // The limit-2 probe for candidate jobs.
  predicate CanProbe(s: State, t: TxnId, rows: seq<JobId>) {
    t in s.txns && s.txns[t].phase.TierLocked? && LimitTwo(rows, Candidates(s.db, s.txns[t].phase.wanted))
  }

  function DoProbe(s: State, t: TxnId, rows: seq<JobId>): State
    requires CanProbe(s, t, rows)
  {
    var wanted := s.txns[t].phase.wanted;
    if |rows| == 0 then Move(s, t, Resolved(Some(wanted), Insert, 0, None), {})
    else if |rows| > 1 then Move(s, t, ProbedMany(wanted, None), {})
    else Move(s, t, Candidate(wanted, rows[0]), {})
  }

  predicate CanLockCandidate(s: State, t: TxnId) {
    t in s.txns && s.txns[t].phase.Candidate? && Free(s, t, JobLock(s.txns[t].phase.job))
  }

  function DoLockCandidate(s: State, t: TxnId): State
    requires CanLockCandidate(s, t)
  {
    var phase := s.txns[t].phase;
    if phase.job !in s.db.jobs then Fail(s, t, Unstable)
    else Move(s, t, CandidateLocked(phase.wanted, phase.job, s.db.jobs[phase.job].lastSeen), {JobLock(phase.job)})
  }

  // The same limit-2 probe again, under the candidate's row lock.
  predicate CanRecheck(s: State, t: TxnId, rows: seq<JobId>) {
    t in s.txns && s.txns[t].phase.CandidateLocked? && LimitTwo(rows, Candidates(s.db, s.txns[t].phase.wanted))
  }

  function DoRecheck(s: State, t: TxnId, rows: seq<JobId>): State
    requires CanRecheck(s, t, rows)
  {
    var phase := s.txns[t].phase;
    if |rows| > 1 then Move(s, t, ProbedMany(phase.wanted, Some(phase.job)), {})
    else if rows != [phase.job] then Fail(s, t, Unstable)
    else Move(s, t, Resolved(Some(phase.wanted), AttachTo(phase.job), phase.jobLastSeen, Some(phase.job)), {})
  }

  // The authoritative, unbounded candidate query after a probe that saw two.
  predicate CanRequery(s: State, t: TxnId) {
    t in s.txns && s.txns[t].phase.ProbedMany?
  }

  function DoRequery(s: State, t: TxnId): State
    requires CanRequery(s, t)
  {
    var phase := s.txns[t].phase;
    var all := SortedIds(Candidates(s.db, phase.wanted));
    if |all| < 2 then Fail(s, t, Unstable)
    else Move(s, t, Resolved(Some(phase.wanted), Ambiguous(all), 0, phase.locked), {})
  }

  // Flush the new rows, still invisible to everyone else.
  predicate CanWriteRows(s: State, t: TxnId, newJob: JobId, newOccurrence: OccurrenceId) {
    t in s.txns && s.txns[t].phase.Resolved? && FreshIds(s, t, newJob, newOccurrence)
  }

  function DoWrite(s: State, t: TxnId, newJob: JobId, newOccurrence: OccurrenceId): State
    requires CanWriteRows(s, t, newJob, newOccurrence)
  {
    var phase := s.txns[t].phase;
    Move(s, t, PendingNew(phase.filter, phase.decision, phase.jobLastSeen, phase.locked, newJob, newOccurrence), {})
  }

  // The rows a pending write updates still exist.
  predicate CanWrite(db: Db, txn: Txn) {
    && txn.call.rawId in db.raws
    && match txn.phase
       case PendingTouch(o, _, _, _, _) => o in db.occurrences && db.occurrences[o].job in db.jobs
       case PendingNew(_, decision, _, _, _, _) => decision.AttachTo? ==> decision.job in db.jobs
       case _ => false
  }

  function CommittedDb(db: Db, txn: Txn): Db
    requires CanWrite(db, txn)
  {
    match txn.phase
    case PendingTouch(o, _, lastSeen, jobLastSeen, mismatch) => WriteTouch(db, txn.call, o, lastSeen, jobLastSeen, mismatch)
    case PendingNew(_, decision, jobLastSeen, _, newJob, newOccurrence) =>
      WriteNew(db, txn.call, decision, jobLastSeen, newJob, newOccurrence)
  }

  function PendingOutcome(db: Db, txn: Txn): Outcome
    requires CanWrite(db, txn)
  {
    match txn.phase
    case PendingTouch(o, _, _, _, mismatch) => TouchOutcome(db.occurrences[o], o, mismatch)
    case PendingNew(_, decision, _, _, newJob, newOccurrence) => NewOutcome(decision, newJob, newOccurrence)
  }

  predicate CanCommit(s: State, t: TxnId) {
    t in s.txns && CanWrite(s.db, s.txns[t])
  }

  function DoCommit(s: State, t: TxnId): State
    requires CanCommit(s, t)
  {
    var txn := s.txns[t];
    State(CommittedDb(s.db, txn), s.txns[t := Txn(txn.call, Committed(PendingOutcome(s.db, txn)), {})])
  }

  predicate CanMarkParseError(s: State, raw: RawId) {
    raw in s.db.raws && forall u :: u in s.txns ==> RawLock(raw) !in s.txns[u].held
  }

  // ---------- Steps ----------

  predicate Enabled(hash: HashFunction, s: State, a: Action) {
    match a
    case WriteFetched(raw, _) => raw !in s.db.raws
    case MarkParseError(raw) => CanMarkParseError(s, raw)
    case Begin(t, _) => t !in s.txns
    case LockRaw(t) => CanLockRaw(s, t)
    case LockKey(t) => CanLockKey(hash, s, t)
    case ProbeKey(t) => CanProbeKey(s, t)
    case LockFoundJob(t) => CanLockFoundJob(s, t)
    case LockOccurrence(t) => CanLockOccurrence(s, t)
    case LockTier(t) => CanLockTier(hash, s, t)
    case Probe(t, rows) => CanProbe(s, t, rows)
    case LockCandidate(t) => CanLockCandidate(s, t)
    case Recheck(t, rows) => CanRecheck(s, t, rows)
    case Requery(t) => CanRequery(s, t)
    case Write(t, newJob, newOccurrence) => CanWriteRows(s, t, newJob, newOccurrence)
    case Commit(t) => CanCommit(s, t)
    case Rollback(t) => t in s.txns && !Finished(s.txns[t])
  }

  function Next(hash: HashFunction, s: State, a: Action): State
    requires Enabled(hash, s, a)
  {
    match a
    case WriteFetched(raw, posting) => s.(db := s.db.(raws := s.db.raws[raw := FetchedRow(posting)]))
    case MarkParseError(raw) => s.(db := MarkedParseError(s.db, raw))
    case Begin(t, call) => s.(txns := s.txns[t := Txn(call, Started, {})])
    case LockRaw(t) => DoLockRaw(s, t)
    case LockKey(t) => DoLockKey(hash, s, t)
    case ProbeKey(t) => DoProbeKey(s, t)
    case LockFoundJob(t) => DoLockFoundJob(s, t)
    case LockOccurrence(t) => DoLockOccurrence(s, t)
    case LockTier(t) => DoLockTier(hash, s, t)
    case Probe(t, rows) => DoProbe(s, t, rows)
    case LockCandidate(t) => DoLockCandidate(s, t)
    case Recheck(t, rows) => DoRecheck(s, t, rows)
    case Requery(t) => DoRequery(s, t)
    case Write(t, newJob, newOccurrence) => DoWrite(s, t, newJob, newOccurrence)
    case Commit(t) => DoCommit(s, t)
    case Rollback(t) => End(s, t, RolledBack)
  }

  // ---------- Executions ----------

  ghost predicate Execution(hash: HashFunction, states: seq<State>, actions: seq<Action>) {
    && |states| == |actions| + 1
    && states[0] == INITIAL
    && forall i :: 0 <= i < |actions| ==>
         Enabled(hash, states[i], actions[i]) && states[i + 1] == Next(hash, states[i], actions[i])
  }

  // ---------- Invariant ----------

  function Numbered(number: Option<int>): set<Lock> {
    if number.Some? then {Advisory(number.value)} else {}
  }

  function Row(job: Option<JobId>): set<Lock> {
    if job.Some? then {JobLock(job.value)} else {}
  }

  // The locks each phase holds: always taken in the order raw row, natural key, tier, job,
  // occurrence, with at most one of each.
  function ExpectedLocks(hash: HashFunction, call: Call, phase: Phase): set<Lock> {
    var raw := {RawLock(call.rawId)};
    var key := raw + Numbered(NaturalLock(hash, call.key));
    match phase
    case Started => {}
    case RawLocked => raw
    case KeyLocked => key
    case Found(_, _) => key
    case FoundJobLocked(_, job, _) => key + {JobLock(job)}
    case PendingTouch(o, job, _, _, _) => key + {JobLock(job)} + {OccurrenceLock(o)}
    case Missed(_) => key
    case TierLocked(filter) => key + Numbered(TierLock(hash, filter))
    case Candidate(filter, _) => key + Numbered(TierLock(hash, filter))
    case CandidateLocked(filter, job, _) => key + Numbered(TierLock(hash, filter)) + {JobLock(job)}
    case ProbedMany(filter, locked) => key + Numbered(TierLock(hash, filter)) + Row(locked)
    case Resolved(filter, _, _, locked) => key + TierOf(hash, filter) + Row(locked)
    case PendingNew(filter, _, _, locked, _, _) => key + TierOf(hash, filter) + Row(locked)
    case _ => {}
  }

  function TierOf(hash: HashFunction, filter: Option<Filter>): set<Lock> {
    if filter.Some? then Numbered(TierLock(hash, filter.value)) else {}
  }

  predicate RawReady(db: Db, call: Call) {
    call.rawId in db.raws && AssociationValid(db.raws[call.rawId], call)
  }

  predicate Unmatched(db: Db, key: NaturalKey) {
    forall o :: o in db.occurrences ==> !Matches(key, db.occurrences[o])
  }

  predicate FoundAt(db: Db, call: Call, o: OccurrenceId, job: JobId) {
    o in db.occurrences && Matches(call.key, db.occurrences[o]) && db.occurrences[o].job == job && job in db.jobs
  }

  // The candidates the last query saw when it led to this decision.
  function Seen(decision: Decision): set<JobId> {
    match decision
    case Insert => {}
    case AttachTo(job) => {job}
    case Ambiguous(candidates) => set j | j in candidates
  }

  predicate Missing(hash: HashFunction, db: Db, call: Call, filter: Filter) {
    Unmatched(db, call.key) && TierFilter(call) == Some(filter) && TierLock(hash, filter).Some?
  }

  // The decision is the specification's on the candidates last seen.  Under a canonical-URL lock
  // these are the current ones; under a tenant-requisition lock the set may have grown since.
  ghost predicate Decided(hash: HashFunction, db: Db, call: Call, filter: Option<Filter>, decision: Decision,
                          jobLastSeen: Time, locked: Option<JobId>) {
    && Unmatched(db, call.key) && TierFilter(call) == filter
    && (filter.Some? ==> TierLock(hash, filter.value).Some?)
    && decision == Decide(Seen(decision))
    && Seen(decision) <= FilterCandidates(db, filter)
    && (Serialized(filter) ==> Seen(decision) == FilterCandidates(db, filter))
    && (decision.AttachTo? ==>
          locked == Some(decision.job) && decision.job in db.jobs && db.jobs[decision.job].lastSeen == jobLastSeen)
  }

  predicate Serialized(filter: Option<Filter>) {
    filter.None? || filter.value.CanonicalUrl?
  }

  ghost predicate PhaseInv(hash: HashFunction, db: Db, call: Call, phase: Phase) {
    if phase.Started? || phase.Committed? || phase.RolledBack? then true
    else if phase.Failed? then phase.error != Unstable && phase.error != MultipleOccurrences
    else
      && RawReady(db, call)
      && (phase.RawLocked? || NaturalLock(hash, call.key).Some?)
      && match phase
         case Found(o, job) => FoundAt(db, call, o, job)
         case FoundJobLocked(o, job, jobLastSeen) => FoundAt(db, call, o, job) && db.jobs[job].lastSeen == jobLastSeen
         case PendingTouch(o, job, lastSeen, jobLastSeen, mismatch) =>
           && FoundAt(db, call, o, job)
           && lastSeen == Later(db.occurrences[o].lastSeen, call.observedAt)
           && jobLastSeen == Later(db.jobs[job].lastSeen, call.observedAt)
           && mismatch == IsMismatch(db.occurrences[o], call)
         case Missed(filter) => Unmatched(db, call.key) && TierFilter(call) == Some(filter)
         case TierLocked(filter) => Missing(hash, db, call, filter)
         case Candidate(filter, job) => Missing(hash, db, call, filter) && job in Candidates(db, filter) && job in db.jobs
         case CandidateLocked(filter, job, jobLastSeen) =>
           && Missing(hash, db, call, filter) && job in Candidates(db, filter)
           && job in db.jobs && db.jobs[job].lastSeen == jobLastSeen
         case ProbedMany(filter, _) => Missing(hash, db, call, filter) && |Candidates(db, filter)| >= 2
         case Resolved(filter, decision, jobLastSeen, locked) => Decided(hash, db, call, filter, decision, jobLastSeen, locked)
         case PendingNew(filter, decision, jobLastSeen, locked, _, _) =>
           Decided(hash, db, call, filter, decision, jobLastSeen, locked)
         case _ => true
  }

  ghost predicate TxnInv(hash: HashFunction, db: Db, txn: Txn) {
    txn.held == ExpectedLocks(hash, txn.call, txn.phase) && PhaseInv(hash, db, txn.call, txn.phase)
  }

  ghost predicate LocksExclusive(s: State) {
    forall t, u :: t in s.txns && u in s.txns && t != u ==> s.txns[t].held !! s.txns[u].held
  }

  ghost predicate PendingFresh(s: State) {
    forall t :: t in s.txns && s.txns[t].phase.PendingNew? ==>
      FreshIds(s, t, s.txns[t].phase.newJob, s.txns[t].phase.newOccurrence)
  }

  predicate CommittedTo(s: State, t: TxnId, o: OccurrenceId) {
    t in s.txns && s.txns[t].phase.Committed? && s.txns[t].phase.outcome.occurrence == o
  }

  predicate Creates(kind: UpsertKind) {
    kind == INSERTED || kind == ATTACHED || kind == AMBIGUOUS
  }

  // The evidence an outcome leaves behind: a quarantine's two really different URLs, an ambiguity's
  // list of other jobs, and in every other case no disagreement at all.
  ghost predicate Evidenced(db: Db, call: Call, outcome: Outcome)
    requires outcome.occurrence in db.occurrences && outcome.Valid()
  {
    var row := db.occurrences[outcome.occurrence];
    match outcome.kind
    case QUARANTINED =>
      IsMismatch(row, call)
      && Conflict(call.rawId, EvidenceMismatch(outcome.occurrence, row.canonicalUrl, call.posting.canonicalUrl)) in db.conflicts
    case UPDATED => !IsMismatch(row, call)
    case AMBIGUOUS =>
      row.canonicalUrl == call.posting.canonicalUrl
      && Conflict(call.rawId, AmbiguousMatch(outcome.candidates.value, outcome.occurrence)) in db.conflicts
      && forall j :: j in outcome.candidates.value ==> j in db.jobs && j != outcome.job
    case _ => row.canonicalUrl == call.posting.canonicalUrl
  }

  // What each committed transaction left behind for good.
  ghost predicate CommitRecorded(db: Db, call: Call, outcome: Outcome) {
    && outcome.Valid()
    && (call.posting.canonicalUrl.Some? ==> outcome.kind != AMBIGUOUS)
    && call.key.WellFormed()
    && outcome.occurrence in db.occurrences
    && db.occurrences[outcome.occurrence].job == outcome.job
    && Matches(call.key, db.occurrences[outcome.occurrence])
    && call.observedAt <= db.occurrences[outcome.occurrence].lastSeen
    && db.occurrences[outcome.occurrence].active
    && Evidenced(db, call, outcome)
    && call.rawId in db.raws
    && db.raws[call.rawId].occurrence == Some(outcome.occurrence)
    && db.raws[call.rawId].status ==
         (if outcome.kind == QUARANTINED || outcome.kind == AMBIGUOUS then IdentityConflict else Normalized)
  }

  ghost predicate HistoryInv(s: State) {
    && (forall t :: t in s.txns && s.txns[t].phase.Committed? ==>
          CommitRecorded(s.db, s.txns[t].call, s.txns[t].phase.outcome))
    && (forall t, u :: t in s.txns && u in s.txns && t != u && s.txns[t].phase.Committed? && s.txns[u].phase.Committed?
          ==> s.txns[t].call.rawId != s.txns[u].call.rawId)
    && (forall o :: o in s.db.occurrences ==>
          exists t :: CommittedTo(s, t, o) && s.txns[t].call.observedAt == s.db.occurrences[o].lastSeen)
    && (forall o :: o in s.db.occurrences ==>
          exists t :: CommittedTo(s, t, o) && s.txns[t].call.observedAt == s.db.occurrences[o].firstSeen
                      && Creates(s.txns[t].phase.outcome.kind))
  }

  ghost predicate Inv(hash: HashFunction, s: State) {
    && ValidDb(s.db)
    && LocksExclusive(s)
    && (forall t :: t in s.txns ==> TxnInv(hash, s.db, s.txns[t]))
    && PendingFresh(s)
    && HistoryInv(s)
  }
}
