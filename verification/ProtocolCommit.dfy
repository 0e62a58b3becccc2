/** The commit step: its writes become visible to every other transaction at once, and what each of
    them has already learned from the tables stays true. */
module ProtocolCommit {
  import opened Options
  import opened NaturalKeys
  import opened Ingestion
  import opened TableWrites
  import opened Protocol
  import opened ProtocolInvariant

  // ---------- What a found-branch commit leaves alone ----------

  lemma TouchKeepsQueries(db: Db, call: Call, o: OccurrenceId, lastSeen: Time, jobLastSeen: Time, mismatch: bool,
                          key: NaturalKey, filter: Filter)
    requires o in db.occurrences && db.occurrences[o].job in db.jobs && call.rawId in db.raws
    ensures var db' := WriteTouch(db, call, o, lastSeen, jobLastSeen, mismatch);
            && (Unmatched(db, key) ==> Unmatched(db', key))
            && Candidates(db', filter) == Candidates(db, filter)
  {
    hide Matches, FilterMatches;
    var db' := WriteTouch(db, call, o, lastSeen, jobLastSeen, mismatch);
    forall p | p in db'.occurrences
      ensures Matches(key, db'.occurrences[p]) <==> Matches(key, db.occurrences[p])
      ensures FilterMatches(filter, db'.occurrences[p]) <==> FilterMatches(filter, db.occurrences[p])
    {
      EvidenceDecides(key, filter, call, db.occurrences[p], db'.occurrences[p]);
    }
    forall j | j in Candidates(db, filter) ensures j in Candidates(db', filter) {
      var p :| p in db.occurrences && FilterMatches(filter, db.occurrences[p]) && db.occurrences[p].job == j;
      assert p in db'.occurrences && FilterMatches(filter, db'.occurrences[p]) && db'.occurrences[p].job == j;
    }
    forall j | j in Candidates(db', filter) ensures j in Candidates(db, filter) {
      var p :| p in db'.occurrences && FilterMatches(filter, db'.occurrences[p]) && db'.occurrences[p].job == j;
      assert p in db.occurrences && FilterMatches(filter, db.occurrences[p]) && db.occurrences[p].job == j;
    }
  }

  lemma QueriesSurviveTouch(db: Db, txn: Txn, key: NaturalKey)
    requires CanWrite(db, txn) && txn.phase.PendingTouch?
    ensures Unmatched(db, key) ==> Unmatched(CommittedDb(db, txn), key)
    ensures forall filter :: Candidates(CommittedDb(db, txn), filter) == Candidates(db, filter)
  {
    hide Unmatched, Candidates;
    var p := txn.phase;
    TouchKeepsQueries(db, txn.call, p.occurrence, p.lastSeen, p.jobLastSeen, p.mismatch, key, CanonicalUrl(""));
    forall filter
      ensures Candidates(CommittedDb(db, txn), filter) == Candidates(db, filter)
    {
      TouchKeepsQueries(db, txn.call, p.occurrence, p.lastSeen, p.jobLastSeen, p.mismatch, key, filter);
    }
  }

  lemma RawSurvivesTouch(hash: HashFunction, db: Db, txn: Txn, other: Txn)
    requires CanWrite(db, txn) && txn.phase.PendingTouch? && PhaseInv(hash, db, other.call, other.phase)
    requires ExpectedLocks(hash, other.call, other.phase) !! ExpectedLocks(hash, txn.call, txn.phase)
    requires !Finished(other) && !other.phase.Started?
    ensures RawReady(CommittedDb(db, txn), other.call)
  {
    hide NaturalLock, TierLock, Matches, Decided, AssociationValid, Missing, FoundAt;
    assert RawLock(other.call.rawId) in ExpectedLocks(hash, other.call, other.phase);
    assert RawLock(txn.call.rawId) in ExpectedLocks(hash, txn.call, txn.phase);
  }

  lemma PhaseSurvivesTouch(hash: HashFunction, db: Db, txn: Txn, other: Txn)
    requires CanWrite(db, txn) && txn.phase.PendingTouch? && PhaseInv(hash, db, txn.call, txn.phase)
    requires PhaseInv(hash, db, other.call, other.phase)
    requires ExpectedLocks(hash, other.call, other.phase) !! ExpectedLocks(hash, txn.call, txn.phase)
    ensures PhaseInv(hash, CommittedDb(db, txn), other.call, other.phase)
  {
    hide CommittedDb, FoundAt, RawReady, IsMismatch, NaturalLock, TierLock, TierFilter, Candidates, Unmatched, Decide, Seen;
    if !Finished(other) && !other.phase.Started? {
      RawSurvivesTouch(hash, db, txn, other);
      QueriesSurviveTouch(db, txn, other.call.key);
      TouchKeepsRows(hash, db, txn, other);
      assert forall o, job :: FoundAt(db, other.call, o, job) ==> o in db.occurrences && job in db.jobs by {
        FoundAreRows(db, other.call);
      }
    }
  }

  lemma FoundAreRows(db: Db, call: Call)
    ensures forall o, job :: FoundAt(db, call, o, job) ==> o in db.occurrences && job in db.jobs
  {
    hide Matches;
  }

  // The rows another transaction has found or locked keep the values it has read.
  lemma TouchKeepsRows(hash: HashFunction, db: Db, txn: Txn, other: Txn)
    requires CanWrite(db, txn) && txn.phase.PendingTouch? && PhaseInv(hash, db, txn.call, txn.phase)
    requires ExpectedLocks(hash, other.call, other.phase) !! ExpectedLocks(hash, txn.call, txn.phase)
    ensures var db' := CommittedDb(db, txn);
            && (forall job :: JobLock(job) in ExpectedLocks(hash, other.call, other.phase) && job in db.jobs ==>
                  job in db'.jobs && db'.jobs[job] == db.jobs[job])
            && (forall job :: job in db.jobs ==> job in db'.jobs)
            && (forall o, job :: FoundAt(db, other.call, o, job) ==> FoundAt(db', other.call, o, job))
            && (forall o :: OccurrenceLock(o) in ExpectedLocks(hash, other.call, other.phase) && o in db.occurrences ==>
                  o in db'.occurrences && db'.occurrences[o] == db.occurrences[o])
  {
    hide Matches, IsMismatch, NaturalLock, TierLock;
    var db' := CommittedDb(db, txn);
    assert JobLock(txn.phase.job) in ExpectedLocks(hash, txn.call, txn.phase);
    assert OccurrenceLock(txn.phase.occurrence) in ExpectedLocks(hash, txn.call, txn.phase);
    forall o, job | FoundAt(db, other.call, o, job)
      ensures FoundAt(db', other.call, o, job)
    {
      EvidenceDecides(other.call.key, CanonicalUrl(""), other.call, db.occurrences[o], db'.occurrences[o]);
    }
  }

  // ---------- What a miss-branch commit leaves alone ----------

  // Two postings under the same natural key want the same advisory lock.
  lemma SameKeySameLock(hash: HashFunction, key: NaturalKey, call: Call, job: JobId)
    requires ResolveIdentity(call.posting) == Some(call.key) && key.WellFormed()
    requires Matches(key, NewRow(call, job))
    ensures NaturalLock(hash, key) == NaturalLock(hash, call.key)
  {
    hide NewRow, StoredForm, Matches, ResolveIdentity;
    NewRowFacts(call, job);
    MatchesExactlyOwnKey(key, NewRow(call, job));
    assert key.CanonicalBytes.requires() ==> key.CanonicalBytes() == call.key.CanonicalBytes();
  }

  // A row with a canonical URL was written under that URL's tier-2 lock.
  lemma SameUrlSameFilter(call: Call, job: JobId, url: string)
    requires ResolveIdentity(call.posting) == Some(call.key)
    requires FilterMatches(CanonicalUrl(url), NewRow(call, job))
    ensures TierFilter(call) == Some(CanonicalUrl(url))
  {
    hide StoredForm, Matches, ResolveIdentity, NewRow;
    NewRowFacts(call, job);
  }

  lemma NewKeepsTables(db: Db, txn: Txn)
    requires CanWrite(db, txn) && txn.phase.PendingNew?
    requires txn.phase.newJob !in db.jobs && txn.phase.newOccurrence !in db.occurrences
    ensures var db' := CommittedDb(db, txn);
            var home := Home(txn.phase.decision, txn.phase.newJob);
            && db'.occurrences == db.occurrences[txn.phase.newOccurrence := NewRow(txn.call, home)]
            && (forall job :: job in db.jobs ==> job in db'.jobs)
            && (forall job :: job in db.jobs && job != home ==> db'.jobs[job] == db.jobs[job])
            && (forall r :: r in db.raws && r != txn.call.rawId ==> r in db'.raws && db'.raws[r] == db.raws[r])
  {
    hide NewRow;
  }

  lemma NewKeepsUnmatched(hash: HashFunction, db: Db, txn: Txn, other: Txn)
    requires CanWrite(db, txn) && txn.phase.PendingNew? && PhaseInv(hash, db, txn.call, txn.phase)
    requires txn.phase.newJob !in db.jobs && txn.phase.newOccurrence !in db.occurrences
    requires NaturalLock(hash, other.call.key).Some? && Unmatched(db, other.call.key)
    requires ExpectedLocks(hash, other.call, other.phase) !! ExpectedLocks(hash, txn.call, txn.phase)
    requires Advisory(NaturalLock(hash, other.call.key).value) in ExpectedLocks(hash, other.call, other.phase)
    ensures Unmatched(CommittedDb(db, txn), other.call.key)
  {
    hide Matches, NaturalLock, TierLock, NewRow, Decided, CommittedDb, ResolveIdentity;
    NewKeepsTables(db, txn);
    WellFormedKey(hash, other.call.key);
    assert Advisory(NaturalLock(hash, txn.call.key).value) in ExpectedLocks(hash, txn.call, txn.phase);
    var home := Home(txn.phase.decision, txn.phase.newJob);
    if Matches(other.call.key, NewRow(txn.call, home)) {
      SameKeySameLock(hash, other.call.key, txn.call, home);
    }
  }

  lemma NewGrowsCandidates(db: Db, txn: Txn, filter: Filter)
    requires CanWrite(db, txn) && txn.phase.PendingNew?
    requires txn.phase.newJob !in db.jobs && txn.phase.newOccurrence !in db.occurrences
    ensures var db' := CommittedDb(db, txn);
            && Candidates(db, filter) <= Candidates(db', filter)
            && (FilterMatches(filter, NewRow(txn.call, Home(txn.phase.decision, txn.phase.newJob)))
                || Candidates(db', filter) == Candidates(db, filter))
  {
    hide FilterMatches, NewRow, CommittedDb;
    NewKeepsTables(db, txn);
    var db' := CommittedDb(db, txn);
    forall j | j in Candidates(db, filter) ensures j in Candidates(db', filter) {
      var o :| o in db.occurrences && FilterMatches(filter, db.occurrences[o]) && db.occurrences[o].job == j;
      assert db'.occurrences[o] == db.occurrences[o];
    }
  }

  lemma NewKeepsUrlCandidates(hash: HashFunction, db: Db, txn: Txn, other: Txn, filter: Filter)
    requires CanWrite(db, txn) && txn.phase.PendingNew? && PhaseInv(hash, db, txn.call, txn.phase)
    requires txn.phase.newJob !in db.jobs && txn.phase.newOccurrence !in db.occurrences
    requires ExpectedLocks(hash, other.call, other.phase) !! ExpectedLocks(hash, txn.call, txn.phase)
    requires filter.CanonicalUrl? && TierLock(hash, filter).Some?
    requires Advisory(TierLock(hash, filter).value) in ExpectedLocks(hash, other.call, other.phase)
    ensures Candidates(CommittedDb(db, txn), filter) == Candidates(db, filter)
  {
    hide FilterMatches, NewRow, CommittedDb, Candidates, NaturalLock, TierLock, ResolveIdentity;
    NewGrowsCandidates(db, txn, filter);
    var home := Home(txn.phase.decision, txn.phase.newJob);
    var lock := Advisory(TierLock(hash, filter).value);
    assert txn.phase.filter == Some(filter) ==> lock in ExpectedLocks(hash, txn.call, txn.phase);
    if FilterMatches(filter, NewRow(txn.call, home)) {
      SameUrlSameFilter(txn.call, home, filter.url);
    }
  }

  // Jobs another transaction has locked are not the one this commit attaches to.
  lemma NewKeepsLockedJobs(hash: HashFunction, db: Db, txn: Txn, other: Txn)
    requires CanWrite(db, txn) && txn.phase.PendingNew? && PhaseInv(hash, db, txn.call, txn.phase)
    requires txn.phase.newJob !in db.jobs && txn.phase.newOccurrence !in db.occurrences
    requires ExpectedLocks(hash, other.call, other.phase) !! ExpectedLocks(hash, txn.call, txn.phase)
    ensures forall job :: JobLock(job) in ExpectedLocks(hash, other.call, other.phase) && job in db.jobs ==>
      job in CommittedDb(db, txn).jobs && CommittedDb(db, txn).jobs[job] == db.jobs[job]
  {
    hide NewRow, CommittedDb, NaturalLock, TierLock, ResolveIdentity;
    NewKeepsTables(db, txn);
    if txn.phase.decision.AttachTo? {
      assert JobLock(txn.phase.decision.job) in ExpectedLocks(hash, txn.call, txn.phase);
    }
  }

  // A miss-branch commit beside another transaction whose locks are disjoint from its own.
  ghost predicate NewBeside(hash: HashFunction, db: Db, txn: Txn, other: Txn) {
    && CanWrite(db, txn) && txn.phase.PendingNew? && PhaseInv(hash, db, txn.call, txn.phase)
    && txn.phase.newJob !in db.jobs && txn.phase.newOccurrence !in db.occurrences
    && PhaseInv(hash, db, other.call, other.phase)
    && ExpectedLocks(hash, other.call, other.phase) !! ExpectedLocks(hash, txn.call, txn.phase)
    && !Finished(other) && !other.phase.Started?
  }

  lemma RawSurvivesNew(hash: HashFunction, db: Db, txn: Txn, other: Txn)
    requires NewBeside(hash, db, txn, other)
    ensures RawReady(CommittedDb(db, txn), other.call)
  {
    hide CommittedDb, NewRow, NaturalLock, TierLock, Matches, Decided, AssociationValid;
    NewKeepsTables(db, txn);
    assert RawLock(other.call.rawId) in ExpectedLocks(hash, other.call, other.phase);
    assert RawLock(txn.call.rawId) in ExpectedLocks(hash, txn.call, txn.phase);
  }

  lemma FoundSurvivesNew(hash: HashFunction, db: Db, txn: Txn, other: Txn)
    requires NewBeside(hash, db, txn, other)
    requires other.phase.Found? || other.phase.FoundJobLocked? || other.phase.PendingTouch?
    ensures PhaseInv(hash, CommittedDb(db, txn), other.call, other.phase)
  {
    hide CommittedDb, NewRow, NaturalLock, TierLock, Matches, Decided, AssociationValid, IsMismatch, RawReady;
    NewKeepsTables(db, txn);
    NewKeepsLockedJobs(hash, db, txn, other);
    RawSurvivesNew(hash, db, txn, other);
  }

  // What a query under a tier lock saw stays true: sets only grow, and under a canonical-URL lock not even that.
  lemma QueriesSurviveNew(hash: HashFunction, db: Db, txn: Txn, other: Txn, filter: Option<Filter>)
    requires NewBeside(hash, db, txn, other) && Unmatched(db, other.call.key)
    requires NaturalLock(hash, other.call.key).Some?
    requires Advisory(NaturalLock(hash, other.call.key).value) in ExpectedLocks(hash, other.call, other.phase)
    ensures Unmatched(CommittedDb(db, txn), other.call.key)
    ensures FilterCandidates(db, filter) <= FilterCandidates(CommittedDb(db, txn), filter)
    ensures filter.Some? && filter.value.CanonicalUrl? && TierLock(hash, filter.value).Some?
      && Advisory(TierLock(hash, filter.value).value) in ExpectedLocks(hash, other.call, other.phase)
      ==> FilterCandidates(db, filter) == FilterCandidates(CommittedDb(db, txn), filter)
  {
    hide CommittedDb, NewRow, NaturalLock, TierLock, Unmatched, Candidates, PhaseInv, ExpectedLocks, FilterMatches;
    NewKeepsUnmatched(hash, db, txn, other);
    if filter.Some? {
      NewGrowsCandidates(db, txn, filter.value);
      if filter.value.CanonicalUrl? && TierLock(hash, filter.value).Some?
        && Advisory(TierLock(hash, filter.value).value) in ExpectedLocks(hash, other.call, other.phase) {
        NewKeepsUrlCandidates(hash, db, txn, other, filter.value);
      }
    }
  }

  lemma MissingSurvivesNew(hash: HashFunction, db: Db, txn: Txn, other: Txn)
    requires NewBeside(hash, db, txn, other)
    requires other.phase.Missed? || other.phase.TierLocked? || other.phase.Candidate? || other.phase.CandidateLocked?
          || other.phase.ProbedMany?
    ensures PhaseInv(hash, CommittedDb(db, txn), other.call, other.phase)
  {
    hide CommittedDb, NewRow, NaturalLock, TierLock, TierFilter, Unmatched, Candidates, Decided, AssociationValid,
      RawReady, CanWrite, FoundAt, Home;
    assert CanWrite(db, txn);
    var filter := other.phase.wanted;
    NewKeepsTables(db, txn);
    NewKeepsLockedJobs(hash, db, txn, other);
    RawSurvivesNew(hash, db, txn, other);
    assert Advisory(NaturalLock(hash, other.call.key).value) in ExpectedLocks(hash, other.call, other.phase);
    QueriesSurviveNew(hash, db, txn, other, Some(filter));
    CardinalityGrows(Candidates(db, filter), Candidates(CommittedDb(db, txn), filter));
  }

  lemma DecidedSurvivesNew(hash: HashFunction, db: Db, txn: Txn, other: Txn)
    requires NewBeside(hash, db, txn, other) && (other.phase.Resolved? || other.phase.PendingNew?)
    ensures PhaseInv(hash, CommittedDb(db, txn), other.call, other.phase)
  {
    hide CommittedDb, NewRow, NaturalLock, TierLock, TierFilter, Unmatched, Candidates, AssociationValid, RawReady,
      Decide, Seen;
    NewKeepsTables(db, txn);
    NewKeepsLockedJobs(hash, db, txn, other);
    RawSurvivesNew(hash, db, txn, other);
    assert Advisory(NaturalLock(hash, other.call.key).value) in ExpectedLocks(hash, other.call, other.phase);
    QueriesSurviveNew(hash, db, txn, other, other.phase.filter);
  }

  lemma PhaseSurvivesNew(hash: HashFunction, db: Db, txn: Txn, other: Txn)
    requires CanWrite(db, txn) && txn.phase.PendingNew? && PhaseInv(hash, db, txn.call, txn.phase)
    requires txn.phase.newJob !in db.jobs && txn.phase.newOccurrence !in db.occurrences
    requires PhaseInv(hash, db, other.call, other.phase)
    requires ExpectedLocks(hash, other.call, other.phase) !! ExpectedLocks(hash, txn.call, txn.phase)
    ensures PhaseInv(hash, CommittedDb(db, txn), other.call, other.phase)
  {
    hide CommittedDb, ExpectedLocks, RawReady, Decided, Missing, FoundAt, NaturalLock;
    if Finished(other) || other.phase.Started? {
      return;
    }
    hide CanWrite;
    match other.phase
    case Found(_, _) => FoundSurvivesNew(hash, db, txn, other);
    case FoundJobLocked(_, _, _) => FoundSurvivesNew(hash, db, txn, other);
    case PendingTouch(_, _, _, _, _) => FoundSurvivesNew(hash, db, txn, other);
    case Resolved(_, _, _, _) => DecidedSurvivesNew(hash, db, txn, other);
    case PendingNew(_, _, _, _, _, _) => DecidedSurvivesNew(hash, db, txn, other);
    case RawLocked => RawSurvivesNew(hash, db, txn, other);
    case KeyLocked => RawSurvivesNew(hash, db, txn, other);
    case _ => MissingSurvivesNew(hash, db, txn, other);
  }

  lemma CardinalityGrows(a: set<nat>, b: set<nat>)
    requires a <= b
    ensures |a| <= |b|
  {
    assert b == a + (b - a);
  }

  // ---------- The tables after a commit ----------

  // A pending miss-branch write meets the table lemmas' conditions.
  lemma PendingMayAdd(hash: HashFunction, s: State, t: TxnId)
    requires Inv(hash, s) && t in s.txns && s.txns[t].phase.PendingNew?
    ensures CanWrite(s.db, s.txns[t])
    ensures MayAdd(s.db, s.txns[t].call, s.txns[t].phase.decision, s.txns[t].phase.newJob, s.txns[t].phase.newOccurrence)
    ensures s.db.raws[s.txns[t].call.rawId].status == Fetched
  {
    hide ValidDb, Matches, ResolveIdentity, NaturalLock, TierLock, TierFilter, HistoryInv, FilterCandidates, Decide;
    var txn := s.txns[t];
    assert TxnInv(hash, s.db, txn);
    assert FreshIds(s, t, txn.phase.newJob, txn.phase.newOccurrence);
  }

  lemma PendingCandidatesAreJobs(hash: HashFunction, s: State, t: TxnId)
    requires Inv(hash, s) && t in s.txns && s.txns[t].phase.PendingNew?
    ensures s.txns[t].phase.newJob !in s.db.jobs && s.txns[t].phase.newOccurrence !in s.db.occurrences
    ensures Seen(s.txns[t].phase.decision) <= s.db.jobs.Keys
  {
    hide ValidJobs, UniqueNaturalKeys, ValidRaws, OneJobPerCanonicalUrl, Matches, ResolveIdentity, NaturalLock, TierLock,
      TierFilter, HistoryInv, Decide, Seen, StoredForm, FilterMatches;
    var txn := s.txns[t];
    assert TxnInv(hash, s.db, txn);
    assert FreshIds(s, t, txn.phase.newJob, txn.phase.newOccurrence);
  }

  // A posting with a canonical URL attaches to the job already holding the URL, or is its first.
  lemma PendingCanonicalHome(hash: HashFunction, s: State, t: TxnId)
    requires Inv(hash, s) && t in s.txns && s.txns[t].phase.PendingNew?
    requires s.txns[t].call.posting.canonicalUrl.Some?
    ensures var txn := s.txns[t];
            var url := txn.call.posting.canonicalUrl.value;
            && !txn.phase.decision.Ambiguous?
            && Seen(txn.phase.decision) == Candidates(s.db, CanonicalUrl(url))
            && forall o :: o in s.db.occurrences && s.db.occurrences[o].canonicalUrl == Some(url) ==>
                 s.db.occurrences[o].job == Home(txn.phase.decision, txn.phase.newJob)
  {
    hide ValidOccurrences, ValidJobs, UniqueNaturalKeys, ValidRaws, Matches, ResolveIdentity, NaturalLock, TierLock,
      HistoryInv, PendingFresh;
    var txn := s.txns[t];
    assert TxnInv(hash, s.db, txn);
    var url := txn.call.posting.canonicalUrl.value;
    CanonicalCandidatesAtMostOne(s.db, url);
    var all := Candidates(s.db, CanonicalUrl(url));
    assert Seen(txn.phase.decision) == all;
    forall o | o in s.db.occurrences && s.db.occurrences[o].canonicalUrl == Some(url)
      ensures s.db.occurrences[o].job == Home(txn.phase.decision, txn.phase.newJob)
    {
      assert s.db.occurrences[o].job in all;
    }
  }

  lemma CommitKeepsDb(hash: HashFunction, s: State, t: TxnId)
    requires Inv(hash, s) && CanCommit(s, t)
    ensures ValidDb(CommittedDb(s.db, s.txns[t])) && Extends(s.db, CommittedDb(s.db, s.txns[t]))
  {
    hide ValidDb, Extends, Matches, ResolveIdentity, NaturalLock, TierLock, TierFilter, HistoryInv, FilterCandidates,
      Decide, WriteTouch, WriteNew, IsMismatch, MayAdd, Home, PendingFresh;
    var txn := s.txns[t];
    var phase := txn.phase;
    assert TxnInv(hash, s.db, txn);
    if phase.PendingTouch? {
      TouchKeepsDb(s.db, txn.call, phase.occurrence, txn.call.observedAt, phase.mismatch);
    } else {
      PendingMayAdd(hash, s, t);
      if txn.call.posting.canonicalUrl.Some? {
        PendingCanonicalHome(hash, s, t);
      }
      AddKeepsDb(s.db, txn.call, phase.decision, phase.newJob, phase.newOccurrence);
      WriteNewIgnoresUnusedSighting(s.db, txn.call, phase.decision, phase.jobLastSeen, phase.newJob, phase.newOccurrence);
    }
  }

  lemma WriteNewIgnoresUnusedSighting(db: Db, call: Call, decision: Decision, jobLastSeen: Time, newJob: JobId, newOccurrence: OccurrenceId)
    requires call.rawId in db.raws && (decision.AttachTo? ==> decision.job in db.jobs && db.jobs[decision.job].lastSeen == jobLastSeen)
    ensures WriteNew(db, call, decision, jobLastSeen, newJob, newOccurrence)
         == WriteNew(db, call, decision, if decision.AttachTo? then db.jobs[decision.job].lastSeen else 0, newJob, newOccurrence)
  {
  }

  // ---------- History after a commit ----------

  lemma RecordSurvives(db: Db, db': Db, call: Call, outcome: Outcome)
    requires CommitRecorded(db, call, outcome) && Extends(db, db')
    ensures CommitRecorded(db', call, outcome)
  {
    hide Matches;
    var o := outcome.occurrence;
    assert SameEvidence(db.occurrences[o], db'.occurrences[o]);
    EvidenceDecides(call.key, CanonicalUrl(""), call, db.occurrences[o], db'.occurrences[o]);
  }

  lemma TouchIsRecorded(db: Db, txn: Txn)
    requires CanWrite(db, txn) && txn.phase.PendingTouch? && txn.call.key.WellFormed()
    requires Matches(txn.call.key, db.occurrences[txn.phase.occurrence])
    requires txn.phase.lastSeen >= txn.call.observedAt
    requires txn.phase.mismatch == IsMismatch(db.occurrences[txn.phase.occurrence], txn.call)
    ensures CommitRecorded(CommittedDb(db, txn), txn.call, PendingOutcome(db, txn))
  {
    hide Matches;
    var o := txn.phase.occurrence;
    EvidenceDecides(txn.call.key, CanonicalUrl(""), txn.call, db.occurrences[o], CommittedDb(db, txn).occurrences[o]);
  }

  lemma NewIsRecorded(db: Db, txn: Txn)
    requires CanWrite(db, txn) && txn.phase.PendingNew? && ResolveIdentity(txn.call.posting) == Some(txn.call.key)
    requires txn.phase.decision == Decide(Seen(txn.phase.decision))
    requires txn.call.posting.canonicalUrl.Some? ==> !txn.phase.decision.Ambiguous?
    requires txn.phase.newJob !in db.jobs && txn.phase.newOccurrence !in db.occurrences
    requires Seen(txn.phase.decision) <= db.jobs.Keys
    ensures CommitRecorded(CommittedDb(db, txn), txn.call, PendingOutcome(db, txn))
  {
    hide Matches, ResolveIdentity, NewRow, Decide, Seen, Evidenced, StrictlyIncreasing, StoredForm, OwnKey;
    NewRowFacts(txn.call, Home(txn.phase.decision, txn.phase.newJob));
    DecidedOutcomeIsValid(txn.phase.decision, txn.phase.newJob, txn.phase.newOccurrence);
    NewIsEvidenced(db, txn);
  }

  lemma NewIsEvidenced(db: Db, txn: Txn)
    requires CanWrite(db, txn) && txn.phase.PendingNew? && ResolveIdentity(txn.call.posting) == Some(txn.call.key)
    requires txn.phase.newJob !in db.jobs && txn.phase.newOccurrence !in db.occurrences
    requires Seen(txn.phase.decision) <= db.jobs.Keys
    requires PendingOutcome(db, txn).Valid()
    ensures var db', outcome := CommittedDb(db, txn), PendingOutcome(db, txn);
            && outcome.occurrence in db'.occurrences && db'.occurrences[outcome.occurrence].active
            && Evidenced(db', txn.call, outcome)
  {
    hide Matches, ResolveIdentity, NewRow, IsMismatch, CommittedDb, StoredForm, OwnKey, Seen, StrictlyIncreasing, CanWrite;
    var phase := txn.phase;
    var home := Home(phase.decision, phase.newJob);
    NewRowFacts(txn.call, home);
    NewRowIsActive(txn.call, home);
    NewKeepsTables(db, txn);
    NewConflicts(db, txn);
    if phase.decision.Ambiguous? {
      SeenAll(phase.decision);
      forall j | j in phase.decision.candidates
        ensures j in db.jobs && j != phase.newJob
      {
        assert j in Seen(phase.decision);
      }
    }
  }

  lemma SeenAll(decision: Decision)
    requires decision.Ambiguous?
    ensures forall j :: j in decision.candidates <==> j in Seen(decision)
  {
  }

  // The conflict row an ambiguous commit appends.
  lemma NewConflicts(db: Db, txn: Txn)
    requires CanWrite(db, txn) && txn.phase.PendingNew?
    ensures txn.phase.decision.Ambiguous? ==>
      Conflict(txn.call.rawId, AmbiguousMatch(txn.phase.decision.candidates, txn.phase.newOccurrence)) in CommittedDb(db, txn).conflicts
  {
    hide NewRow;
    if txn.phase.decision.Ambiguous? {
      assert CommittedDb(db, txn).conflicts[|db.conflicts|]
          == Conflict(txn.call.rawId, AmbiguousMatch(txn.phase.decision.candidates, txn.phase.newOccurrence));
    }
  }

  lemma NewRowIsActive(call: Call, job: JobId)
    ensures NewRow(call, job).active
  {
  }

  lemma CommitIsRecorded(hash: HashFunction, s: State, t: TxnId)
    requires Inv(hash, s) && CanCommit(s, t)
    ensures CommitRecorded(CommittedDb(s.db, s.txns[t]), s.txns[t].call, PendingOutcome(s.db, s.txns[t]))
  {
    hide ValidDb, Matches, ResolveIdentity, NaturalLock, TierLock, TierFilter, HistoryInv, FilterCandidates, IsMismatch,
      PendingFresh, CommittedDb, PendingOutcome, CommitRecorded, Decide, Seen, Unmatched;
    var txn := s.txns[t];
    assert TxnInv(hash, s.db, txn);
    WellFormedKey(hash, txn.call.key);
    if txn.phase.PendingTouch? {
      TouchIsRecorded(s.db, txn);
    } else {
      if txn.call.posting.canonicalUrl.Some? {
        PendingCanonicalHome(hash, s, t);
      }
      PendingCandidatesAreJobs(hash, s, t);
      NewIsRecorded(s.db, txn);
    }
  }

  lemma DecidedOutcomeIsValid(decision: Decision, newJob: JobId, newOccurrence: OccurrenceId)
    requires decision == Decide(Seen(decision))
    ensures NewOutcome(decision, newJob, newOccurrence).Valid()
  {
  }

  // A commit moves the sightings of at most the row it is about, to its own observation.
  ghost predicate SightingsMove(db: Db, db': Db, outcome: Outcome, observedAt: Time) {
    && (forall o :: o in db.occurrences ==>
          && o in db'.occurrences
          && db'.occurrences[o].firstSeen == db.occurrences[o].firstSeen
          && (db'.occurrences[o].lastSeen == db.occurrences[o].lastSeen
              || (o == outcome.occurrence && db'.occurrences[o].lastSeen == observedAt)))
    && (forall o :: o in db'.occurrences && o !in db.occurrences ==>
          && o == outcome.occurrence && Creates(outcome.kind)
          && db'.occurrences[o].firstSeen == db'.occurrences[o].lastSeen == observedAt)
  }

  lemma TouchSightings(db: Db, txn: Txn)
    requires CanWrite(db, txn) && txn.phase.PendingTouch?
    requires txn.phase.lastSeen == Later(db.occurrences[txn.phase.occurrence].lastSeen, txn.call.observedAt)
    ensures SightingsMove(db, CommittedDb(db, txn), PendingOutcome(db, txn), txn.call.observedAt)
  {
  }

  lemma NewSightings(db: Db, txn: Txn)
    requires CanWrite(db, txn) && txn.phase.PendingNew?
    requires txn.phase.newJob !in db.jobs && txn.phase.newOccurrence !in db.occurrences
    ensures SightingsMove(db, CommittedDb(db, txn), PendingOutcome(db, txn), txn.call.observedAt)
  {
    hide NewRow, CommittedDb;
    NewKeepsTables(db, txn);
    NewRowSightings(txn.call, Home(txn.phase.decision, txn.phase.newJob));
  }

  lemma NewRowSightings(call: Call, job: JobId)
    ensures NewRow(call, job).firstSeen == NewRow(call, job).lastSeen == call.observedAt
  {
  }

  lemma CommitSightings(hash: HashFunction, s: State, t: TxnId)
    requires Inv(hash, s) && CanCommit(s, t)
    ensures SightingsMove(s.db, CommittedDb(s.db, s.txns[t]), PendingOutcome(s.db, s.txns[t]), s.txns[t].call.observedAt)
  {
    hide ValidDb, Matches, ResolveIdentity, NaturalLock, TierLock, TierFilter, HistoryInv, FilterCandidates, IsMismatch,
      NewRow, Decided, SightingsMove, CommittedDb, PendingOutcome;
    var txn := s.txns[t];
    assert TxnInv(hash, s.db, txn);
    if txn.phase.PendingNew? {
      assert FreshIds(s, t, txn.phase.newJob, txn.phase.newOccurrence);
      NewSightings(s.db, txn);
    } else {
      TouchSightings(s.db, txn);
    }
  }

  // The commits that last saw, and first saw, a stored row.
  lemma SeersOf(hash: HashFunction, s: State, o: OccurrenceId) returns (last: TxnId, first: TxnId)
    requires Inv(hash, s) && o in s.db.occurrences
    ensures CommittedTo(s, last, o) && s.txns[last].call.observedAt == s.db.occurrences[o].lastSeen
    ensures CommittedTo(s, first, o) && s.txns[first].call.observedAt == s.db.occurrences[o].firstSeen
    ensures Creates(s.txns[first].phase.outcome.kind)
  {
    hide ValidDb, TxnInv, CommitRecorded, PendingFresh, LocksExclusive, Creates;
    last :| CommittedTo(s, last, o) && s.txns[last].call.observedAt == s.db.occurrences[o].lastSeen;
    first :| CommittedTo(s, first, o) && s.txns[first].call.observedAt == s.db.occurrences[o].firstSeen
             && Creates(s.txns[first].phase.outcome.kind);
  }

  lemma CommitKeepsSightings(hash: HashFunction, s: State, t: TxnId, o: OccurrenceId)
    requires Inv(hash, s) && CanCommit(s, t) && o in DoCommit(s, t).db.occurrences
    ensures var s' := DoCommit(s, t);
            && (exists u :: CommittedTo(s', u, o) && s'.txns[u].call.observedAt == s'.db.occurrences[o].lastSeen)
            && (exists u :: CommittedTo(s', u, o) && s'.txns[u].call.observedAt == s'.db.occurrences[o].firstSeen
                            && Creates(s'.txns[u].phase.outcome.kind))
  {
    hide Inv, CommittedDb, PendingOutcome, CanWrite, Creates;
    var s' := DoCommit(s, t);
    CommitSightings(hash, s, t);
    PendingRawIsFetched(hash, s, t);
    assert PendingOutcome(s.db, s.txns[t]).occurrence == o ==> CommittedTo(s', t, o);
    if o in s.db.occurrences {
      var u, w := SeersOf(hash, s, o);
      assert CommittedTo(s', u, o) && CommittedTo(s', w, o);
    }
  }

  lemma CommitKeepsHistory(hash: HashFunction, s: State, t: TxnId)
    requires Inv(hash, s) && CanCommit(s, t)
    ensures HistoryInv(DoCommit(s, t))
  {
    hide ValidDb, CommittedDb, PendingOutcome, PendingFresh, Extends, CommitRecorded, TxnInv;
    var s' := DoCommit(s, t);
    var txn := s.txns[t];
    CommitKeepsDb(hash, s, t);
    CommitIsRecorded(hash, s, t);
    PendingRawIsFetched(hash, s, t);
    forall u | u in s.txns && s.txns[u].phase.Committed?
      ensures CommitRecorded(s'.db, s.txns[u].call, s.txns[u].phase.outcome)
      ensures s.txns[u].call.rawId != txn.call.rawId
    {
      RecordSurvives(s.db, s'.db, s.txns[u].call, s.txns[u].phase.outcome);
      RecordedRawIsProcessed(s.db, s.txns[u].call, s.txns[u].phase.outcome);
    }
    forall o | o in s'.db.occurrences
      ensures exists u :: CommittedTo(s', u, o) && s'.txns[u].call.observedAt == s'.db.occurrences[o].lastSeen
      ensures exists u :: CommittedTo(s', u, o) && s'.txns[u].call.observedAt == s'.db.occurrences[o].firstSeen
                          && Creates(s'.txns[u].phase.outcome.kind)
    {
      CommitKeepsSightings(hash, s, t, o);
    }
  }

  lemma PendingRawIsFetched(hash: HashFunction, s: State, t: TxnId)
    requires Inv(hash, s) && CanCommit(s, t)
    ensures !s.txns[t].phase.Committed?
    ensures s.db.raws[s.txns[t].call.rawId].status == Fetched
  {
    hide ValidDb, HistoryInv, PendingFresh, Matches, ResolveIdentity, NaturalLock, Decided;
    assert TxnInv(hash, s.db, s.txns[t]);
  }

  lemma RecordedRawIsProcessed(db: Db, call: Call, outcome: Outcome)
    requires CommitRecorded(db, call, outcome)
    ensures call.rawId in db.raws && db.raws[call.rawId].status != Fetched
  {
    hide Matches;
  }

  lemma CommitKeepsOthers(hash: HashFunction, s: State, t: TxnId, u: TxnId)
    requires Inv(hash, s) && CanCommit(s, t) && u in s.txns && u != t
    ensures TxnInv(hash, CommittedDb(s.db, s.txns[t]), s.txns[u])
    ensures s.txns[u].phase.PendingNew? ==>
      s.txns[u].phase.newJob !in CommittedDb(s.db, s.txns[t]).jobs
      && s.txns[u].phase.newOccurrence !in CommittedDb(s.db, s.txns[t]).occurrences
  {
    hide ValidDb, HistoryInv, PhaseInv, ExpectedLocks, NewRow;
    assert TxnInv(hash, s.db, s.txns[t]) && TxnInv(hash, s.db, s.txns[u]);
    assert s.txns[u].held !! s.txns[t].held;
    if s.txns[u].phase.PendingNew? {
      assert FreshIds(s, u, s.txns[u].phase.newJob, s.txns[u].phase.newOccurrence);
    }
    if s.txns[t].phase.PendingTouch? {
      assert s.txns[t].phase.occurrence in s.db.occurrences;
      PhaseSurvivesTouch(hash, s.db, s.txns[t], s.txns[u]);
    } else {
      assert FreshIds(s, t, s.txns[t].phase.newJob, s.txns[t].phase.newOccurrence);
      PhaseSurvivesNew(hash, s.db, s.txns[t], s.txns[u]);
    }
  }

  lemma CommitStep(hash: HashFunction, s: State, t: TxnId)
    requires Inv(hash, s) && CanCommit(s, t)
    ensures Inv(hash, DoCommit(s, t))
  {
    hide ValidDb, HistoryInv, PhaseInv, CommittedDb, CanWrite, ExpectedLocks;
    var s' := DoCommit(s, t);
    CommitKeepsDb(hash, s, t);
    CommitKeepsHistory(hash, s, t);
    forall u | u in s'.txns
      ensures TxnInv(hash, s'.db, s'.txns[u])
      ensures s'.txns[u].phase.PendingNew? ==> FreshIds(s', u, s'.txns[u].phase.newJob, s'.txns[u].phase.newOccurrence)
    {
      if u == t {
        CommittedIsQuiet(hash, s'.db, s'.txns[t]);
      } else {
        CommitKeepsOthers(hash, s, t, u);
        if s.txns[u].phase.PendingNew? {
          assert FreshIds(s, u, s.txns[u].phase.newJob, s.txns[u].phase.newOccurrence);
        }
      }
    }
  }

  lemma CommittedIsQuiet(hash: HashFunction, db: Db, txn: Txn)
    requires txn.phase.Committed? && txn.held == {}
    ensures TxnInv(hash, db, txn)
  {
  }
}
