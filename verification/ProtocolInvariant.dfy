/** The protocol invariant is inductive: it holds initially and every step keeps it. */
module ProtocolInvariant {
  import opened Options
  import opened NaturalKeys
  import opened Ingestion
  import opened Protocol

  // ---------- Steps of one transaction that leave the tables alone ----------

  // The history side of the invariant does not look at unfinished transactions.
  lemma HistoryUndisturbed(s: State, t: TxnId, txn: Txn)
    requires HistoryInv(s) && !txn.phase.Committed?
    requires t in s.txns ==> !s.txns[t].phase.Committed?
    ensures HistoryInv(s.(txns := s.txns[t := txn]))
  {
    hide CommitRecorded;
    var s' := s.(txns := s.txns[t := txn]);
    forall o | o in s.db.occurrences
      ensures exists u :: CommittedTo(s', u, o) && s'.txns[u].call.observedAt == s.db.occurrences[o].lastSeen
      ensures exists u :: CommittedTo(s', u, o) && s'.txns[u].call.observedAt == s.db.occurrences[o].firstSeen
                          && Creates(s'.txns[u].phase.outcome.kind)
    {
      var u :| CommittedTo(s, u, o) && s.txns[u].call.observedAt == s.db.occurrences[o].lastSeen;
      var w :| CommittedTo(s, w, o) && s.txns[w].call.observedAt == s.db.occurrences[o].firstSeen
               && Creates(s.txns[w].phase.outcome.kind);
      assert CommittedTo(s', u, o) && CommittedTo(s', w, o);
    }
  }

  // Replacing one unfinished transaction by a later phase of itself keeps the invariant, when the
  // new phase is justified by the tables and its locks are disjoint from everyone else's.
  lemma LocalStep(hash: HashFunction, s: State, t: TxnId, txn: Txn)
    requires Inv(hash, s)
    requires t in s.txns ==> !s.txns[t].phase.Committed?
    requires TxnInv(hash, s.db, txn) && !txn.phase.Committed?
    requires forall u :: u in s.txns && u != t ==> s.txns[u].held !! txn.held
    requires txn.phase.PendingNew? ==> FreshIds(s, t, txn.phase.newJob, txn.phase.newOccurrence)
    ensures Inv(hash, s.(txns := s.txns[t := txn]))
  {
    hide ValidDb, PhaseInv, ExpectedLocks, HistoryInv;
    HistoryUndisturbed(s, t, txn);
    var s' := s.(txns := s.txns[t := txn]);
    forall u | u in s'.txns && s'.txns[u].phase.PendingNew?
      ensures FreshIds(s', u, s'.txns[u].phase.newJob, s'.txns[u].phase.newOccurrence)
    {
      if u != t {
        assert FreshIds(s, u, s.txns[u].phase.newJob, s.txns[u].phase.newOccurrence);
      }
    }
  }

  // Taking one free lock keeps lock sets disjoint.
  lemma TakeLocks(s: State, t: TxnId, taken: set<Lock>)
    requires LocksExclusive(s) && t in s.txns && forall lock :: lock in taken ==> Free(s, t, lock)
    ensures forall u :: u in s.txns && u != t ==> s.txns[u].held !! s.txns[t].held + taken
  {
    forall u | u in s.txns && u != t
      ensures s.txns[u].held !! s.txns[t].held + taken
    {
      assert s.txns[u].held !! s.txns[t].held;
    }
  }

  lemma MoveStep(hash: HashFunction, s: State, t: TxnId, phase: Phase, taken: set<Lock>)
    requires Inv(hash, s) && t in s.txns && !s.txns[t].phase.Committed? && !phase.Committed?
    requires PhaseInv(hash, s.db, s.txns[t].call, phase)
    requires s.txns[t].held + taken == ExpectedLocks(hash, s.txns[t].call, phase)
    requires forall lock :: lock in taken ==> Free(s, t, lock)
    requires phase.PendingNew? ==> FreshIds(s, t, phase.newJob, phase.newOccurrence)
    ensures Inv(hash, Move(s, t, phase, taken))
  {
    TakeLocks(s, t, taken);
    LocalStep(hash, s, t, Txn(s.txns[t].call, phase, s.txns[t].held + taken));
  }

  lemma FailStep(hash: HashFunction, s: State, t: TxnId, phase: Phase)
    requires Inv(hash, s) && t in s.txns && !s.txns[t].phase.Committed?
    requires phase.RolledBack? || (phase.Failed? && phase.error != Unstable && phase.error != MultipleOccurrences)
    ensures Inv(hash, End(s, t, phase))
  {
    hide ValidDb, HistoryInv, PendingFresh, RawReady, NaturalLock;
    LocalStep(hash, s, t, Txn(s.txns[t].call, phase, {}));
  }

  // A decision taken on the candidates as they are now is justified.
  lemma DecidedNow(hash: HashFunction, db: Db, call: Call, filter: Option<Filter>, decision: Decision,
                   jobLastSeen: Time, locked: Option<JobId>)
    requires Unmatched(db, call.key) && TierFilter(call) == filter
    requires filter.Some? ==> TierLock(hash, filter.value).Some?
    requires decision == Decide(FilterCandidates(db, filter))
    requires decision.AttachTo? ==>
      locked == Some(decision.job) && decision.job in db.jobs && db.jobs[decision.job].lastSeen == jobLastSeen
    ensures Decided(hash, db, call, filter, decision, jobLastSeen, locked)
  {
    hide Unmatched, TierFilter, TierLock, Candidates;
    var all := FilterCandidates(db, filter);
    if |all| == 0 {
      assert all == {};
    } else if |all| == 1 {
      assert all == {Only(all)};
    }
    assert Seen(decision) == all;
  }

  lemma InvGives(hash: HashFunction, s: State, t: TxnId)
    requires Inv(hash, s) && t in s.txns
    ensures TxnInv(hash, s.db, s.txns[t]) && ValidDb(s.db)
  {
    hide ValidDb, TxnInv, LocksExclusive, PendingFresh, HistoryInv;
  }

  // ---------- The key branch ----------

  lemma LockRawStep(hash: HashFunction, s: State, t: TxnId)
    requires Inv(hash, s) && CanLockRaw(s, t)
    ensures Inv(hash, DoLockRaw(s, t))
  {
    hide ValidDb, AssociationValid, Inv;
    var txn := s.txns[t];
    InvGives(hash, s, t);
    if RawReady(s.db, txn.call) {
      MoveStep(hash, s, t, RawLocked, {RawLock(txn.call.rawId)});
    } else if txn.call.rawId !in s.db.raws {
      FailStep(hash, s, t, Failed(NoRawRow));
    } else {
      FailStep(hash, s, t, Failed(InvalidAssociation));
    }
  }

  lemma LockKeyStep(hash: HashFunction, s: State, t: TxnId)
    requires Inv(hash, s) && CanLockKey(hash, s, t)
    ensures Inv(hash, DoLockKey(hash, s, t))
  {
    hide ValidDb, RawReady, NaturalLock, Inv;
    var txn := s.txns[t];
    InvGives(hash, s, t);
    if NaturalLock(hash, txn.call.key).None? {
      FailStep(hash, s, t, Failed(EncodingOverflow));
    } else {
      MoveStep(hash, s, t, KeyLocked, {Advisory(NaturalLock(hash, txn.call.key).value)});
    }
  }

  lemma MatchingIsUnmatched(db: Db, key: NaturalKey)
    ensures Unmatched(db, key) <==> Matching(db, key) == {}
  {
    hide Matches;
    if Matching(db, key) == {} {
      forall o | o in db.occurrences ensures !Matches(key, db.occurrences[o]) {
        assert o !in Matching(db, key);
      }
    }
  }

  // What a probe for a key finds in valid tables.
  lemma ProbeFinds(db: Db, call: Call)
    requires ValidDb(db) && call.key.WellFormed()
    ensures |Matching(db, call.key)| <= 1
    ensures forall o :: o in Matching(db, call.key) ==> o in db.occurrences && FoundAt(db, call, o, db.occurrences[o].job)
  {
    hide Matches, StoredForm, ValidJobs, ValidRaws, OneJobPerCanonicalUrl, UniqueNaturalKeys;
    MatchingAtMostOne(db, call.key);
  }

  lemma ProbeKeyStep(hash: HashFunction, s: State, t: TxnId)
    requires Inv(hash, s) && CanProbeKey(s, t)
    ensures Inv(hash, DoProbeKey(s, t))
  {
    hide RawReady, NaturalLock, Inv, Unmatched, Matching, FoundAt, TierFilter, Decided, ValidDb;
    var txn := s.txns[t];
    InvGives(hash, s, t);
    var key := txn.call.key;
    WellFormedKey(hash, key);
    ProbeFinds(s.db, txn.call);
    MatchingIsUnmatched(s.db, key);
    var matching := Matching(s.db, key);
    var filter := TierFilter(txn.call);
    if |matching| == 1 {
      var o := Only(matching);
      assert o in matching;
      MoveStep(hash, s, t, Found(o, s.db.occurrences[o].job), {});
    } else if filter.Some? {
      MoveStep(hash, s, t, Missed(filter.value), {});
    } else {
      DecidedNow(hash, s.db, txn.call, None, Insert, 0, None);
      MoveStep(hash, s, t, Resolved(None, Insert, 0, None), {});
    }
  }

  lemma WellFormedKey(hash: HashFunction, key: NaturalKey)
    requires NaturalLock(hash, key).Some?
    ensures key.WellFormed()
  {
  }

  lemma LockFoundJobStep(hash: HashFunction, s: State, t: TxnId)
    requires Inv(hash, s) && CanLockFoundJob(s, t)
    ensures Inv(hash, DoLockFoundJob(s, t))
  {
    hide ValidDb, RawReady, NaturalLock, Inv, Matches;
    var phase := s.txns[t].phase;
    InvGives(hash, s, t);
    MoveStep(hash, s, t, FoundJobLocked(phase.occurrence, phase.job, s.db.jobs[phase.job].lastSeen), {JobLock(phase.job)});
  }

  lemma LockOccurrenceStep(hash: HashFunction, s: State, t: TxnId)
    requires Inv(hash, s) && CanLockOccurrence(s, t)
    ensures Inv(hash, DoLockOccurrence(s, t))
  {
    hide RawReady, NaturalLock, Inv, Matches, IsMismatch, StoredForm;
    var txn := s.txns[t];
    InvGives(hash, s, t);
    var o := txn.phase.occurrence;
    WellFormedKey(hash, txn.call.key);
    MatchingAtMostOne(s.db, txn.call.key);
    assert o in Matching(s.db, txn.call.key);
    var row := s.db.occurrences[o];
    MoveStep(hash, s, t,
      PendingTouch(o, txn.phase.job, Later(row.lastSeen, txn.call.observedAt),
                   Later(txn.phase.jobLastSeen, txn.call.observedAt), IsMismatch(row, txn.call)),
      {OccurrenceLock(o)});
  }

  // ---------- The tier branch ----------

  lemma LockTierStep(hash: HashFunction, s: State, t: TxnId)
    requires Inv(hash, s) && CanLockTier(hash, s, t)
    ensures Inv(hash, DoLockTier(hash, s, t))
  {
    hide ValidDb, RawReady, NaturalLock, TierLock, Inv, Unmatched, TierFilter;
    var txn := s.txns[t];
    InvGives(hash, s, t);
    if TierLock(hash, txn.phase.wanted).None? {
      FailStep(hash, s, t, Failed(EncodingOverflow));
    } else {
      MoveStep(hash, s, t, TierLocked(txn.phase.wanted), {Advisory(TierLock(hash, txn.phase.wanted).value)});
    }
  }

  lemma CandidatesAreJobs(db: Db, filter: Filter)
    requires ValidDb(db)
    ensures forall j :: j in Candidates(db, filter) ==> j in db.jobs
  {
    hide StoredForm, FilterMatches;
  }

  // Reaching a decision takes no lock.
  lemma ResolveStep(hash: HashFunction, s: State, t: TxnId, filter: Filter, decision: Decision,
                    jobLastSeen: Time, locked: Option<JobId>)
    requires Inv(hash, s) && t in s.txns && !Finished(s.txns[t])
    requires RawReady(s.db, s.txns[t].call) && NaturalLock(hash, s.txns[t].call.key).Some?
    requires Missing(hash, s.db, s.txns[t].call, filter)
    requires decision == Decide(Candidates(s.db, filter))
    requires decision.AttachTo? ==>
      locked == Some(decision.job) && decision.job in s.db.jobs && s.db.jobs[decision.job].lastSeen == jobLastSeen
    requires s.txns[t].held == ExpectedLocks(hash, s.txns[t].call, Resolved(Some(filter), decision, jobLastSeen, locked))
    ensures Inv(hash, Move(s, t, Resolved(Some(filter), decision, jobLastSeen, locked), {}))
  {
    hide Inv, RawReady, NaturalLock, TierLock, Unmatched, TierFilter, Candidates, Decide, Decided, ExpectedLocks;
    var phase := Resolved(Some(filter), decision, jobLastSeen, locked);
    var call := s.txns[t].call;
    DecidedNow(hash, s.db, call, Some(filter), decision, jobLastSeen, locked);
    assert PhaseInv(hash, s.db, call, phase);
    assert s.txns[t].held + {} == s.txns[t].held;
    MoveStep(hash, s, t, phase, {});
  }

  lemma ProbeStep(hash: HashFunction, s: State, t: TxnId, rows: seq<JobId>)
    requires Inv(hash, s) && CanProbe(s, t, rows)
    ensures Inv(hash, DoProbe(s, t, rows))
  {
    hide ValidDb, RawReady, NaturalLock, TierLock, Inv, Unmatched, TierFilter, Candidates, Decided;
    var txn := s.txns[t];
    var filter := txn.phase.wanted;
    var all := Candidates(s.db, filter);
    InvGives(hash, s, t);
    CandidatesAreJobs(s.db, filter);
    if |rows| == 0 {
      ResolveStep(hash, s, t, filter, Insert, 0, None);
    } else if |rows| == 1 {
      MoveStep(hash, s, t, Candidate(filter, rows[0]), {});
    } else {
      MoveStep(hash, s, t, ProbedMany(filter, None), {});
    }
  }

  lemma LockCandidateStep(hash: HashFunction, s: State, t: TxnId)
    requires Inv(hash, s) && CanLockCandidate(s, t)
    ensures Inv(hash, DoLockCandidate(s, t))
  {
    hide ValidDb, RawReady, NaturalLock, TierLock, Inv, Unmatched, TierFilter, Candidates;
    var phase := s.txns[t].phase;
    InvGives(hash, s, t);
    MoveStep(hash, s, t, CandidateLocked(phase.wanted, phase.job, s.db.jobs[phase.job].lastSeen), {JobLock(phase.job)});
  }

  // The recheck can only confirm the candidate or find more: candidate sets never shrink.
  // A re-check that still sees the locked candidate and no second one sees exactly it.
  lemma RecheckRows(rows: seq<JobId>, all: set<JobId>, job: JobId)
    requires LimitTwo(rows, all) && job in all && |rows| <= 1
    ensures rows == [job] && all == {job} && |all| == 1 && Only(all) == job
  {
    assert |all| == 1 && all == {Only(all)};
  }

  lemma RecheckStep(hash: HashFunction, s: State, t: TxnId, rows: seq<JobId>)
    requires Inv(hash, s) && CanRecheck(s, t, rows)
    ensures Inv(hash, DoRecheck(s, t, rows))
  {
    hide ValidDb, RawReady, NaturalLock, TierLock, Inv, Unmatched, TierFilter, Candidates, Decided;
    var txn := s.txns[t];
    var filter, job := txn.phase.wanted, txn.phase.job;
    var all := Candidates(s.db, filter);
    InvGives(hash, s, t);
    if |rows| > 1 {
      MoveStep(hash, s, t, ProbedMany(filter, Some(job)), {});
    } else {
      RecheckRows(rows, all, job);
      ResolveStep(hash, s, t, filter, AttachTo(job), txn.phase.jobLastSeen, Some(job));
    }
  }

  lemma RequeryStep(hash: HashFunction, s: State, t: TxnId)
    requires Inv(hash, s) && CanRequery(s, t)
    ensures Inv(hash, DoRequery(s, t))
  {
    hide ValidDb, RawReady, NaturalLock, TierLock, Inv, Unmatched, TierFilter, Candidates, Decided, Only, SortedIds;
    var txn := s.txns[t];
    var filter := txn.phase.wanted;
    var all := Candidates(s.db, filter);
    InvGives(hash, s, t);
    var decision := Ambiguous(SortedIds(all));
    ResolveStep(hash, s, t, filter, decision, 0, txn.phase.locked);
  }

  lemma WriteStep(hash: HashFunction, s: State, t: TxnId, newJob: JobId, newOccurrence: OccurrenceId)
    requires Inv(hash, s) && CanWriteRows(s, t, newJob, newOccurrence)
    ensures Inv(hash, DoWrite(s, t, newJob, newOccurrence))
  {
    hide ValidDb, RawReady, NaturalLock, Inv, Decided;
    var phase := s.txns[t].phase;
    InvGives(hash, s, t);
    MoveStep(hash, s, t,
      PendingNew(phase.filter, phase.decision, phase.jobLastSeen, phase.locked, newJob, newOccurrence), {});
  }
}
