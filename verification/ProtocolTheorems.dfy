/** What every interleaving of posting transactions from empty tables guarantees. */
module ProtocolTheorems {
  import opened Options
  import opened NaturalKeys
  import opened Ingestion
  import opened TableWrites
  import opened Protocol
  import opened ProtocolInvariant
  import opened ProtocolCommit

  // ---------- The invariant over whole executions ----------

  lemma FetchedStep(hash: HashFunction, s: State, raw: RawId, posting: Posting)
    requires Inv(hash, s) && raw !in s.db.raws
    ensures var s' := s.(db := s.db.(raws := s.db.raws[raw := FetchedRow(posting)]));
            Inv(hash, s') && Extends(s.db, s'.db)
  {
    hide Inv, FetchedRow, ValidRaws, Extends;
    assert ValidRaws(s.db) by {
      InvGivesRaws(hash, s);
    }
    FetchedKeepsRaws(s.db, raw, posting);
    RawsOnlyStep(hash, s, s.(db := s.db.(raws := s.db.raws[raw := FetchedRow(posting)])));
  }

  lemma InvGivesRaws(hash: HashFunction, s: State)
    requires Inv(hash, s)
    ensures ValidRaws(s.db)
  {
    hide ValidRaws, ValidOccurrences, ValidJobs, UniqueNaturalKeys, OneJobPerCanonicalUrl, TxnInv, HistoryInv, PendingFresh;
  }

  lemma ParseErrorStep(hash: HashFunction, s: State, raw: RawId)
    requires Inv(hash, s) && CanMarkParseError(s, raw)
    ensures var s' := s.(db := MarkedParseError(s.db, raw));
            Inv(hash, s') && Extends(s.db, s'.db)
  {
    hide Inv, ValidRaws, Extends;
    assert ValidRaws(s.db) by {
      InvGivesRaws(hash, s);
    }
    MarkKeepsRaws(s.db, raw);
    RawsOnlyStep(hash, s, s.(db := MarkedParseError(s.db, raw)));
  }

  // A step that only touches raw rows nobody has locked, and no linked one, keeps the invariant.
  lemma RawsOnlyStep(hash: HashFunction, s: State, s': State)
    requires Inv(hash, s) && s' == s.(db := s.db.(raws := s'.db.raws)) && ValidRaws(s'.db)
    requires forall r :: r in s.db.raws ==> r in s'.db.raws
    requires forall r :: r in s.db.raws && s.db.raws[r].occurrence.Some? ==> s'.db.raws[r] == s.db.raws[r]
    requires forall t, r :: t in s.txns && r in s.db.raws && RawLock(r) in s.txns[t].held ==> s'.db.raws[r] == s.db.raws[r]
    ensures Inv(hash, s')
  {
    hide ValidOccurrences, ValidJobs, UniqueNaturalKeys, OneJobPerCanonicalUrl, ValidRaws, PhaseInv;
    forall t | t in s'.txns
      ensures TxnInv(hash, s'.db, s'.txns[t])
    {
      assert TxnInv(hash, s.db, s.txns[t]);
      PhaseIgnoresOtherRaws(hash, s.db, s'.db, s.txns[t]);
    }
    assert ValidDb(s'.db) by {
      SameTables(s.db, s'.db);
    }
    assert PendingFresh(s') by {
      forall t | t in s'.txns && s'.txns[t].phase.PendingNew?
        ensures FreshIds(s', t, s'.txns[t].phase.newJob, s'.txns[t].phase.newOccurrence)
      {
        assert FreshIds(s, t, s.txns[t].phase.newJob, s.txns[t].phase.newOccurrence);
      }
    }
    assert HistoryInv(s') by {
      RawsOnlyHistory(s, s');
    }
  }

  lemma RawsOnlyHistory(s: State, s': State)
    requires HistoryInv(s) && s' == s.(db := s.db.(raws := s'.db.raws))
    requires forall r :: r in s.db.raws ==> r in s'.db.raws
    requires forall r :: r in s.db.raws && s.db.raws[r].occurrence.Some? ==> s'.db.raws[r] == s.db.raws[r]
    ensures HistoryInv(s')
  {
    hide CommitRecorded;
    forall t | t in s'.txns && s'.txns[t].phase.Committed?
      ensures CommitRecorded(s'.db, s'.txns[t].call, s'.txns[t].phase.outcome)
    {
      RecordIgnoresRaws(s.db, s'.db, s.txns[t].call, s.txns[t].phase.outcome);
    }
    forall o | o in s'.db.occurrences
      ensures exists u :: CommittedTo(s', u, o) && s'.txns[u].call.observedAt == s'.db.occurrences[o].lastSeen
      ensures exists u :: CommittedTo(s', u, o) && s'.txns[u].call.observedAt == s'.db.occurrences[o].firstSeen
                          && Creates(s'.txns[u].phase.outcome.kind)
    {
      var u :| CommittedTo(s, u, o) && s.txns[u].call.observedAt == s.db.occurrences[o].lastSeen;
      var w :| CommittedTo(s, w, o) && s.txns[w].call.observedAt == s.db.occurrences[o].firstSeen
               && Creates(s.txns[w].phase.outcome.kind);
      assert CommittedTo(s', u, o) && CommittedTo(s', w, o);
    }
  }

  lemma RecordIgnoresRaws(db: Db, db': Db, call: Call, outcome: Outcome)
    requires CommitRecorded(db, call, outcome) && db' == db.(raws := db'.raws)
    requires forall r :: r in db.raws && db.raws[r].occurrence.Some? ==> r in db'.raws && db'.raws[r] == db.raws[r]
    ensures CommitRecorded(db', call, outcome)
  {
    hide Matches, IsMismatch, StrictlyIncreasing;
  }

  lemma PhaseIgnoresOtherRaws(hash: HashFunction, db: Db, db': Db, txn: Txn)
    requires TxnInv(hash, db, txn) && db' == db.(raws := db'.raws)
    requires forall r :: r in db.raws ==> r in db'.raws
    requires forall r :: r in db.raws && RawLock(r) in txn.held ==> db'.raws[r] == db.raws[r]
    ensures PhaseInv(hash, db', txn.call, txn.phase)
  {
    hide Matches, AssociationValid, NaturalLock, TierLock, TierFilter, Decide, FilterMatches, IsMismatch;
    if !Finished(txn) && !txn.phase.Started? {
      assert RawLock(txn.call.rawId) in txn.held;
      assert forall filter :: Candidates(db', filter) == Candidates(db, filter);
    }
  }

  lemma BeginStep(hash: HashFunction, s: State, t: TxnId, call: Call)
    requires Inv(hash, s) && t !in s.txns
    ensures Inv(hash, s.(txns := s.txns[t := Txn(call, Started, {})]))
  {
    hide ValidDb, HistoryInv, PendingFresh;
    LocalStep(hash, s, t, Txn(call, Started, {}));
  }

  lemma StepKeepsInv(hash: HashFunction, s: State, a: Action)
    requires Inv(hash, s) && Enabled(hash, s, a)
    ensures Inv(hash, Next(hash, s, a)) && Extends(s.db, Next(hash, s, a).db)
  {
    hide Inv, CanLockRaw, CanLockKey, CanProbeKey, CanLockFoundJob, CanLockOccurrence, CanLockTier, CanProbe,
      CanLockCandidate, CanRecheck, CanRequery, CanWriteRows, CanCommit, CanMarkParseError, Extends;
    ExtendsReflexive(s.db);
    match a {
      case WriteFetched(raw, posting) => FetchedStep(hash, s, raw, posting);
      case MarkParseError(raw) => ParseErrorStep(hash, s, raw);
      case Begin(t, call) => BeginStep(hash, s, t, call);
      case LockRaw(t) => LockRawStep(hash, s, t);
      case LockKey(t) => LockKeyStep(hash, s, t);
      case ProbeKey(t) => ProbeKeyStep(hash, s, t);
      case LockFoundJob(t) => LockFoundJobStep(hash, s, t);
      case LockOccurrence(t) => LockOccurrenceStep(hash, s, t);
      case LockTier(t) => LockTierStep(hash, s, t);
      case Probe(t, rows) => ProbeStep(hash, s, t, rows);
      case LockCandidate(t) => LockCandidateStep(hash, s, t);
      case Recheck(t, rows) => RecheckStep(hash, s, t, rows);
      case Requery(t) => RequeryStep(hash, s, t);
      case Write(t, newJob, newOccurrence) => WriteStep(hash, s, t, newJob, newOccurrence);
      case Commit(t) => CommitStep(hash, s, t); CommitKeepsDb(hash, s, t);
      case Rollback(t) => FailStep(hash, s, t, RolledBack);
    }
  }

  /** Every reachable state satisfies the invariant. */
  lemma {:induction false} ReachableInv(hash: HashFunction, states: seq<State>, actions: seq<Action>, i: nat)
    requires Execution(hash, states, actions) && i < |states|
    ensures Inv(hash, states[i])
  {
    hide Inv, Enabled, Next;
    if i == 0 {
      InitialInv(hash);
    } else {
      ReachableInv(hash, states, actions, i - 1);
      StepKeepsInv(hash, states[i - 1], actions[i - 1]);
    }
  }

  lemma InitialInv(hash: HashFunction)
    ensures Inv(hash, INITIAL)
  {
  }
}
