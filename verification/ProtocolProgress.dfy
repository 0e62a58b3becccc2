/** Deadlock freedom: locks are taken in rank order, so some transaction can always step, provided
    no natural-key lock number equals a tier lock number. */
module ProtocolProgress {
  import opened Options
  import opened NaturalKeys
  import opened Ingestion
  import opened Protocol
  import opened ProtocolInvariant
  import opened ProtocolTheorems

  // The rank of the lock a phase waits for: raw row, natural key, tier, job, occurrence; 5 for none.
  function WantedRank(phase: Phase): nat {
    match phase
    case Started => 0
    case RawLocked => 1
    case Missed(_) => 2
    case Found(_, _) => 3
    case Candidate(_, _) => 3
    case FoundJobLocked(_, _, _) => 4
    case _ => 5
  }

  // A statement of transaction t itself that moves it on (not a rollback).
  predicate StepOf(a: Action, t: TxnId) {
    !a.WriteFetched? && !a.MarkParseError? && !a.Begin? && !a.Rollback? && a.t == t
  }

  ghost predicate CanStep(hash: HashFunction, s: State, t: TxnId) {
    exists a :: StepOf(a, t) && Enabled(hash, s, a)
  }

  ghost predicate SomeCanStep(hash: HashFunction, s: State) {
    exists t :: t in s.txns && !Finished(s.txns[t]) && CanStep(hash, s, t)
  }

  // The lock numbers of natural keys and of tiers in use are different numbers.
  ghost predicate RanksApart(hash: HashFunction, s: State) {
    forall t, u :: t in s.txns && u in s.txns && TierFilter(s.txns[u].call).Some? ==>
      Apart(NaturalLock(hash, s.txns[t].call.key), TierLock(hash, TierFilter(s.txns[u].call).value))
  }

  predicate Apart(a: Option<int>, b: Option<int>) {
    a.Some? && b.Some? ==> a.value != b.value
  }

  // The truncated hash does not collide on the lock encodings in use.
  ghost predicate NoTruncationCollision(hash: HashFunction, s: State) {
    forall t, u :: t in s.txns && u in s.txns ==>
      var key, filter := s.txns[t].call.key, TierFilter(s.txns[u].call);
      key.WellFormed() && Encodable(key.Components()) && filter.Some? && TierBytes(filter.value).Some?
      && LockNumber(hash(key.CanonicalBytes())) == LockNumber(hash(TierBytes(filter.value).value)) ==>
        key.CanonicalBytes() == TierBytes(filter.value).value
  }

  /** Since the encodings' tags never overlap, absence of hash collisions keeps the ranks apart. */
  lemma TagsKeepRanksApart(hash: HashFunction, s: State)
    requires NoTruncationCollision(hash, s)
    ensures RanksApart(hash, s)
  {
    forall t, u | t in s.txns && u in s.txns && TierFilter(s.txns[u].call).Some?
      ensures Apart(NaturalLock(hash, s.txns[t].call.key), TierLock(hash, TierFilter(s.txns[u].call).value))
    {
      var filter := TierFilter(s.txns[u].call).value;
      if NaturalLock(hash, s.txns[t].call.key).Some? && TierLock(hash, filter).Some? {
        KeyBytesAreNotTierBytes(s.txns[t].call.key, filter);
      }
    }
  }

  lemma KeyBytesAreNotTierBytes(key: NaturalKey, filter: Filter)
    requires key.WellFormed() && Encodable(key.Components()) && TierBytes(filter).Some?
    ensures key.CanonicalBytes() != TierBytes(filter).value
  {
    match filter {
      case CanonicalUrl(url) => TierBytesInjective(key, url, url, ["", "", "", ""], ["", "", "", ""]);
      case TenantRequisition(p, q, t, r) => TierBytesInjective(key, "", "", [p, q, t, r], [p, q, t, r]);
    }
  }

  // Whether what the phase waits for is an advisory lock.
  predicate WaitsAdvisory(phase: Phase) {
    phase.RawLocked? || phase.Missed?
  }

  // Whoever holds the lock another transaction waits for is itself waiting for a higher rank, or not at
  // all; for a row lock that needs no assumption about lock numbers.
  lemma HolderIsFurther(hash: HashFunction, s: State, t: TxnId, u: TxnId, lock: Lock)
    requires Inv(hash, s) && t in s.txns && u in s.txns && u != t
    requires WaitsAdvisory(s.txns[t].phase) ==> RanksApart(hash, s)
    requires lock in s.txns[u].held
    requires match s.txns[t].phase
             case Started => lock.RawLock?
             case RawLocked => Numbered(NaturalLock(hash, s.txns[t].call.key)) == {lock}
             case Missed(filter) => TierFilter(s.txns[t].call) == Some(filter) && Numbered(TierLock(hash, filter)) == {lock}
             case Found(_, _) => lock.JobLock?
             case Candidate(_, _) => lock.JobLock?
             case FoundJobLocked(_, _, _) => lock.OccurrenceLock?
             case _ => false
    ensures !Finished(s.txns[u]) && WantedRank(s.txns[u].phase) > WantedRank(s.txns[t].phase)
  {
    hide ValidDb, HistoryInv, PendingFresh, NaturalLock, TierLock, TierFilter, RawReady, Decided, Unmatched;
    var holder := s.txns[u];
    assert TxnInv(hash, s.db, holder);
    assert lock in ExpectedLocks(hash, holder.call, holder.phase);
    if s.txns[t].phase.Missed? {
      assert lock in Numbered(TierLock(hash, s.txns[t].phase.wanted));
      assert Apart(NaturalLock(hash, holder.call.key), TierLock(hash, s.txns[t].phase.wanted));
    } else if s.txns[t].phase.RawLocked? {
      assert lock in Numbered(NaturalLock(hash, s.txns[t].call.key));
    }
  }

  lemma LimitTwoExists(all: set<JobId>) returns (rows: seq<JobId>)
    ensures LimitTwo(rows, all)
  {
    if |all| == 0 {
      rows := [];
    } else {
      var a :| a in all;
      if |all| == 1 {
        rows := [a];
      } else {
        assert |all - {a}| >= 1;
        var b :| b in all - {a};
        rows := [a, b];
      }
    }
  }

  lemma FreshNat(used: set<nat>) returns (n: nat)
    ensures n !in used
  {
    n := 0;
    if used != {} {
      var sorted := SortedIds(used);
      n := sorted[|sorted| - 1] + 1;
      assert forall x :: x in used ==> x in sorted;
      assert forall k :: 0 <= k < |sorted| ==> sorted[k] < n;
    }
  }

  // A query of the current candidates can always be answered.
  lemma CanAlwaysQuery(hash: HashFunction, s: State, t: TxnId)
    requires t in s.txns && (s.txns[t].phase.TierLocked? || s.txns[t].phase.CandidateLocked?)
    ensures CanStep(hash, s, t)
  {
    hide Candidates, LimitTwo;
    var rows := LimitTwoExists(Candidates(s.db, s.txns[t].phase.wanted));
    if s.txns[t].phase.TierLocked? {
      assert StepOf(Probe(t, rows), t) && Enabled(hash, s, Probe(t, rows));
    } else {
      assert StepOf(Recheck(t, rows), t) && Enabled(hash, s, Recheck(t, rows));
    }
  }

  // A transaction that waits for nothing has an enabled statement.
  lemma NotWaiting(hash: HashFunction, s: State, t: TxnId)
    requires Inv(hash, s) && t in s.txns && !Finished(s.txns[t]) && WantedRank(s.txns[t].phase) == 5
    ensures CanStep(hash, s, t)
  {
    hide Inv;
    var phase := s.txns[t].phase;
    if phase.KeyLocked? {
      assert StepOf(ProbeKey(t), t) && Enabled(hash, s, ProbeKey(t));
    } else if phase.ProbedMany? {
      assert StepOf(Requery(t), t) && Enabled(hash, s, Requery(t));
    } else {
      hide CanStep;
      if phase.TierLocked? || phase.CandidateLocked? {
        CanAlwaysQuery(hash, s, t);
      } else if phase.Resolved? {
        CanAlwaysWrite(hash, s, t);
      } else {
        CanAlwaysCommit(hash, s, t);
      }
    }
  }

  lemma CanAlwaysWrite(hash: HashFunction, s: State, t: TxnId)
    requires t in s.txns && s.txns[t].phase.Resolved?
    ensures CanStep(hash, s, t)
  {
    var job := FreshNat(s.db.jobs.Keys + set u | u in s.txns && s.txns[u].phase.PendingNew? :: s.txns[u].phase.newJob);
    var o := FreshNat(s.db.occurrences.Keys
      + set u | u in s.txns && s.txns[u].phase.PendingNew? :: s.txns[u].phase.newOccurrence);
    assert CanWriteRows(s, t, job, o);
    assert StepOf(Write(t, job, o), t) && Enabled(hash, s, Write(t, job, o));
  }

  lemma CanAlwaysCommit(hash: HashFunction, s: State, t: TxnId)
    requires Inv(hash, s) && t in s.txns && (s.txns[t].phase.PendingTouch? || s.txns[t].phase.PendingNew?)
    ensures CanStep(hash, s, t)
  {
    hide ValidDb, HistoryInv, PendingFresh, NaturalLock, TierLock, TierFilter, Decide, Unmatched, Matches, IsMismatch,
      AssociationValid, Seen, FilterCandidates;
    assert TxnInv(hash, s.db, s.txns[t]);
    assert CanWrite(s.db, s.txns[t]);
    assert StepOf(Commit(t), t) && Enabled(hash, s, Commit(t));
  }

  // A waiting transaction either gets its lock, or points at a holder of higher rank.
  lemma WaitsOrSteps(hash: HashFunction, s: State, t: TxnId) returns (u: TxnId)
    requires Inv(hash, s) && t in s.txns && WantedRank(s.txns[t].phase) < 5
    requires WaitsAdvisory(s.txns[t].phase) ==> RanksApart(hash, s)
    ensures CanStep(hash, s, t)
            || (u in s.txns && !Finished(s.txns[u]) && WantedRank(s.txns[u].phase) > WantedRank(s.txns[t].phase))
  {
    hide ValidDb, HistoryInv, PendingFresh, NaturalLock, TierLock, TierFilter, RawReady, Unmatched, Matches, RanksApart,
      Matching, Candidates;
    u := t;
    var call, phase := s.txns[t].call, s.txns[t].phase;
    assert TxnInv(hash, s.db, s.txns[t]);
    match phase {
      case Started =>
        u := HolderOf(hash, s, t, RawLock(call.rawId), LockRaw(t));
      case RawLocked =>
        if NaturalLock(hash, call.key).None? {
          assert StepOf(LockKey(t), t) && Enabled(hash, s, LockKey(t));
        } else {
          u := HolderOf(hash, s, t, Advisory(NaturalLock(hash, call.key).value), LockKey(t));
        }
      case Missed(filter) =>
        if TierLock(hash, filter).None? {
          assert StepOf(LockTier(t), t) && Enabled(hash, s, LockTier(t));
        } else {
          u := HolderOf(hash, s, t, Advisory(TierLock(hash, filter).value), LockTier(t));
        }
      case Found(_, job) =>
        u := HolderOf(hash, s, t, JobLock(job), LockFoundJob(t));
      case Candidate(_, job) =>
        u := HolderOf(hash, s, t, JobLock(job), LockCandidate(t));
      case FoundJobLocked(o, _, _) =>
        OnlyMatch(hash, s, t);
        u := HolderOf(hash, s, t, OccurrenceLock(o), LockOccurrence(t));
    }
  }

  lemma OnlyMatch(hash: HashFunction, s: State, t: TxnId)
    requires Inv(hash, s) && t in s.txns && s.txns[t].phase.FoundJobLocked?
    ensures Matching(s.db, s.txns[t].call.key) == {s.txns[t].phase.occurrence}
  {
    hide HistoryInv, PendingFresh, NaturalLock, RawReady, Matches, StoredForm, SameOwnKey, ValidJobs, ValidRaws;
    assert TxnInv(hash, s.db, s.txns[t]);
    WellFormedKey(hash, s.txns[t].call.key);
    MatchingAtMostOne(s.db, s.txns[t].call.key);
    assert s.txns[t].phase.occurrence in Matching(s.db, s.txns[t].call.key);
  }

  // Either the statement waiting for this lock is enabled, or somebody further along holds it.
  lemma HolderOf(hash: HashFunction, s: State, t: TxnId, lock: Lock, a: Action) returns (u: TxnId)
    requires Inv(hash, s) && t in s.txns && StepOf(a, t)
    requires WaitsAdvisory(s.txns[t].phase) ==> RanksApart(hash, s)
    requires Free(s, t, lock) ==> Enabled(hash, s, a)
    requires match s.txns[t].phase
             case Started => lock.RawLock?
             case RawLocked => Numbered(NaturalLock(hash, s.txns[t].call.key)) == {lock}
             case Missed(filter) => TierFilter(s.txns[t].call) == Some(filter) && Numbered(TierLock(hash, filter)) == {lock}
             case Found(_, _) => lock.JobLock?
             case Candidate(_, _) => lock.JobLock?
             case FoundJobLocked(_, _, _) => lock.OccurrenceLock?
             case _ => false
    ensures CanStep(hash, s, t)
            || (u in s.txns && !Finished(s.txns[u]) && WantedRank(s.txns[u].phase) > WantedRank(s.txns[t].phase))
  {
    hide Inv, RanksApart, Enabled, NaturalLock, TierLock, TierFilter;
    u := t;
    if !Free(s, t, lock) {
      u :| u in s.txns && u != t && lock in s.txns[u].held;
      HolderIsFurther(hash, s, t, u, lock);
    }
  }

  /** From any unfinished transaction, following the holders upward in rank ends at one that steps. */
  lemma {:induction false} Progress(hash: HashFunction, s: State, t: TxnId)
    requires Inv(hash, s) && RanksApart(hash, s) && t in s.txns && !Finished(s.txns[t])
    ensures SomeCanStep(hash, s)
    decreases 5 - WantedRank(s.txns[t].phase)
  {
    hide Inv, RanksApart, CanStep;
    if WantedRank(s.txns[t].phase) == 5 {
      NotWaiting(hash, s, t);
    } else {
      var u := WaitsOrSteps(hash, s, t);
      if !CanStep(hash, s, t) {
        Progress(hash, s, u);
      }
    }
  }

  /** No deadlock: in every state of every execution with an unfinished transaction, some
      transaction can take its next statement, when the truncated hash does not collide. */
  lemma NoDeadlock(hash: HashFunction, states: seq<State>, actions: seq<Action>, i: nat, t: TxnId)
    requires Execution(hash, states, actions) && i < |states|
    requires t in states[i].txns && !Finished(states[i].txns[t])
    requires NoTruncationCollision(hash, states[i])
    ensures SomeCanStep(hash, states[i])
  {
    hide Execution, Inv, NoTruncationCollision, RanksApart, SomeCanStep;
    ReachableInv(hash, states, actions, i);
    TagsKeepRanksApart(hash, states[i]);
    Progress(hash, states[i], t);
  }
}
