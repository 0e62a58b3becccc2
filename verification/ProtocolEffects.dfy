/** What every commit of every interleaving does to the tables, and where each job comes from. */
module ProtocolEffects {
  import opened Options
  import opened CoveredText
  import opened NaturalKeys
  import opened Ingestion
  import opened TableWrites
  import opened PostingEffects
  import opened Protocol
  import opened ProtocolInvariant
  import opened ProtocolTheorems
  import opened ProtocolRuns
  import opened ProtocolQueries

  lemma TouchCommitEffects(hash: HashFunction, db: Db, txn: Txn)
    requires CanWrite(db, txn) && txn.phase.PendingTouch? && PhaseInv(hash, db, txn.call, txn.phase)
    ensures Effects(db, txn.call, CommittedDb(db, txn), PendingOutcome(db, txn))
  {
    hide RawReady, NaturalLock, Effects, WriteTouch, IsMismatch, Matches;
    TouchEffects(db, txn.call, txn.phase.occurrence);
  }

  lemma NewCommitEffects(hash: HashFunction, db: Db, txn: Txn)
    requires CanWrite(db, txn) && txn.phase.PendingNew? && PhaseInv(hash, db, txn.call, txn.phase)
    requires txn.phase.newJob !in db.jobs && txn.phase.newOccurrence !in db.occurrences
    ensures Effects(db, txn.call, CommittedDb(db, txn), PendingOutcome(db, txn))
  {
    hide NaturalLock, Effects, WriteNew, Unmatched, TierFilter, TierLock, Decide, Seen, FilterCandidates, ResolveIdentity;
    var p := txn.phase;
    NewEffects(db, txn.call, p.decision, p.jobLastSeen, p.newJob, p.newOccurrence);
  }

  lemma CommitHasEffects(hash: HashFunction, s: State, t: TxnId)
    requires Inv(hash, s) && CanCommit(s, t)
    ensures Effects(s.db, s.txns[t].call, CommittedDb(s.db, s.txns[t]), PendingOutcome(s.db, s.txns[t]))
  {
    InvGives(hash, s, t);
    hide ValidDb, HistoryInv, LocksExclusive, Effects, CommittedDb, PendingOutcome, PhaseInv;
    if s.txns[t].phase.PendingTouch? {
      TouchCommitEffects(hash, s.db, s.txns[t]);
    } else {
      NewCommitEffects(hash, s.db, s.txns[t]);
    }
  }

  /** Every commit, in whatever interleaving, changes exactly the rows its outcome names, in exactly these
      columns: a new job is first and last seen when its posting was observed, an old one keeps its first
      sighting. */
  lemma CommitsHaveEffects(hash: HashFunction, states: seq<State>, actions: seq<Action>, i: nat, t: TxnId)
    requires Execution(hash, states, actions) && i < |actions| && actions[i] == Commit(t)
    ensures t in states[i].txns && t in states[i + 1].txns && states[i + 1].txns[t].phase.Committed?
    ensures Effects(states[i].db, states[i].txns[t].call, states[i + 1].db, states[i + 1].txns[t].phase.outcome)
  {
    hide Inv, Effects, CommittedDb, PendingOutcome, CanWrite;
    ReachableInv(hash, states, actions, i);
    assert Enabled(hash, states[i], actions[i]) && states[i + 1] == Next(hash, states[i], actions[i]);
    CommitHasEffects(hash, states[i], t);
  }

  // ---------- Where jobs come from ----------

  // The transaction created the job, and observed its posting when the job was first seen.
  predicate Founder(s: State, t: TxnId, job: JobId) {
    && t in s.txns && s.txns[t].phase.Committed? && job in s.db.jobs
    && (s.txns[t].phase.outcome.kind == INSERTED || s.txns[t].phase.outcome.kind == AMBIGUOUS)
    && s.txns[t].phase.outcome.job == job && s.txns[t].call.observedAt == s.db.jobs[job].firstSeen
  }

  lemma CommittedStays(hash: HashFunction, s: State, a: Action, t: TxnId)
    requires Enabled(hash, s, a) && t in s.txns && s.txns[t].phase.Committed?
    ensures t in Next(hash, s, a).txns && Next(hash, s, a).txns[t] == s.txns[t]
  {
    if Actor(a) != Some(t) {
      StepIsLocal(hash, s, a, t);
    } else {
      hide LimitTwo, Candidates, Decide, Matching, NaturalLock, TierLock, TierFilter, FreshIds;
    }
  }

  lemma FounderStays(hash: HashFunction, s: State, a: Action, t: TxnId, job: JobId)
    requires Inv(hash, s) && Enabled(hash, s, a) && Founder(s, t, job)
    ensures Founder(Next(hash, s, a), t, job)
  {
    hide Inv, Enabled, Next;
    CommittedStays(hash, s, a, t);
    StepKeepsInv(hash, s, a);
  }

  lemma NewJobHasFounder(hash: HashFunction, s: State, a: Action, job: JobId)
    requires Inv(hash, s) && Enabled(hash, s, a) && job in Next(hash, s, a).db.jobs && job !in s.db.jobs
    ensures exists t :: Founder(Next(hash, s, a), t, job)
  {
    hide Inv, Enabled, Next, Founder;
    if a.Commit? {
      CommitFounds(hash, s, a.t, job);
    } else {
      OtherStepsAddNoJob(hash, s, a);
      assert false;
    }
  }

  lemma CommitIs(hash: HashFunction, s: State, t: TxnId)
    requires Enabled(hash, s, Commit(t))
    ensures CanCommit(s, t) && Next(hash, s, Commit(t)) == DoCommit(s, t)
  {
    hide CanWrite, CommittedDb, PendingOutcome;
  }

  lemma CommitFounds(hash: HashFunction, s: State, t: TxnId, job: JobId)
    requires Inv(hash, s) && Enabled(hash, s, Commit(t)) && job in Next(hash, s, Commit(t)).db.jobs && job !in s.db.jobs
    ensures Founder(Next(hash, s, Commit(t)), t, job)
  {
    hide Inv, Enabled, Next, CanWrite, CommittedDb, PendingOutcome, Effects;
    CommitIs(hash, s, t);
    CommitHasEffects(hash, s, t);
    NewJobIsFounded(s.db, s.txns[t].call, DoCommit(s, t).db, PendingOutcome(s.db, s.txns[t]), job);
  }

  lemma NewJobIsFounded(db: Db, call: Call, db': Db, outcome: Outcome, job: JobId)
    requires Effects(db, call, db', outcome) && job in db'.jobs && job !in db.jobs
    ensures outcome.job == job && (outcome.kind == INSERTED || outcome.kind == AMBIGUOUS)
    ensures db'.jobs[job].firstSeen == call.observedAt
  {
    hide OccurrenceWritten, Matches, RawLinked, OccurrenceSighted, UrlsDisagree, ConflictAdded;
  }

  lemma OtherStepsAddNoJob(hash: HashFunction, s: State, a: Action)
    requires Enabled(hash, s, a) && !a.Commit?
    ensures Next(hash, s, a).db.jobs == s.db.jobs
  {
    if ChangesTables(a) {
      hide FetchedRow, CanMarkParseError;
    } else {
      StepChangesNothing(hash, s, a);
    }
  }

  /** Every job ever in the tables was created by a committed insertion or ambiguity, and first seen when
      that one was observed: no later sighting moves it. */
  lemma JobsAreFirstSeenByTheirFounders(hash: HashFunction, states: seq<State>, actions: seq<Action>, i: nat, job: JobId)
    requires Execution(hash, states, actions) && i < |states| && job in states[i].db.jobs
    ensures exists t :: Founder(states[i], t, job)
  {
    hide Execution, Founder;
    var t := FounderOf(hash, states, actions, i, job);
  }

  lemma {:induction false} FounderOf(hash: HashFunction, states: seq<State>, actions: seq<Action>, i: nat, job: JobId) returns (t: TxnId)
    requires Execution(hash, states, actions) && i < |states| && job in states[i].db.jobs
    ensures Founder(states[i], t, job)
  {
    hide Inv, Enabled, Next, Founder;
    if i == 0 {
      assert false;
    } else {
      ReachableInv(hash, states, actions, i - 1);
      if job in states[i - 1].db.jobs {
        t := FounderOf(hash, states, actions, i - 1, job);
        FounderStays(hash, states[i - 1], actions[i - 1], t, job);
      } else {
        NewJobHasFounder(hash, states[i - 1], actions[i - 1], job);
        t :| Founder(states[i], t, job);
      }
    }
  }

  // ---------- Where outcomes come from ----------

  // The posting has nothing to go by besides its key.
  predicate NoEvidence(call: Call) {
    call.posting.canonicalUrl.None?
    && (CanonicalizeNullableText(call.posting.tenant).None? || CanonicalizeNullableText(call.posting.requisition).None?)
  }

  lemma NoEvidenceNoFilter(call: Call)
    ensures NoEvidence(call) <==> TierFilter(call).None?
  {
  }

  /** Every committed creation went where its evidence led at one earlier moment at which it held its
      tier's lock: no job held the evidence, or one did and was joined, or several did and all are
      listed. */
  lemma CreationsFollowTheEvidence(hash: HashFunction, states: seq<State>, actions: seq<Action>, i: nat, t: TxnId) returns (j: nat)
    requires Execution(hash, states, actions) && i < |states| && t in states[i].txns
    requires states[i].txns[t].phase.Committed? && Creates(states[i].txns[t].phase.outcome.kind)
    requires !NoEvidence(states[i].txns[t].call)
    ensures j < i && t in states[j].txns && (exists number :: Advisory(number) in states[j].txns[t].held)
    ensures ChosenAmong(states[j].db, states[i].txns[t].call, states[i].txns[t].phase.outcome)
  {
    hide Execution, Candidates, Decide, TierFilter, ChosenAmong, NoEvidence, NewOutcome;
    var call, outcome := states[i].txns[t].call, states[i].txns[t].phase.outcome;
    NoEvidenceNoFilter(call);
    var filter := TierFilter(call).value;
    j := CreationsFollowAQuery(hash, states, actions, i, t, filter);
    DecisionIsChosen(states[j].db, call, outcome.job, outcome.occurrence);
  }

  lemma NothingToDecide(hash: HashFunction, db: Db, call: Call, decision: Decision, jobLastSeen: Time, locked: Option<JobId>)
    requires Decided(hash, db, call, None, decision, jobLastSeen, locked)
    ensures decision == Insert
  {
    hide Unmatched, TierFilter, TierLock, SortedIds;
    assert Seen(decision) == {};
  }

  lemma PendingIsDecided(hash: HashFunction, db: Db, txn: Txn)
    requires PhaseInv(hash, db, txn.call, txn.phase) && txn.phase.PendingNew?
    ensures Decided(hash, db, txn.call, txn.phase.filter, txn.phase.decision, txn.phase.jobLastSeen, txn.phase.locked)
    ensures txn.phase.filter == TierFilter(txn.call)
  {
    hide Unmatched, TierFilter, TierLock, Seen, Decide, RawReady, NaturalLock, Candidates;
  }

  lemma PendingWithoutEvidence(hash: HashFunction, s: State, t: TxnId)
    requires Inv(hash, s) && t in s.txns && s.txns[t].phase.PendingNew? && NoEvidence(s.txns[t].call)
    ensures s.txns[t].phase.decision == Insert
  {
    NoEvidenceNoFilter(s.txns[t].call);
    InvGives(hash, s, t);
    hide Inv, ValidDb, PhaseInv, NoEvidence, TierFilter, ExpectedLocks, Decided;
    PendingIsDecided(hash, s.db, s.txns[t]);
    var p := s.txns[t].phase;
    NothingToDecide(hash, s.db, s.txns[t].call, p.decision, p.jobLastSeen, p.locked);
  }

  /** And a committed creation without evidence was an insertion. */
  lemma {:induction false} NoEvidenceInserts(hash: HashFunction, states: seq<State>, actions: seq<Action>, i: nat, t: TxnId)
    requires Execution(hash, states, actions) && i < |states| && t in states[i].txns
    requires states[i].txns[t].phase.Committed? && Creates(states[i].txns[t].phase.outcome.kind)
    requires NoEvidence(states[i].txns[t].call)
    ensures states[i].txns[t].phase.outcome.kind == INSERTED
  {
    hide Inv, Enabled, Next, NoEvidence, TierFilter;
    if i == 0 {
      assert false;
    } else {
      ReachableInv(hash, states, actions, i - 1);
      CreationWasPending(hash, states[i - 1], actions[i - 1], t);
      if states[i - 1].txns[t] == states[i].txns[t] {
        NoEvidenceInserts(hash, states, actions, i - 1, t);
      } else {
        PendingWithoutEvidence(hash, states[i - 1], t);
      }
    }
  }
}
