/** One job per tenant and requisition: when it holds, when it does not, and exactly in between. */
module ProtocolRequisition {
  import opened Options
  import opened CoveredText
  import opened NaturalKeys
  import opened Ingestion
  import opened TableWrites
  import opened Protocol
  import opened ProtocolInvariant
  import opened ProtocolCommit
  import opened ProtocolTheorems
  import opened ProtocolSerial
  import opened ProtocolRuns
  import opened ProtocolQueries
  import opened ProtocolProgress

  /** The posting's tenant-requisition evidence, whether or not it also has a canonical URL. */
  function RequisitionOf(call: Call): Option<Filter> {
    var tenant := CanonicalizeNullableText(call.posting.tenant);
    var requisition := CanonicalizeNullableText(call.posting.requisition);
    if tenant.Some? && requisition.Some? then
      Some(TenantRequisition(call.key.provider, call.key.source, tenant.value, requisition.value))
    else None
  }

  lemma TierWithoutUrl(call: Call)
    requires call.posting.canonicalUrl.None?
    ensures TierFilter(call) == RequisitionOf(call)
  {
  }

  // A new row holds exactly its posting's evidence.
  lemma NewRowEvidence(call: Call, job: JobId, e: Filter)
    requires Genuine(call) && e.TenantRequisition?
    ensures FilterMatches(e, NewRow(call, job)) <==> RequisitionOf(call) == Some(e)
  {
    hide Trim, Lower, IsCovered;
  }

  // The rows holding the evidence.
  predicate Holds(db: Db, e: Filter, o: OccurrenceId) {
    o in db.occurrences && FilterMatches(e, db.occurrences[o])
  }

  ghost predicate OneJob(db: Db, e: Filter) {
    forall o, o' :: Holds(db, e, o) && Holds(db, e, o') ==> db.occurrences[o].job == db.occurrences[o'].job
  }

  // ---------- Rows without a canonical URL ----------

  // No row holding the evidence has a canonical URL.
  ghost predicate Plain(db: Db, e: Filter) {
    forall o :: Holds(db, e, o) ==> db.occurrences[o].canonicalUrl.None?
  }

  // At most one job, and every pending decision on it is still that of the tables.
  ghost predicate Exclusive(s: State, e: Filter) {
    && OneJob(s.db, e)
    && forall t, decision :: t in s.txns && Deciding(s.txns[t].phase, e, decision) ==> Seen(decision) == Candidates(s.db, e)
  }

  lemma OneJobOneCandidate(db: Db, e: Filter)
    ensures OneJob(db, e) <==> |Candidates(db, e)| <= 1
  {
    hide FilterMatches;
    if OneJob(db, e) {
      Subsingleton(Candidates(db, e));
    }
    if |Candidates(db, e)| <= 1 {
      forall o, o' | Holds(db, e, o) && Holds(db, e, o')
        ensures db.occurrences[o].job == db.occurrences[o'].job
      {
        AtMostOneIsEqual(Candidates(db, e), db.occurrences[o].job, db.occurrences[o'].job);
      }
    }
  }

  lemma AtMostOneIsEqual(ids: set<nat>, x: nat, y: nat)
    requires |ids| <= 1 && x in ids && y in ids
    ensures x == y
  {
    assert |ids - {x}| == 0;
    assert y !in ids - {x};
  }

  lemma SameRowsSameJob(db: Db, db': Db, e: Filter)
    requires db'.occurrences == db.occurrences
    ensures OneJob(db', e) <==> OneJob(db, e)
    ensures Candidates(db', e) == Candidates(db, e)
  {
    hide FilterMatches;
    assert forall o :: Holds(db', e, o) <==> Holds(db, e, o);
  }

  // Steps that leave the occurrence rows alone.
  lemma QuietKeepsExclusive(hash: HashFunction, s: State, a: Action, e: Filter)
    requires Inv(hash, s) && Enabled(hash, s, a) && Exclusive(s, e) && !a.Commit?
    ensures Exclusive(Next(hash, s, a), e)
  {
    hide Inv, Enabled, Next, Seen, Deciding;
    var s' := Next(hash, s, a);
    OccurrencesStay(hash, s, a);
    SameRowsSameJob(s.db, s'.db, e);
    forall t, decision | t in s'.txns && Deciding(s'.txns[t].phase, e, decision)
      ensures Seen(decision) == Candidates(s'.db, e)
    {
      DecisionStep(hash, s, a, t, e, decision);
      SeenIsDecidedOn(Candidates(s.db, e));
    }
  }

  lemma OccurrencesStay(hash: HashFunction, s: State, a: Action)
    requires Enabled(hash, s, a) && !a.Commit?
    ensures Next(hash, s, a).db.occurrences == s.db.occurrences
  {
    hide FetchedRow;
    if !ChangesTables(a) {
      StepChangesNothing(hash, s, a);
    }
  }

  // A commit of the found branch changes no evidence and no decision.
  lemma TouchKeepsExclusive(hash: HashFunction, s: State, t: TxnId, e: Filter)
    requires Inv(hash, s) && CanCommit(s, t) && Exclusive(s, e) && s.txns[t].phase.PendingTouch?
    ensures Exclusive(DoCommit(s, t), e)
  {
    hide Inv, CommittedDb, PendingOutcome, Candidates, OneJob, Seen, CanWrite;
    QueriesSurviveTouch(s.db, s.txns[t], s.txns[t].call.key);
    OneJobOneCandidate(s.db, e);
    OneJobOneCandidate(DoCommit(s, t).db, e);
  }

  // A commit of the miss branch whose row does not hold the evidence.
  lemma OtherNewKeepsExclusive(hash: HashFunction, s: State, t: TxnId, e: Filter)
    requires Inv(hash, s) && CanCommit(s, t) && Exclusive(s, e) && s.txns[t].phase.PendingNew?
    requires !FilterMatches(e, NewRow(s.txns[t].call, Home(s.txns[t].phase.decision, s.txns[t].phase.newJob)))
    ensures Exclusive(DoCommit(s, t), e)
  {
    hide Inv, CommittedDb, PendingOutcome, Candidates, OneJob, Seen, CanWrite, NewRow, FilterMatches;
    PendingMayAdd(hash, s, t);
    NewGrowsCandidates(s.db, s.txns[t], e);
    OneJobOneCandidate(s.db, e);
    OneJobOneCandidate(DoCommit(s, t).db, e);
  }

  // One whose row does: it decided under the evidence's own lock, which nobody else can be holding.
  lemma OwnNewKeepsExclusive(hash: HashFunction, s: State, t: TxnId, e: Filter)
    requires Inv(hash, s) && CanCommit(s, t) && Exclusive(s, e) && s.txns[t].phase.PendingNew? && e.TenantRequisition?
    requires FilterMatches(e, NewRow(s.txns[t].call, Home(s.txns[t].phase.decision, s.txns[t].phase.newJob)))
    requires s.txns[t].call.posting.canonicalUrl.None?
    ensures Exclusive(DoCommit(s, t), e)
  {
    hide Inv, CommittedDb, PendingOutcome, OneJob, CanWrite, NewRow, FilterMatches, Candidates, Deciding;
    var txn := s.txns[t];
    PendingIsGenuine(hash, s, t);
    NewRowEvidence(txn.call, Home(txn.phase.decision, txn.phase.newJob), e);
    TierWithoutUrl(txn.call);
    OwnDecision(s, t, e);
    OneJobOneCandidate(s.db, e);
    NewCandidates(hash, s, t, e);
    OneJobOneCandidate(DoCommit(s, t).db, e);
    forall u, decision | u in DoCommit(s, t).txns
      ensures !Deciding(DoCommit(s, t).txns[u].phase, e, decision)
    {
      if u == t {
        CommittedIsNotDeciding(PendingOutcome(s.db, txn), e, decision);
      } else {
        NobodyElseDecides(hash, s, t, u, e, decision);
      }
    }
  }

  lemma CommittedIsNotDeciding(outcome: Outcome, e: Filter, decision: Decision)
    ensures !Deciding(Committed(outcome), e, decision)
  {
  }

  lemma PendingIsGenuine(hash: HashFunction, s: State, t: TxnId)
    requires Inv(hash, s) && t in s.txns && s.txns[t].phase.PendingNew?
    ensures Genuine(s.txns[t].call) && s.txns[t].phase.filter == TierFilter(s.txns[t].call)
    ensures s.txns[t].phase.decision == Decide(Seen(s.txns[t].phase.decision))
    ensures NaturalLock(hash, s.txns[t].call.key).Some?
    ensures s.txns[t].phase.filter.Some? ==> TierLock(hash, s.txns[t].phase.filter.value).Some?
  {
    hide Inv, ValidDb, NaturalLock, TierLock, TierFilter, ResolveIdentity, FilterCandidates, Unmatched, Seen, ExpectedLocks;
    InvGives(hash, s, t);
  }

  lemma OwnDecision(s: State, t: TxnId, e: Filter)
    requires Exclusive(s, e) && t in s.txns && s.txns[t].phase.PendingNew? && s.txns[t].phase.filter == Some(e)
    ensures Seen(s.txns[t].phase.decision) == Candidates(s.db, e)
  {
    hide OneJob, Candidates, Seen;
    assert Deciding(s.txns[t].phase, e, s.txns[t].phase.decision);
  }

  lemma NewCandidatesAre(db: Db, txn: Txn, e: Filter)
    requires CanWrite(db, txn) && txn.phase.PendingNew? && txn.phase.newJob !in db.jobs && txn.phase.newOccurrence !in db.occurrences
    ensures Candidates(CommittedDb(db, txn), e) <= Candidates(db, e) + {Home(txn.phase.decision, txn.phase.newJob)}
  {
    hide CommittedDb, NewRow, FilterMatches, CanWrite, Home;
    NewKeepsTables(db, txn);
    var home, after := Home(txn.phase.decision, txn.phase.newJob), CommittedDb(db, txn).occurrences;
    assert after[txn.phase.newOccurrence].job == home by {
      NewRowIsSeen(txn.call, home);
    }
    forall o | o in after && o != txn.phase.newOccurrence
      ensures o in db.occurrences && after[o] == db.occurrences[o]
    {
    }
  }

  // Where the new row goes is where the only candidate, if any, already is.
  lemma NewCandidates(hash: HashFunction, s: State, t: TxnId, e: Filter)
    requires Inv(hash, s) && CanCommit(s, t) && s.txns[t].phase.PendingNew?
    requires Seen(s.txns[t].phase.decision) == Candidates(s.db, e) && |Candidates(s.db, e)| <= 1
    ensures |Candidates(DoCommit(s, t).db, e)| <= 1
  {
    hide Inv, CommittedDb, PendingOutcome, CanWrite, Candidates, Seen, Decide, Home;
    var txn := s.txns[t];
    var home := Home(txn.phase.decision, txn.phase.newJob);
    PendingMayAdd(hash, s, t);
    PendingIsGenuine(hash, s, t);
    NewCandidatesAre(s.db, txn, e);
    HomeOfOne(txn.phase.decision, txn.phase.newJob);
    SubsetOfOne(Candidates(DoCommit(s, t).db, e), home);
  }

  lemma HomeOfOne(decision: Decision, newJob: JobId)
    requires decision == Decide(Seen(decision)) && |Seen(decision)| <= 1
    ensures Seen(decision) <= {Home(decision, newJob)}
  {
    hide SortedIds;
  }

  lemma SubsetOfOne(ids: set<nat>, x: nat)
    requires ids <= {x}
    ensures |ids| <= 1
  {
    assert ids == {} || ids == {x};
  }

  lemma DecidersHoldTheLock(hash: HashFunction, s: State, t: TxnId, e: Filter)
    requires Inv(hash, s) && t in s.txns && (s.txns[t].phase.Resolved? || s.txns[t].phase.PendingNew?)
    requires s.txns[t].phase.filter == Some(e)
    ensures TierLock(hash, e).Some? && Advisory(TierLock(hash, e).value) in s.txns[t].held
  {
    hide Inv, ValidDb, NaturalLock, TierLock, TierFilter, RawReady, Unmatched, Seen, FilterCandidates, Decide;
    InvGives(hash, s, t);
  }

  lemma NobodyElseDecides(hash: HashFunction, s: State, t: TxnId, u: TxnId, e: Filter, decision: Decision)
    requires Inv(hash, s) && t in s.txns && u in s.txns && t != u
    requires s.txns[t].phase.PendingNew? && s.txns[t].phase.filter == Some(e)
    ensures !Deciding(s.txns[u].phase, e, decision)
  {
    hide ValidDb, HistoryInv, PendingFresh, TxnInv, TierLock;
    DecidersHoldTheLock(hash, s, t, e);
    if Deciding(s.txns[u].phase, e, decision) {
      DecidersHoldTheLock(hash, s, u, e);
    }
  }

  // Rows holding the evidence are never lost, nor what they say of the canonical URL.
  lemma PlainBefore(db: Db, db': Db, e: Filter)
    requires Extends(db, db') && Plain(db', e)
    ensures Plain(db, e)
  {
    hide FilterMatches;
    forall o | Holds(db, e, o)
      ensures db.occurrences[o].canonicalUrl.None?
    {
      SameEvidenceHolds(db.occurrences[o], db'.occurrences[o], e);
      assert Holds(db', e, o);
    }
  }

  lemma SameEvidenceHolds(row: Occurrence, row': Occurrence, e: Filter)
    requires SameEvidence(row, row')
    ensures FilterMatches(e, row) <==> FilterMatches(e, row')
    ensures row'.canonicalUrl == row.canonicalUrl && row'.job == row.job
  {
  }

  lemma CommitKeepsExclusive(hash: HashFunction, s: State, t: TxnId, e: Filter)
    requires Inv(hash, s) && CanCommit(s, t) && Exclusive(s, e) && e.TenantRequisition? && Plain(DoCommit(s, t).db, e)
    ensures Exclusive(DoCommit(s, t), e)
  {
    hide Inv, CommittedDb, PendingOutcome, Exclusive, NewRow, FilterMatches, CanWrite, Plain;
    var txn := s.txns[t];
    if txn.phase.PendingTouch? {
      TouchKeepsExclusive(hash, s, t, e);
    } else {
      CanWriteIsPending(s.db, txn);
      var row := NewRow(txn.call, Home(txn.phase.decision, txn.phase.newJob));
      if FilterMatches(e, row) {
        PlainRow(hash, s, t, e);
        OwnNewKeepsExclusive(hash, s, t, e);
      } else {
        OtherNewKeepsExclusive(hash, s, t, e);
      }
    }
  }

  lemma PlainRow(hash: HashFunction, s: State, t: TxnId, e: Filter)
    requires Inv(hash, s) && CanCommit(s, t) && s.txns[t].phase.PendingNew? && Plain(DoCommit(s, t).db, e)
    requires FilterMatches(e, NewRow(s.txns[t].call, Home(s.txns[t].phase.decision, s.txns[t].phase.newJob)))
    ensures s.txns[t].call.posting.canonicalUrl.None?
  {
    hide Inv, CommittedDb, PendingOutcome, NewRow, CanWrite, Home, FilterMatches, ResolveIdentity;
    var txn := s.txns[t];
    PendingMayAdd(hash, s, t);
    PendingIsGenuine(hash, s, t);
    NewRowFacts(txn.call, Home(txn.phase.decision, txn.phase.newJob));
    NewRowIsPlain(s.db, txn, e);
  }

  lemma NewRowIsPlain(db: Db, txn: Txn, e: Filter)
    requires CanWrite(db, txn) && txn.phase.PendingNew? && txn.phase.newJob !in db.jobs && txn.phase.newOccurrence !in db.occurrences
    requires Plain(CommittedDb(db, txn), e) && FilterMatches(e, NewRow(txn.call, Home(txn.phase.decision, txn.phase.newJob)))
    ensures NewRow(txn.call, Home(txn.phase.decision, txn.phase.newJob)).canonicalUrl.None?
  {
    hide CommittedDb, NewRow, FilterMatches, CanWrite, Home;
    NewKeepsTables(db, txn);
    assert Holds(CommittedDb(db, txn), e, txn.phase.newOccurrence);
  }

  lemma {:induction false} PlainIsExclusive(hash: HashFunction, states: seq<State>, actions: seq<Action>, i: nat, e: Filter)
    requires Execution(hash, states, actions) && i < |states| && e.TenantRequisition? && Plain(states[i].db, e)
    ensures Exclusive(states[i], e)
  {
    hide Inv, Enabled, Next, Exclusive, Plain, Extends, DoCommit;
    if i == 0 {
      NothingIsExclusive(e);
    } else {
      var s, a := states[i - 1], actions[i - 1];
      assert Enabled(hash, s, a) && states[i] == Next(hash, s, a);
      ReachableInv(hash, states, actions, i - 1);
      StepKeepsInv(hash, s, a);
      PlainBefore(s.db, states[i].db, e);
      PlainIsExclusive(hash, states, actions, i - 1, e);
      if a.Commit? {
        CommitIsStep(hash, s, a.t);
        CommitKeepsExclusive(hash, s, a.t, e);
      } else {
        QuietKeepsExclusive(hash, s, a, e);
      }
    }
  }

  lemma CommitIsStep(hash: HashFunction, s: State, t: TxnId)
    requires Enabled(hash, s, Commit(t))
    ensures CanCommit(s, t) && Next(hash, s, Commit(t)) == DoCommit(s, t)
  {
  }

  lemma NothingIsExclusive(e: Filter)
    ensures Exclusive(INITIAL, e)
  {
  }

  /** Whenever the rows holding a tenant-requisition evidence agree on the canonical URL, they belong
      to one job: a URL is one job's, and without a URL every writer takes the evidence's lock. */
  lemma AgreeingRowsShareAJob(hash: HashFunction, s: State, e: Filter)
    requires Reachable(hash, s) && e.TenantRequisition?
    requires forall o, o' :: Holds(s.db, e, o) && Holds(s.db, e, o') ==>
      s.db.occurrences[o].canonicalUrl == s.db.occurrences[o'].canonicalUrl
    ensures OneJob(s.db, e)
  {
    hide Execution, Holds;
    if Plain(s.db, e) {
      hide Plain;
      var states, actions := RunTo(hash, s);
      PlainIsExclusive(hash, states, actions, |states| - 1, e);
    } else {
      ReachableHasInv(hash, s);
      UrlsAreOneJob(hash, s);
      RowsHeld(s.db, e);
    }
  }

  lemma UrlsAreOneJob(hash: HashFunction, s: State)
    requires Inv(hash, s)
    ensures OneJobPerCanonicalUrl(s.db)
  {
    hide ValidOccurrences, ValidJobs, UniqueNaturalKeys, OneJobPerCanonicalUrl, ValidRaws, TxnInv, HistoryInv, PendingFresh,
      LocksExclusive;
  }

  lemma RowsHeld(db: Db, e: Filter)
    ensures forall o :: Holds(db, e, o) ==> o in db.occurrences
  {
  }

  // ---------- Whose rows they are ----------

  // The transaction that created the row, and what the row has kept of its posting.
  ghost predicate CreatedBy(hash: HashFunction, s: State, t: TxnId, o: OccurrenceId) {
    && CommittedTo(s, t, o) && o in s.db.occurrences
    && Kept(hash, s.txns[t].call, s.db.occurrences[o])
  }

  ghost predicate Kept(hash: HashFunction, call: Call, row: Occurrence) {
    && Genuine(call) && NaturalLock(hash, call.key).Some?
    && (TierFilter(call).Some? ==> TierLock(hash, TierFilter(call).value).Some?)
    && Matches(call.key, row) && row.canonicalUrl == call.posting.canonicalUrl
    && forall e: Filter :: e.TenantRequisition? ==> (FilterMatches(e, row) <==> RequisitionOf(call) == Some(e))
  }

  lemma KeptStays(hash: HashFunction, call: Call, row: Occurrence, row': Occurrence)
    requires Kept(hash, call, row) && SameEvidence(row, row')
    ensures Kept(hash, call, row')
  {
    hide Matches, FilterMatches, NaturalLock, TierLock, TierFilter, RequisitionOf, Genuine;
    EvidenceDecides(call.key, CanonicalUrl(""), call, row, row');
    forall e: Filter | e.TenantRequisition?
      ensures FilterMatches(e, row') <==> RequisitionOf(call) == Some(e)
    {
      SameEvidenceHolds(row, row', e);
    }
  }

  lemma CommittedStays(hash: HashFunction, s: State, a: Action, t: TxnId)
    requires Enabled(hash, s, a) && t in s.txns && s.txns[t].phase.Committed?
    ensures t in Next(hash, s, a).txns && Next(hash, s, a).txns[t] == s.txns[t]
  {
    if Actor(a) != Some(t) {
      StepIsLocal(hash, s, a, t);
    }
  }

  lemma CreatedStays(hash: HashFunction, s: State, a: Action, t: TxnId, o: OccurrenceId)
    requires Inv(hash, s) && Enabled(hash, s, a) && CreatedBy(hash, s, t, o)
    ensures CreatedBy(hash, Next(hash, s, a), t, o)
  {
    hide Inv, Enabled, Next, Kept;
    CommittedStays(hash, s, a, t);
    StepKeepsInv(hash, s, a);
    KeptStays(hash, s.txns[t].call, s.db.occurrences[o], Next(hash, s, a).db.occurrences[o]);
  }

  lemma NewRowKeeps(hash: HashFunction, call: Call, job: JobId)
    requires Genuine(call) && NaturalLock(hash, call.key).Some?
    requires TierFilter(call).Some? ==> TierLock(hash, TierFilter(call).value).Some?
    ensures Kept(hash, call, NewRow(call, job))
  {
    hide NewRow, Matches, FilterMatches, NaturalLock, TierLock, TierFilter, RequisitionOf, ResolveIdentity;
    NewRowFacts(call, job);
    forall e: Filter | e.TenantRequisition?
      ensures FilterMatches(e, NewRow(call, job)) <==> RequisitionOf(call) == Some(e)
    {
      NewRowEvidence(call, job, e);
    }
  }

  lemma NewIsCreated(hash: HashFunction, s: State, t: TxnId)
    requires Inv(hash, s) && CanCommit(s, t) && s.txns[t].phase.PendingNew?
    ensures CreatedBy(hash, DoCommit(s, t), t, s.txns[t].phase.newOccurrence)
    ensures forall o :: o in DoCommit(s, t).db.occurrences && o !in s.db.occurrences ==> o == s.txns[t].phase.newOccurrence
  {
    hide Inv, CommittedDb, PendingOutcome, CanWrite, NewRow, Kept, Home, NaturalLock, TierLock, TierFilter, Genuine;
    var txn := s.txns[t];
    PendingAreFresh(hash, s, t);
    PendingIsGenuine(hash, s, t);
    NewOccurrences(s.db, txn);
    NewRowKeeps(hash, txn.call, Home(txn.phase.decision, txn.phase.newJob));
    OutcomeNames(s.db, txn);
  }

  lemma NewOccurrences(db: Db, txn: Txn)
    requires CanWrite(db, txn) && txn.phase.PendingNew?
    ensures CommittedDb(db, txn).occurrences
         == db.occurrences[txn.phase.newOccurrence := NewRow(txn.call, Home(txn.phase.decision, txn.phase.newJob))]
  {
    hide NewRow;
  }

  lemma PendingAreFresh(hash: HashFunction, s: State, t: TxnId)
    requires Inv(hash, s) && t in s.txns && s.txns[t].phase.PendingNew?
    ensures s.txns[t].phase.newJob !in s.db.jobs && s.txns[t].phase.newOccurrence !in s.db.occurrences
  {
    hide ValidDb, LocksExclusive, TxnInv, HistoryInv;
    assert FreshIds(s, t, s.txns[t].phase.newJob, s.txns[t].phase.newOccurrence);
  }

  lemma CommitCreates(hash: HashFunction, s: State, t: TxnId, o: OccurrenceId)
    requires Inv(hash, s) && CanCommit(s, t) && o in DoCommit(s, t).db.occurrences && o !in s.db.occurrences
    ensures CreatedBy(hash, DoCommit(s, t), t, o)
  {
    hide Inv, CommittedDb, PendingOutcome, CanWrite, CreatedBy;
    CanWriteIsPending(s.db, s.txns[t]);
    if s.txns[t].phase.PendingTouch? {
      TouchAddsNothing(s.db, s.txns[t], o);
    } else {
      NewIsCreated(hash, s, t);
    }
  }

  lemma TouchAddsNothing(db: Db, txn: Txn, o: OccurrenceId)
    requires CanWrite(db, txn) && txn.phase.PendingTouch?
    ensures o in CommittedDb(db, txn).occurrences ==> o in db.occurrences
  {
  }

  lemma OutcomeNames(db: Db, txn: Txn)
    requires CanWrite(db, txn) && txn.phase.PendingNew?
    ensures PendingOutcome(db, txn).occurrence == txn.phase.newOccurrence
  {
  }

  lemma {:induction false} RowsAreCreated(hash: HashFunction, states: seq<State>, actions: seq<Action>, i: nat, o: OccurrenceId)
    returns (t: TxnId)
    requires Execution(hash, states, actions) && i < |states| && o in states[i].db.occurrences
    ensures CreatedBy(hash, states[i], t, o)
  {
    hide Inv, Enabled, Next, CreatedBy, DoCommit;
    if i == 0 {
      assert false;
    } else {
      var s, a := states[i - 1], actions[i - 1];
      assert Enabled(hash, s, a) && states[i] == Next(hash, s, a);
      ReachableInv(hash, states, actions, i - 1);
      if o in s.db.occurrences {
        t := RowsAreCreated(hash, states, actions, i - 1, o);
        CreatedStays(hash, s, a, t, o);
      } else if a.Commit? {
        CommitIsStep(hash, s, a.t);
        CommitCreates(hash, s, a.t, o);
        t := a.t;
      } else {
        OccurrencesStay(hash, s, a);
      }
    }
  }

  // ---------- Exactly when ----------

  /** Two calls that can put the evidence on two jobs: different postings by identity and raw row, the
      same evidence, not the same canonical URL. */
  ghost predicate Splits(hash: HashFunction, c: Call, d: Call, e: Filter) {
    && Admissible(hash, c) && Admissible(hash, d) && c.rawId != d.rawId
    && RequisitionOf(c) == Some(e) && RequisitionOf(d) == Some(e)
    && c.key.WellFormed() && d.key.WellFormed() && !SameIdentity(c.key, d.key)
    && c.posting.canonicalUrl != d.posting.canonicalUrl
  }

  lemma EvidenceHasTier(call: Call)
    requires RequisitionOf(call).Some?
    ensures TierFilter(call).Some?
  {
  }

  lemma RowsOfDifferentUrls(hash: HashFunction, s: State, e: Filter, o: OccurrenceId, o': OccurrenceId, t: TxnId, u: TxnId)
    requires Inv(hash, s) && Holds(s.db, e, o) && Holds(s.db, e, o') && e.TenantRequisition?
    requires s.db.occurrences[o].canonicalUrl != s.db.occurrences[o'].canonicalUrl
    requires CreatedBy(hash, s, t, o) && CreatedBy(hash, s, u, o')
    ensures Splits(hash, s.txns[t].call, s.txns[u].call, e)
  {
    hide ValidJobs, ValidRaws, OneJobPerCanonicalUrl, TxnInv, LocksExclusive, PendingFresh, CommitRecorded, NaturalLock, TierLock,
      TierFilter, RequisitionOf, Matches, StoredForm, OwnKey, ResolveIdentity, UniqueNaturalKeys, SameIdentity;
    var c, d := s.txns[t].call, s.txns[u].call;
    EvidenceHasTier(c);
    EvidenceHasTier(d);
    WellFormedKey(hash, c.key);
    WellFormedKey(hash, d.key);
    if SameIdentity(c.key, d.key) {
      SameKeySameRow(s.db, c.key, d.key, o, o');
    }
  }

  lemma SameKeySameRow(db: Db, key: NaturalKey, key': NaturalKey, o: OccurrenceId, o': OccurrenceId)
    requires ValidOccurrences(db) && UniqueNaturalKeys(db) && key.WellFormed() && key'.WellFormed() && SameIdentity(key, key')
    requires o in db.occurrences && o' in db.occurrences
    requires Matches(key, db.occurrences[o]) && Matches(key', db.occurrences[o'])
    ensures o == o'
  {
    hide Matches, OwnKey, StoredForm;
    MatchesExactlyOwnKey(key', db.occurrences[o']);
    MatchesExactlyOwnKey(key, db.occurrences[o']);
    MatchingPair(db, key, o, o');
  }

  /** Whenever the evidence is on two jobs, two of the calls begun account for it. */
  lemma TwoJobsHaveSplitCalls(hash: HashFunction, s: State, e: Filter) returns (t: TxnId, u: TxnId)
    requires Reachable(hash, s) && e.TenantRequisition? && !OneJob(s.db, e)
    ensures t in s.txns && u in s.txns && Splits(hash, s.txns[t].call, s.txns[u].call, e)
  {
    hide Inv, OneJob, Execution, Reachable, Splits, CreatedBy;
    if forall o, o' :: Holds(s.db, e, o) && Holds(s.db, e, o') ==>
      s.db.occurrences[o].canonicalUrl == s.db.occurrences[o'].canonicalUrl {
      AgreeingRowsShareAJob(hash, s, e);
      assert false;
    } else {
      var o, o' :| Holds(s.db, e, o) && Holds(s.db, e, o')
        && s.db.occurrences[o].canonicalUrl != s.db.occurrences[o'].canonicalUrl;
      var states, actions := RunTo(hash, s);
      t := RowsAreCreated(hash, states, actions, |states| - 1, o);
      u := RowsAreCreated(hash, states, actions, |states| - 1, o');
      ReachableHasInv(hash, s);
      CreatorIsThere(hash, s, t, o);
      CreatorIsThere(hash, s, u, o');
      RowsOfDifferentUrls(hash, s, e, o, o', t, u);
    }
  }

  lemma CreatorIsThere(hash: HashFunction, s: State, t: TxnId, o: OccurrenceId)
    requires CreatedBy(hash, s, t, o)
    ensures t in s.txns
  {
    hide Kept;
  }

  lemma InsertedTables(s: State, t: TxnId, call: Call, newJob: JobId, newOccurrence: OccurrenceId)
    ensures var db := Inserted(s, t, call, newJob, newOccurrence).db;
            && db.occurrences == s.db.occurrences[newOccurrence := NewRow(call, newJob)]
            && db.jobs.Keys == s.db.jobs.Keys + {newJob} && db.raws.Keys == s.db.raws.Keys + {call.rawId}
  {
    hide NewRow, FetchedRow;
  }

  // The row of one call is no match, and no candidate, for another of a different identity and URL.
  lemma OtherRowIsNoMatch(c: Call, d: Call, job: JobId)
    requires Genuine(c) && Genuine(d) && c.key.WellFormed() && d.key.WellFormed() && !SameIdentity(c.key, d.key)
    ensures !Matches(d.key, NewRow(c, job))
  {
    hide NewRow, Matches, OwnKey, StoredForm;
    NewRowFacts(c, job);
    MatchesExactlyOwnKey(d.key, NewRow(c, job));
  }

  lemma FirstAlone(hash: HashFunction, call: Call)
    requires Admissible(hash, call)
    ensures Reachable(hash, Inserted(INITIAL, 0, call, 0, 0))
  {
    hide Reachable, Inserted, NaturalLock, TierLock, TierFilter, Genuine, Matches, FilterMatches;
    StartIsReachable(hash);
    ReachesInserted(hash, INITIAL, 0, call, 0, 0);
  }

  // The second call finds neither its own row nor a candidate, and makes a job of its own.
  lemma SecondAlone(hash: HashFunction, c: Call, d: Call)
    requires Admissible(hash, c) && Admissible(hash, d) && c.rawId != d.rawId
    requires c.key.WellFormed() && d.key.WellFormed() && !SameIdentity(c.key, d.key)
    requires d.posting.canonicalUrl.Some? && c.posting.canonicalUrl != d.posting.canonicalUrl
    ensures Reachable(hash, Inserted(Inserted(INITIAL, 0, c, 0, 0), 1, d, 1, 1))
  {
    hide Reachable, Inserted, NaturalLock, TierLock, TierFilter, Genuine, Matching, Candidates, NewRow, Matches, Free, FreshIds,
      KeyLock, OwnTierLock, SameIdentity, FetchedRow, NaturalKey.WellFormed;
    var s := Inserted(INITIAL, 0, c, 0, 0);
    FirstAlone(hash, c);
    OneRowTables(c);
    OtherRowIsNoMatch(c, d, 0);
    OneRowHasNoOtherUrl(s.db, c, d, 0, 0);
    InsertedTxns(s, c);
    ReachesInserted(hash, s, 1, d, 1, 1);
  }

  lemma OneRowTables(c: Call)
    ensures var db := Inserted(INITIAL, 0, c, 0, 0).db;
            db.occurrences == map[0 := NewRow(c, 0)] && db.jobs.Keys == {0} && db.raws.Keys == {c.rawId}
  {
    hide NewRow, FetchedRow, Inserted;
    InsertedTables(INITIAL, 0, c, 0, 0);
  }

  lemma InsertedTxns(s: State, c: Call)
    requires s == Inserted(INITIAL, 0, c, 0, 0)
    ensures 1 !in s.txns && forall lock :: Free(s, 1, lock)
    ensures s.db.jobs.Keys == {0} && s.db.occurrences.Keys == {0} ==> FreshIds(s, 1, 1, 1)
  {
    hide WriteNew, FetchedRow;
  }

  lemma OneRowHasNoOtherUrl(db: Db, c: Call, d: Call, job: JobId, o: OccurrenceId)
    requires db.occurrences == map[o := NewRow(c, job)] && Genuine(c)
    requires d.posting.canonicalUrl.Some? && c.posting.canonicalUrl != d.posting.canonicalUrl
    requires !Matches(d.key, NewRow(c, job))
    ensures TierFilter(d).Some? && Candidates(db, TierFilter(d).value) == {} && Matching(db, d.key) == {}
  {
    hide NewRow, Matches, ResolveIdentity, TierFilter, StoredForm, OwnKey;
    TierIsUrl(d);
    NewRowFacts(c, job);
    OneRowOneUrl(db, NewRow(c, job), d.key, d.posting.canonicalUrl.value, o);
  }

  lemma OneRowOneUrl(db: Db, row: Occurrence, key: NaturalKey, url: string, o: OccurrenceId)
    requires db.occurrences == map[o := row] && row.canonicalUrl != Some(url) && !Matches(key, row)
    ensures Candidates(db, CanonicalUrl(url)) == {} && Matching(db, key) == {}
  {
    hide Matches;
  }

  lemma TierIsUrl(call: Call)
    requires call.posting.canonicalUrl.Some?
    ensures TierFilter(call) == Some(CanonicalUrl(call.posting.canonicalUrl.value))
  {
  }

  lemma SplitCallsReachTwoJobs(hash: HashFunction, c: Call, d: Call, e: Filter)
    requires Splits(hash, c, d, e) && d.posting.canonicalUrl.Some? && e.TenantRequisition?
    ensures exists s :: Reachable(hash, s) && !OneJob(s.db, e) && forall t :: t in s.txns ==> s.txns[t].call in {c, d}
  {
    SecondAlone(hash, c, d);
    BothHold(c, d, e);
    BothBegun(c, d);
    hide Reachable, OneJob, Inserted;
    assert Reachable(hash, Inserted(Inserted(INITIAL, 0, c, 0, 0), 1, d, 1, 1));
  }

  lemma BothBegun(c: Call, d: Call)
    ensures var s := Inserted(Inserted(INITIAL, 0, c, 0, 0), 1, d, 1, 1);
            forall t :: t in s.txns ==> s.txns[t].call in {c, d}
  {
    hide WriteNew, FetchedRow;
  }

  lemma BothHold(c: Call, d: Call, e: Filter)
    requires Genuine(c) && Genuine(d) && RequisitionOf(c) == Some(e) && RequisitionOf(d) == Some(e) && e.TenantRequisition?
    ensures !OneJob(Inserted(Inserted(INITIAL, 0, c, 0, 0), 1, d, 1, 1).db, e)
  {
    hide NewRow, FilterMatches, Inserted, RequisitionOf, Genuine, FetchedRow;
    OneRowTables(c);
    InsertedTables(Inserted(INITIAL, 0, c, 0, 0), 1, d, 1, 1);
    NewRowEvidence(c, 0, e);
    NewRowEvidence(d, 1, e);
    NewRowIsSeen(c, 0);
    NewRowIsSeen(d, 1);
    TwoRowsTwoJobs(Inserted(Inserted(INITIAL, 0, c, 0, 0), 1, d, 1, 1).db, e, NewRow(c, 0), NewRow(d, 1));
  }

  lemma TwoRowsTwoJobs(db: Db, e: Filter, row: Occurrence, row': Occurrence)
    requires db.occurrences == map[0 := row, 1 := row'] && FilterMatches(e, row) && FilterMatches(e, row') && row.job != row'.job
    ensures !OneJob(db, e)
  {
    hide FilterMatches;
    assert Holds(db, e, 0) && Holds(db, e, 1);
  }

  // Only these calls were begun.
  ghost predicate OnlyBegun(s: State, calls: set<Call>) {
    forall t :: t in s.txns ==> s.txns[t].call in calls
  }

  /** For any set of calls, some interleaving of them puts a tenant-requisition evidence on two jobs if
      and only if two of them carry it under different identities and not the same canonical URL. */
  lemma OneJobPerRequisitionExactly(hash: HashFunction, e: Filter, calls: set<Call>)
    requires e.TenantRequisition?
    ensures (exists s :: Reachable(hash, s) && OnlyBegun(s, calls) && !OneJob(s.db, e))
       <==> (exists c, d :: c in calls && d in calls && Splits(hash, c, d, e))
  {
    hide Reachable, OneJob, Splits;
    if s :| Reachable(hash, s) && OnlyBegun(s, calls) && !OneJob(s.db, e) {
      var t, u := TwoJobsHaveSplitCalls(hash, s, e);
    }
    if c, d :| c in calls && d in calls && Splits(hash, c, d, e) {
      SplitReaches(hash, c, d, e, calls);
    }
  }

  lemma SplitReaches(hash: HashFunction, c: Call, d: Call, e: Filter, calls: set<Call>)
    requires Splits(hash, c, d, e) && e.TenantRequisition? && c in calls && d in calls
    ensures exists s :: Reachable(hash, s) && OnlyBegun(s, calls) && !OneJob(s.db, e)
  {
    hide Reachable, OneJob, NaturalLock, TierLock, TierFilter, RequisitionOf, Genuine;
    var first, second := if d.posting.canonicalUrl.Some? then c else d, if d.posting.canonicalUrl.Some? then d else c;
    assert Splits(hash, first, second, e);
    SplitCallsReachTwoJobs(hash, first, second, e);
    var s :| Reachable(hash, s) && !OneJob(s.db, e) && forall t :: t in s.txns ==> s.txns[t].call in {first, second};
    assert OnlyBegun(s, calls);
  }

  // ---------- A commit that is not serial ----------

  // Neither call's lock numbers are the other's.
  predicate LocksApart(hash: HashFunction, c: Call, d: Call)
    requires Admissible(hash, c) && Admissible(hash, d)
  {
    {KeyLock(hash, c), OwnTierLock(hash, c)} !! {KeyLock(hash, d), OwnTierLock(hash, d)}
  }

  // The first call has decided on the evidence; the second, with a URL, has committed meanwhile.
  function Overtaken(hash: HashFunction, d: Call, c: Call): State
    requires Admissible(hash, d)
  {
    Inserted(Inserting(hash, INITIAL, 0, d, 0, 0), 1, c, 1, 1)
  }

  lemma OvertakenIsReachable(hash: HashFunction, d: Call, c: Call)
    requires Admissible(hash, c) && Admissible(hash, d) && c.rawId != d.rawId && LocksApart(hash, c, d)
    ensures Reachable(hash, Overtaken(hash, d, c))
  {
    hide Reachable, NaturalLock, TierLock, TierFilter, Genuine, Matches, FilterMatches, FetchedRow;
    StartIsReachable(hash);
    ReachesInserting(hash, INITIAL, 0, d, 0, 0);
    ReachesInserted(hash, Inserting(hash, INITIAL, 0, d, 0, 0), 1, c, 1, 1);
  }

  /** Two calls with the same evidence, only the second with a canonical URL: the first can decide, the
      second commit, and then the first's commit is not what the call would do alone. */
  lemma TierThreeCommitsMayNotBeSerial(hash: HashFunction, d: Call, c: Call, e: Filter)
    requires Splits(hash, c, d, e) && e.TenantRequisition? && LocksApart(hash, c, d) && d.posting.canonicalUrl.None?
    ensures var s := Overtaken(hash, d, c);
            && Reachable(hash, s) && Enabled(hash, s, Commit(0)) && 0 in s.txns
            && s.txns[0].phase.PendingNew? && s.txns[0].phase.filter == Some(e)
            && !UpToDate(s.db, s.txns[0].phase) && !CommittedAsAlone(hash, s, Next(hash, s, Commit(0)), 0)
  {
    var s := Overtaken(hash, d, c);
    OvertakenIsReachable(hash, d, c);
    TierWithoutUrl(d);
    OvertakenTables(hash, d, c, e);
    ReachableHasInv(hash, s);
    CommittedAsAloneExactly(hash, s, 0);
  }

  lemma OvertakenTables(hash: HashFunction, d: Call, c: Call, e: Filter)
    requires Admissible(hash, d) && Admissible(hash, c) && RequisitionOf(c) == Some(e) && e.TenantRequisition?
    requires TierFilter(d) == Some(e)
    ensures var s := Overtaken(hash, d, c);
            && Enabled(hash, s, Commit(0)) && 0 in s.txns && s.txns[0].phase.PendingNew? && s.txns[0].phase.filter == Some(e)
            && !UpToDate(s.db, s.txns[0].phase)
  {
    hide NewRow, FilterMatches, RequisitionOf, NaturalLock, TierLock, TierFilter, Genuine, Overtaken, Inserting, FetchedRow,
      Inserted, Candidates;
    var pending := Inserting(hash, INITIAL, 0, d, 0, 0);
    InsertedTables(pending, 1, c, 1, 1);
    NewRowEvidence(c, 1, e);
    NewRowIsSeen(c, 1);
    OvertakenTxn(hash, d, c);
    var s := Overtaken(hash, d, c);
    RowIsCandidate(s.db, e, 1);
    PendingInsertCommits(s, 0, e);
  }

  lemma RowIsCandidate(db: Db, e: Filter, o: OccurrenceId)
    requires Holds(db, e, o)
    ensures Candidates(db, e) != {}
  {
    hide FilterMatches;
    assert db.occurrences[o].job in Candidates(db, e);
  }

  lemma PendingInsertCommits(s: State, t: TxnId, e: Filter)
    requires t in s.txns && s.txns[t].phase == PendingNew(Some(e), Insert, 0, None, 0, 0) && s.txns[t].call.rawId in s.db.raws
    ensures CanCommit(s, t)
    ensures Candidates(s.db, e) != {} ==> !UpToDate(s.db, s.txns[t].phase)
  {
    hide Candidates;
  }

  lemma OvertakenTxn(hash: HashFunction, d: Call, c: Call)
    requires Admissible(hash, d)
    ensures var s := Overtaken(hash, d, c);
            && s.db == Inserted(Inserting(hash, INITIAL, 0, d, 0, 0), 1, c, 1, 1).db
            && 0 in s.txns && s.txns[0].call == d && d.rawId in s.db.raws
            && s.txns[0].phase == PendingNew(TierFilter(d), Insert, 0, None, 0, 0)
  {
    hide NaturalLock, TierLock, TierFilter, Genuine, FetchedRow, NewRow, WriteNew;
    InsertedTables(Inserting(hash, INITIAL, 0, d, 0, 0), 1, c, 1, 1);
  }

  // ---------- It happens ----------

  // A posting with tenant and requisition, and perhaps a canonical URL.
  function Sample(raw: RawId, id: char, url: Option<NormalizedUrl>): Call {
    Call(NaturalKey(Tenant, "p", "s", Some("t"), Some([id]), None),
         Posting("p", "s", Some("t"), Some([id]), Some("r"), None, url, "h", 0), 0, raw)
  }

  const SHARED := TenantRequisition("p", "s", "t", "r")

  lemma OneLetter(c: char)
    requires !IsCovered(c) && !('A' <= c <= 'Z')
    ensures CanonicalizeIdentifier([c]) == [c] && CanonicalizeNullableText(Some([c])) == Some([c])
  {
    assert TrimRight([c]) == [c] && TrimLeft([c]) == [c];
    assert Lower([c])[0] == c;
  }

  lemma SampleIsGenuine(raw: RawId, id: char, url: Option<NormalizedUrl>)
    requires id == 'x' || id == 'y'
    ensures Genuine(Sample(raw, id, url)) && RequisitionOf(Sample(raw, id, url)) == Some(SHARED)
  {
    hide Trim, Lower;
    OneLetter('p');
    OneLetter('s');
    OneLetter('t');
    OneLetter('r');
    OneLetter(id);
  }

  lemma ShortIsEncodable(components: seq<string>)
    requires forall i :: 0 <= i < |components| ==> |components[i]| <= 1
    ensures Encodable(components)
  {
    forall i | 0 <= i < |components|
      ensures |Utf8(components[i])| < LENGTH_LIMIT
    {
      if components[i] != [] {
        assert components[i][1..] == [];
      }
    }
  }

  lemma SampleKey(raw: RawId, id: char, url: Option<NormalizedUrl>)
    ensures var key := Sample(raw, id, url).key;
            key.WellFormed() && key.Components() == ["p", "s", "t", [id]] && Encodable(key.Components())
  {
    hide Encodable;
    ShortIsEncodable(["p", "s", "t", [id]]);
  }

  lemma SampleTier(raw: RawId, id: char, url: Option<NormalizedUrl>)
    requires (id == 'x' || id == 'y') && (url.Some? ==> |url.value| <= 1)
    ensures TierFilter(Sample(raw, id, url)) == Some(if url.Some? then CanonicalUrl(url.value) else SHARED)
    ensures TierBytes(if url.Some? then CanonicalUrl(url.value) else SHARED).Some?
  {
    hide TierFilter, RequisitionOf, Encodable, Genuine;
    SampleIsGenuine(raw, id, url);
    ShortIsEncodable(["p", "s", "t", "r"]);
    if url.None? {
      TierWithoutUrl(Sample(raw, id, url));
    } else {
      TierIsUrl(Sample(raw, id, url));
      ShortIsEncodable([url.value]);
    }
  }

  lemma SampleIsAdmissible(hash: HashFunction, raw: RawId, id: char, url: Option<NormalizedUrl>)
    requires (id == 'x' || id == 'y') && (url.Some? ==> |url.value| <= 1)
    ensures Admissible(hash, Sample(raw, id, url)) && RequisitionOf(Sample(raw, id, url)) == Some(SHARED)
  {
    hide Genuine, Encodable, TierFilter, RequisitionOf, TierBytes, Sample;
    SampleIsGenuine(raw, id, url);
    SampleKey(raw, id, url);
    SampleTier(raw, id, url);
  }

  lemma SamplesDiffer()
    ensures Sample(0, 'x', None).key.WellFormed() && Sample(1, 'y', Some("u")).key.WellFormed()
    ensures !SameIdentity(Sample(0, 'x', None).key, Sample(1, 'y', Some("u")).key)
    ensures !SameIdentity(Sample(1, 'y', Some("u")).key, Sample(0, 'x', None).key)
  {
    hide Sample, Encodable;
    SampleKey(0, 'x', None);
    SampleKey(1, 'y', Some("u"));
    assert ["p", "s", "t", "x"][3] != ["p", "s", "t", "y"][3];
  }

  lemma SamplesSplit(hash: HashFunction)
    ensures Splits(hash, Sample(1, 'y', Some("u")), Sample(0, 'x', None), SHARED)
    ensures Splits(hash, Sample(0, 'x', None), Sample(1, 'y', Some("u")), SHARED)
  {
    hide Admissible, RequisitionOf, SameIdentity;
    SampleIsAdmissible(hash, 0, 'x', None);
    SampleIsAdmissible(hash, 1, 'y', Some("u"));
    SamplesDiffer();
  }

  /** Whatever the hash, two jobs can come to hold one tenant-requisition evidence. */
  lemma TwoJobsHappen(hash: HashFunction)
    ensures exists s :: Reachable(hash, s) && !OneJob(s.db, SHARED)
  {
    hide Reachable, OneJob, Splits;
    SamplesSplit(hash);
    SplitCallsReachTwoJobs(hash, Sample(0, 'x', None), Sample(1, 'y', Some("u")), SHARED);
  }

  function Digested(first: Byte): Digest {
    [first] + seq(31, _ => 0)
  }

  lemma DigestsDiffer(a: Byte, b: Byte)
    requires a != b
    ensures LockNumber(Digested(a)) != LockNumber(Digested(b))
  {
    hide LockNumber;
    LockNumberBijection(Digested(a), Digested(b), 0);
    assert Digested(a)[..8][0] == a && Digested(b)[..8][0] == b;
  }

  // Some hash gives two encodable calls of different identity and tier evidence unrelated lock numbers.
  lemma SomeHashKeepsApart(c: Call, d: Call) returns (hash: HashFunction)
    requires Genuine(c) && Genuine(d) && c.key.WellFormed() && d.key.WellFormed()
    requires Encodable(c.key.Components()) && Encodable(d.key.Components())
    requires TierFilter(c).Some? && TierBytes(TierFilter(c).value).Some?
    requires TierFilter(d).Some? && TierBytes(TierFilter(d).value).Some?
    requires !SameIdentity(c.key, d.key) && TierBytes(TierFilter(c).value) != TierBytes(TierFilter(d).value)
    ensures Admissible(hash, c) && Admissible(hash, d) && LocksApart(hash, c, d)
  {
    hide TierFilter, TierBytes, SameIdentity, LockNumber, Digested, ResolveIdentity;
    var key, tier := c.key.CanonicalBytes(), TierBytes(TierFilter(c).value).value;
    hash := bytes => if bytes == key || bytes == tier then Digested(0) else Digested(1);
    DigestsDiffer(0, 1);
    CanonicalBytesInjective(c.key, d.key);
    KeyBytesAreNotTierBytes(d.key, TierFilter(c).value);
    KeyBytesAreNotTierBytes(c.key, TierFilter(d).value);
  }

  /** And a commit under the tenant-requisition tier need not be serial. */
  lemma NonSerialCommitsHappen()
    ensures exists hash, s :: Reachable(hash, s) && Enabled(hash, s, Commit(0)) && !CommittedAsAlone(hash, s, Next(hash, s, Commit(0)), 0)
  {
    var c, d := Sample(1, 'y', Some("u")), Sample(0, 'x', None);
    SamplesAreEncodable();
    SampleIsGenuine(1, 'y', Some("u"));
    SampleIsGenuine(0, 'x', None);
    hide Genuine, Reachable, Splits, LocksApart, Enabled, CommittedAsAlone, Next, Overtaken;
    var hash := SomeHashKeepsApart(c, d);
    SamplesSplit(hash);
    TierThreeCommitsMayNotBeSerial(hash, d, c, SHARED);
  }

  lemma SamplesAreEncodable()
    ensures var c, d := Sample(1, 'y', Some("u")), Sample(0, 'x', None);
            && Encodable(c.key.Components()) && Encodable(d.key.Components()) && !SameIdentity(c.key, d.key)
            && TierFilter(c).Some? && TierBytes(TierFilter(c).value).Some?
            && TierFilter(d).Some? && TierBytes(TierFilter(d).value).Some?
            && TierBytes(TierFilter(c).value) != TierBytes(TierFilter(d).value)
  {
    hide Encodable, Sample, TierFilter, TierBytes, SameIdentity;
    SampleKey(1, 'y', Some("u"));
    SampleKey(0, 'x', None);
    SampleTier(1, 'y', Some("u"));
    SampleTier(0, 'x', None);
    SamplesDiffer();
    SharedIsNoUrl(Sample(0, 'x', None).key);
  }

  lemma SharedIsNoUrl(key: NaturalKey)
    requires key.WellFormed() && Encodable(key.Components())
    ensures TierBytes(CanonicalUrl("u")) != TierBytes(SHARED)
  {
    hide Encodable;
    ShortIsEncodable(["u"]);
    ShortIsEncodable(["p", "s", "t", "r"]);
    TierBytesInjective(key, "u", "u", ["p", "s", "t", "r"], ["p", "s", "t", "r"]);
  }
}
