/** The guarantees read off the invariant, each for every execution and every state in it. */
module ProtocolGuarantees {
  import opened Options
  import opened NaturalKeys
  import opened Ingestion
  import opened TableWrites
  import opened Protocol
  import opened ProtocolInvariant
  import opened ProtocolCommit
  import opened ProtocolTheorems
  import opened ProtocolRuns

  /** All committed occurrences with one canonical URL belong to one job, so no posting with a
      usable canonical URL ever meets, or is committed with, an ambiguity. */
  lemma OneJobPerUrl(hash: HashFunction, states: seq<State>, actions: seq<Action>, i: nat)
    requires Execution(hash, states, actions) && i < |states|
    ensures OneJobPerCanonicalUrl(states[i].db)
    ensures forall t :: t in states[i].txns && states[i].txns[t].call.posting.canonicalUrl.Some? ==>
      var phase := states[i].txns[t].phase;
      && !phase.ProbedMany?
      && (phase.Committed? ==> phase.outcome.kind != AMBIGUOUS)
      && (phase.PendingNew? ==> !phase.decision.Ambiguous?)
  {
    hide Execution, Inv;
    ReachableInv(hash, states, actions, i);
    UrlsInState(hash, states[i]);
  }

  lemma UrlMeetsNoTie(hash: HashFunction, s: State, t: TxnId)
    requires Inv(hash, s) && t in s.txns && s.txns[t].call.posting.canonicalUrl.Some?
    ensures !s.txns[t].phase.ProbedMany?
  {
    hide ValidOccurrences, ValidJobs, UniqueNaturalKeys, ValidRaws, PendingFresh, RawReady, NaturalLock, TierLock,
      OneJobPerCanonicalUrl, Decided, HistoryInv, Candidates, Unmatched, ExpectedLocks, FoundAt, LocksExclusive;
    assert TxnInv(hash, s.db, s.txns[t]);
    CanonicalCandidatesAtMostOne(s.db, s.txns[t].call.posting.canonicalUrl.value);
  }

  lemma UrlCommitsNoTie(hash: HashFunction, s: State, t: TxnId)
    requires Inv(hash, s) && t in s.txns && s.txns[t].call.posting.canonicalUrl.Some? && s.txns[t].phase.Committed?
    ensures s.txns[t].phase.outcome.kind != AMBIGUOUS
  {
    hide ValidDb, PendingFresh, TxnInv, LocksExclusive, Evidenced;
  }

  lemma UrlsInState(hash: HashFunction, s: State)
    requires Inv(hash, s)
    ensures OneJobPerCanonicalUrl(s.db)
    ensures forall t :: t in s.txns && s.txns[t].call.posting.canonicalUrl.Some? ==>
      var phase := s.txns[t].phase;
      && !phase.ProbedMany?
      && (phase.Committed? ==> phase.outcome.kind != AMBIGUOUS)
      && (phase.PendingNew? ==> !phase.decision.Ambiguous?)
  {
    hide ValidOccurrences, ValidJobs, UniqueNaturalKeys, ValidRaws, PendingFresh, OneJobPerCanonicalUrl, TxnInv,
      HistoryInv, LocksExclusive;
    forall t | t in s.txns && s.txns[t].call.posting.canonicalUrl.Some?
      ensures !s.txns[t].phase.ProbedMany?
      ensures s.txns[t].phase.Committed? ==> s.txns[t].phase.outcome.kind != AMBIGUOUS
      ensures s.txns[t].phase.PendingNew? ==> !s.txns[t].phase.decision.Ambiguous?
    {
      UrlMeetsNoTie(hash, s, t);
      if s.txns[t].phase.Committed? {
        UrlCommitsNoTie(hash, s, t);
      }
      if s.txns[t].phase.PendingNew? {
        PendingCanonicalHome(hash, s, t);
      }
    }
  }

  /** At most one committed occurrence matches any natural key, and the rows that match are
      exactly those whose own key it is. */
  lemma OneOccurrencePerKey(hash: HashFunction, states: seq<State>, actions: seq<Action>, i: nat, key: NaturalKey)
    requires Execution(hash, states, actions) && i < |states| && key.WellFormed()
    ensures |Matching(states[i].db, key)| <= 1
    ensures forall o :: o in states[i].db.occurrences ==>
      var own := OwnKey(states[i].db.occurrences[o]);
      own.Some? && (o in Matching(states[i].db, key) <==> SameIdentity(own.value, key))
  {
    hide Execution, Inv, Matching, OwnKey, SameIdentity, ValidDb;
    ReachableInv(hash, states, actions, i);
    InvGivesDb(hash, states[i]);
    KeysInDb(states[i].db, key);
  }

  lemma KeysInDb(db: Db, key: NaturalKey)
    requires ValidDb(db) && key.WellFormed()
    ensures |Matching(db, key)| <= 1
    ensures forall o :: o in db.occurrences ==>
      var own := OwnKey(db.occurrences[o]);
      own.Some? && (o in Matching(db, key) <==> SameIdentity(own.value, key))
  {
    hide Matches, SameIdentity, UniqueNaturalKeys, StoredForm, ValidJobs, ValidRaws, OneJobPerCanonicalUrl;
    MatchingAtMostOne(db, key);
    forall o | o in db.occurrences
      ensures OwnKey(db.occurrences[o]).Some?
      ensures Matches(key, db.occurrences[o]) <==> SameIdentity(OwnKey(db.occurrences[o]).value, key)
    {
      MatchesExactlyOwnKey(key, db.occurrences[o]);
    }
  }

  lemma InvGivesDb(hash: HashFunction, s: State)
    requires Inv(hash, s)
    ensures ValidDb(s.db)
  {
    hide ValidDb, TxnInv, HistoryInv, PendingFresh;
  }

  /** Between any two states of an execution the tables only extend: no occurrence is deleted,
      re-keyed or moved to another job, a raw row that has left `fetched` keeps its status,
      a linked raw row never changes, and conflict rows are only appended. */
  lemma {:induction false} TablesOnlyExtend(hash: HashFunction, states: seq<State>, actions: seq<Action>, i: nat, j: nat)
    requires Execution(hash, states, actions) && i <= j < |states|
    ensures Extends(states[i].db, states[j].db)
  {
    hide Inv, Enabled, Next, Extends;
    if i == j {
      ExtendsReflexive(states[i].db);
    } else {
      TablesOnlyExtend(hash, states, actions, i, j - 1);
      ReachableInv(hash, states, actions, j - 1);
      StepKeepsInv(hash, states[j - 1], actions[j - 1]);
      ExtendsTransitive(states[i].db, states[j - 1].db, states[j].db);
    }
  }

  /** No transaction ever fails for instability or for multiple matches, and every committed
      outcome is well formed: candidates are carried exactly when ambiguous, two or more,
      distinct and sorted. */
  lemma NeverUnstable(hash: HashFunction, states: seq<State>, actions: seq<Action>, i: nat, t: TxnId)
    requires Execution(hash, states, actions) && i < |states| && t in states[i].txns
    ensures var phase := states[i].txns[t].phase;
            && (phase.Failed? ==> phase.error != Unstable && phase.error != MultipleOccurrences)
            && (phase.Committed? ==> phase.outcome.Valid())
  {
    hide Execution, Matches, ValidDb, PendingFresh, RawReady;
    ReachableInv(hash, states, actions, i);
    assert TxnInv(hash, states[i].db, states[i].txns[t]);
  }

  /** Each job's last sighting is the maximum of its occurrences' last sightings, no row is first
      seen after it is last seen, and raw rows and conflict rows correspond: a raw row is in
      conflict exactly when one conflict row, and only one, references it. */
  lemma SightingsAndConflicts(hash: HashFunction, states: seq<State>, actions: seq<Action>, i: nat)
    requires Execution(hash, states, actions) && i < |states|
    ensures var db := states[i].db;
            && (forall o :: o in db.occurrences ==>
                  var row := db.occurrences[o];
                  row.job in db.jobs && row.firstSeen <= row.lastSeen <= db.jobs[row.job].lastSeen)
            && (forall j :: j in db.jobs ==>
                  db.jobs[j].firstSeen <= db.jobs[j].lastSeen
                  && exists o :: o in db.occurrences && db.occurrences[o].job == j
                                 && db.occurrences[o].lastSeen == db.jobs[j].lastSeen)
            && ValidRaws(db)
  {
    hide Execution, Inv, ValidRaws, StoredForm;
    ReachableInv(hash, states, actions, i);
    InvGivesDb(hash, states[i]);
  }

  // ---------- Order of observations ----------

  // Some committed transaction observed this key at this time.
  ghost predicate Observed(s: State, key: NaturalKey, time: Time)
    requires key.WellFormed()
  {
    exists t :: t in s.txns && s.txns[t].phase.Committed? && s.txns[t].call.key.WellFormed()
      && SameIdentity(s.txns[t].call.key, key) && s.txns[t].call.observedAt == time
  }

  // An occurrence's last sighting is the latest committed observation of its key.
  lemma LastSeenIsLatest(hash: HashFunction, s: State, key: NaturalKey, o: OccurrenceId)
    requires Inv(hash, s) && key.WellFormed() && o in Matching(s.db, key)
    ensures Observed(s, key, s.db.occurrences[o].lastSeen)
    ensures forall time :: Observed(s, key, time) ==> time <= s.db.occurrences[o].lastSeen
  {
    hide Matches, TxnInv, PendingFresh, StoredForm, SameIdentity, ValidJobs, ValidRaws, OneJobPerCanonicalUrl, UniqueNaturalKeys;
    var db := s.db;
    var row := db.occurrences[o];
    MatchesExactlyOwnKey(key, row);
    var t :| CommittedTo(s, t, o) && s.txns[t].call.observedAt == row.lastSeen;
    assert CommitRecorded(db, s.txns[t].call, s.txns[t].phase.outcome);
    MatchesExactlyOwnKey(s.txns[t].call.key, row);
    SameIdentityJoins(OwnKey(row).value, s.txns[t].call.key, key);
    forall time | Observed(s, key, time)
      ensures time <= row.lastSeen
    {
      var u :| u in s.txns && s.txns[u].phase.Committed? && s.txns[u].call.key.WellFormed()
        && SameIdentity(s.txns[u].call.key, key) && s.txns[u].call.observedAt == time;
      assert CommitRecorded(db, s.txns[u].call, s.txns[u].phase.outcome);
      var row' := db.occurrences[s.txns[u].phase.outcome.occurrence];
      MatchesExactlyOwnKey(s.txns[u].call.key, row');
      SameIdentityChains(OwnKey(row').value, s.txns[u].call.key, key);
      MatchesExactlyOwnKey(key, row');
      MatchingPair(db, key, o, s.txns[u].phase.outcome.occurrence);
    }
  }

  lemma SameIdentityJoins(own: NaturalKey, a: NaturalKey, b: NaturalKey)
    requires own.WellFormed() && a.WellFormed() && b.WellFormed() && SameIdentity(own, a) && SameIdentity(own, b)
    ensures SameIdentity(a, b)
  {
  }

  lemma SameIdentityChains(a: NaturalKey, b: NaturalKey, c: NaturalKey)
    requires a.WellFormed() && b.WellFormed() && c.WellFormed() && SameIdentity(a, b) && SameIdentity(b, c)
    ensures SameIdentity(a, c)
  {
  }

  /** Two executions that committed the same observations of a key, in whatever order and
      interleaving, end with the same last sighting of it. */
  lemma LastSeenIsOrderFree(
    hash: HashFunction, states: seq<State>, actions: seq<Action>, i: nat, o: OccurrenceId,
    states': seq<State>, actions': seq<Action>, i': nat, o': OccurrenceId, key: NaturalKey)
    requires Execution(hash, states, actions) && i < |states| && Execution(hash, states', actions') && i' < |states'|
    requires key.WellFormed() && o in Matching(states[i].db, key) && o' in Matching(states'[i'].db, key)
    requires forall time :: Observed(states[i], key, time) <==> Observed(states'[i'], key, time)
    ensures states[i].db.occurrences[o].lastSeen == states'[i'].db.occurrences[o'].lastSeen
  {
    hide Execution, Inv, Matches, Observed;
    ReachableInv(hash, states, actions, i);
    ReachableInv(hash, states', actions', i');
    LastSeenIsLatest(hash, states[i], key, o);
    LastSeenIsLatest(hash, states'[i'], key, o');
  }

  /** An occurrence's first sighting is the observation of a transaction that created it: the
      first one processed, not the earliest one observed. */
  lemma FirstSeenIsTheCreators(hash: HashFunction, states: seq<State>, actions: seq<Action>, i: nat, o: OccurrenceId)
    requires Execution(hash, states, actions) && i < |states| && o in states[i].db.occurrences
    ensures exists t :: CommittedTo(states[i], t, o) && Creates(states[i].txns[t].phase.outcome.kind)
                        && states[i].txns[t].call.observedAt == states[i].db.occurrences[o].firstSeen
  {
    hide Execution, TxnInv, ValidDb, PendingFresh, CommitRecorded;
    ReachableInv(hash, states, actions, i);
  }

  // ---------- Raw rows ----------

  // A call that got nowhere: not started, abandoned, or refused for its raw row.
  predicate Refused(txn: Txn, call: Call) {
    txn.call == call && txn.held == {}
    && (txn.phase.Started? || txn.phase.RolledBack? || txn.phase == Failed(InvalidAssociation))
  }

  lemma RefusedStep(hash: HashFunction, s: State, a: Action, t: TxnId, call: Call)
    requires Enabled(hash, s, a) && t in s.txns && Refused(s.txns[t], call)
    requires call.rawId in s.db.raws && s.db.raws[call.rawId].status != Fetched
    ensures t in Next(hash, s, a).txns && Refused(Next(hash, s, a).txns[t], call)
    ensures Actor(a) == Some(t) ==> Next(hash, s, a).db == s.db
  {
    if Actor(a) != Some(t) {
      StepIsLocal(hash, s, a, t);
    } else {
      hide LimitTwo, Candidates, Decide, Matching, NaturalLock, TierLock, TierFilter, FreshIds;
    }
  }

  /** A repeat call: begun when its raw row has already left `fetched`, a transaction never gets past
      the association check, holds no lock, and none of its steps changes a table. */
  lemma {:induction false} FinishedRawIsRefused(hash: HashFunction, states: seq<State>, actions: seq<Action>, i: nat, j: nat,
                                                t: TxnId, call: Call)
    requires Execution(hash, states, actions) && i < j < |states| && actions[i] == Begin(t, call)
    requires call.rawId in states[i].db.raws && states[i].db.raws[call.rawId].status != Fetched
    ensures t in states[j].txns && Refused(states[j].txns[t], call)
    ensures j < |actions| && Actor(actions[j]) == Some(t) ==> states[j + 1].db == states[j].db
  {
    hide Enabled, Next, Refused, Extends;
    if j == i + 1 {
      BeginIsRefused(hash, states[i], t, call);
    } else {
      FinishedRawIsRefused(hash, states, actions, i, j - 1, t, call);
      RawStays(hash, states, actions, i, j - 1, call.rawId);
      RefusedStep(hash, states[j - 1], actions[j - 1], t, call);
    }
    if j < |actions| {
      RawStays(hash, states, actions, i, j, call.rawId);
      RefusedStep(hash, states[j], actions[j], t, call);
    }
  }

  lemma BeginIsRefused(hash: HashFunction, s: State, t: TxnId, call: Call)
    requires Enabled(hash, s, Begin(t, call))
    ensures t in Next(hash, s, Begin(t, call)).txns && Refused(Next(hash, s, Begin(t, call)).txns[t], call)
  {
  }

  lemma RawStays(hash: HashFunction, states: seq<State>, actions: seq<Action>, i: nat, j: nat, raw: RawId)
    requires Execution(hash, states, actions) && i <= j < |states|
    requires raw in states[i].db.raws && states[i].db.raws[raw].status != Fetched
    ensures raw in states[j].db.raws && states[j].db.raws[raw].status != Fetched
  {
    hide Execution;
    TablesOnlyExtend(hash, states, actions, i, j);
  }

  /** Every committed transaction has a raw row of its own, linked to the occurrence it resolved
      to and in conflict exactly for the two conflicting outcomes. */
  lemma CommitsOwnTheirRawRows(hash: HashFunction, states: seq<State>, actions: seq<Action>, i: nat, t: TxnId, u: TxnId)
    requires Execution(hash, states, actions) && i < |states|
    requires t in states[i].txns && states[i].txns[t].phase.Committed?
    requires u in states[i].txns && states[i].txns[u].phase.Committed?
    ensures var s := states[i];
            var raw := s.txns[t].call.rawId;
            var outcome := s.txns[t].phase.outcome;
            && raw in s.db.raws && s.db.raws[raw].occurrence == Some(outcome.occurrence)
            && s.db.raws[raw].status ==
                 (if outcome.kind == QUARANTINED || outcome.kind == AMBIGUOUS then IdentityConflict else Normalized)
            && (t != u ==> raw != s.txns[u].call.rawId)
  {
    hide Execution, TxnInv, ValidDb, PendingFresh, Matches;
    ReachableInv(hash, states, actions, i);
    assert CommitRecorded(states[i].db, states[i].txns[t].call, states[i].txns[t].phase.outcome);
  }

  /** Every committed outcome stays evidenced for good: its occurrence is active, a quarantine keeps the
      two really different URLs in a conflict row, an ambiguity keeps its list of other existing
      jobs, and every other outcome's occurrence agrees with its posting's URL. */
  lemma CommitsLeaveEvidence(hash: HashFunction, states: seq<State>, actions: seq<Action>, i: nat, t: TxnId)
    requires Execution(hash, states, actions) && i < |states|
    requires t in states[i].txns && states[i].txns[t].phase.Committed?
    ensures var s := states[i];
            var outcome := s.txns[t].phase.outcome;
            && outcome.Valid() && outcome.occurrence in s.db.occurrences
            && s.db.occurrences[outcome.occurrence].active
            && Matches(s.txns[t].call.key, s.db.occurrences[outcome.occurrence])
            && Evidenced(s.db, s.txns[t].call, outcome)
  {
    hide Execution, TxnInv, ValidDb, PendingFresh, Matches, Evidenced;
    ReachableInv(hash, states, actions, i);
    assert CommitRecorded(states[i].db, states[i].txns[t].call, states[i].txns[t].phase.outcome);
  }
}
