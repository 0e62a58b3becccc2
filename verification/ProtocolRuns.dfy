/** Building executions, and what a single step can and cannot touch. */
module ProtocolRuns {
  import opened Options
  import opened NaturalKeys
  import opened Ingestion
  import opened TableWrites
  import opened Protocol
  import opened ProtocolInvariant
  import opened ProtocolCommit
  import opened ProtocolTheorems

  ghost predicate Reachable(hash: HashFunction, s: State) {
    exists states: seq<State>, actions: seq<Action> ::
      Execution(hash, states, actions) && states[|states| - 1] == s
  }

  lemma StartIsReachable(hash: HashFunction)
    ensures Reachable(hash, INITIAL)
  {
    assert Execution(hash, [INITIAL], []);
  }

  lemma ReachableStep(hash: HashFunction, s: State, a: Action)
    requires Reachable(hash, s) && Enabled(hash, s, a)
    ensures Reachable(hash, Next(hash, s, a))
  {
    hide Enabled, Next;
    var states: seq<State>, actions: seq<Action> :| Execution(hash, states, actions) && states[|states| - 1] == s;
    var states', actions' := states + [Next(hash, s, a)], actions + [a];
    forall i | 0 <= i < |actions'|
      ensures Enabled(hash, states'[i], actions'[i]) && states'[i + 1] == Next(hash, states'[i], actions'[i])
    {
      if i < |actions| {
        assert states'[i] == states[i] && states'[i + 1] == states[i + 1] && actions'[i] == actions[i];
      }
    }
    assert Execution(hash, states', actions');
  }

  lemma RunTo(hash: HashFunction, s: State) returns (states: seq<State>, actions: seq<Action>)
    requires Reachable(hash, s)
    ensures Execution(hash, states, actions) && |states| == |actions| + 1 && states[|states| - 1] == s
  {
    hide Enabled, Next;
    states, actions :| Execution(hash, states, actions) && states[|states| - 1] == s;
  }

  lemma ReachableHasInv(hash: HashFunction, s: State)
    requires Reachable(hash, s)
    ensures Inv(hash, s)
  {
    hide Inv, Execution, Reachable;
    var states, actions := RunTo(hash, s);
    ReachableInv(hash, states, actions, |states| - 1);
  }

  // ---------- One step ----------

  // Whose statement an action is, if any transaction's.
  function Actor(a: Action): Option<TxnId> {
    if a.WriteFetched? || a.MarkParseError? then None else Some(a.t)
  }

  predicate ChangesTables(a: Action) {
    a.WriteFetched? || a.MarkParseError? || a.Commit?
  }

  /** A step touches its own transaction only. */
  lemma StepIsLocal(hash: HashFunction, s: State, a: Action, t: TxnId)
    requires Enabled(hash, s, a) && t in s.txns && Actor(a) != Some(t)
    ensures t in Next(hash, s, a).txns && Next(hash, s, a).txns[t] == s.txns[t]
  {
    hide CommittedDb, PendingOutcome, LimitTwo, NaturalLock, TierLock, TierFilter, Matching, Candidates, AssociationValid,
      FreshIds, CanWrite, CanMarkParseError, MarkedParseError, FetchedRow, IsMismatch;
  }

  // No call is ever replaced.
  lemma StepKeepsCall(hash: HashFunction, s: State, a: Action, t: TxnId)
    requires Enabled(hash, s, a) && t in s.txns
    ensures t in Next(hash, s, a).txns && Next(hash, s, a).txns[t].call == s.txns[t].call
  {
    hide CommittedDb, PendingOutcome, LimitTwo, NaturalLock, TierLock, TierFilter, Matching, Candidates, AssociationValid,
      FreshIds, CanWrite, CanMarkParseError, MarkedParseError, FetchedRow, IsMismatch;
  }

  // Of a transaction's statements only its commit changes a table.
  lemma StepChangesNothing(hash: HashFunction, s: State, a: Action)
    requires Enabled(hash, s, a) && !ChangesTables(a)
    ensures Next(hash, s, a).db == s.db
  {
    hide NaturalLock, TierLock, TierFilter, Matching, Candidates, AssociationValid, FreshIds, CanWrite, IsMismatch;
  }

  // Transactions appear only by being begun.
  lemma StepBegins(hash: HashFunction, s: State, a: Action, t: TxnId)
    requires Enabled(hash, s, a) && t in Next(hash, s, a).txns && t !in s.txns
    ensures a.Begin? && a.t == t && Next(hash, s, a).txns[t].phase.Started?
  {
    hide CommittedDb, PendingOutcome, LimitTwo, NaturalLock, TierLock, TierFilter, Matching, Candidates, AssociationValid,
      FreshIds, CanWrite, CanMarkParseError, MarkedParseError, FetchedRow, IsMismatch;
  }

  // ---------- Calls that can get through ----------

  // The call's key is its posting's own.
  predicate Genuine(call: Call) {
    ResolveIdentity(call.posting) == Some(call.key)
  }

  // And both its locks can be numbered.
  predicate Admissible(hash: HashFunction, call: Call) {
    Genuine(call) && NaturalLock(hash, call.key).Some? && TierFilter(call).Some? && TierLock(hash, TierFilter(call).value).Some?
  }

  function KeyLock(hash: HashFunction, call: Call): Lock
    requires Admissible(hash, call)
  {
    Advisory(NaturalLock(hash, call.key).value)
  }

  function OwnTierLock(hash: HashFunction, call: Call): Lock
    requires Admissible(hash, call)
  {
    Advisory(TierLock(hash, TierFilter(call).value).value)
  }

  lemma GenuineIsAccepted(call: Call)
    requires Genuine(call)
    ensures AssociationValid(FetchedRow(call.posting), call)
  {
    hide ResolveIdentity;
    GenuineKey(call);
  }

  // The key's scope is the posting's, canonicalized.
  lemma GenuineKey(call: Call)
    requires Genuine(call)
    ensures FetchedRow(call.posting).provider == call.key.provider && FetchedRow(call.posting).source == call.key.source
    ensures FetchedRow(call.posting).identifier == call.key.jobId
  {
  }

  // ---------- Single steps from a reachable state ----------

  function Put(s: State, t: TxnId, txn: Txn): State {
    s.(txns := s.txns[t := txn])
  }

  lemma PutAgain(s: State, t: TxnId, txn: Txn, txn': Txn)
    ensures Put(Put(s, t, txn), t, txn') == Put(s, t, txn')
    ensures Put(s, t, txn).txns[t] == txn && Put(s, t, txn).db == s.db
    ensures forall lock :: Free(Put(s, t, txn), t, lock) <==> Free(s, t, lock)
  {
    assert s.txns[t := txn][t := txn'] == s.txns[t := txn'];
    var s' := Put(s, t, txn);
    forall lock
      ensures Free(s', t, lock) <==> Free(s, t, lock)
    {
      assert forall u :: u in s.txns && u != t ==> u in s'.txns && s'.txns[u] == s.txns[u];
      assert forall u :: u in s'.txns && u != t ==> u in s.txns;
    }
  }

  lemma Fetches(hash: HashFunction, s: State, raw: RawId, posting: Posting)
    requires Reachable(hash, s) && raw !in s.db.raws
    ensures Reachable(hash, s.(db := s.db.(raws := s.db.raws[raw := FetchedRow(posting)])))
  {
    hide Reachable, FetchedRow;
    ReachableStep(hash, s, WriteFetched(raw, posting));
  }

  lemma Begins(hash: HashFunction, s: State, t: TxnId, call: Call)
    requires Reachable(hash, s) && t !in s.txns
    ensures Reachable(hash, Put(s, t, Txn(call, Started, {})))
  {
    hide Reachable;
    ReachableStep(hash, s, Begin(t, call));
  }

  lemma LocksRaw(hash: HashFunction, s: State, t: TxnId)
    requires Reachable(hash, s) && t in s.txns && s.txns[t] == Txn(s.txns[t].call, Started, {})
    requires s.txns[t].call.rawId in s.db.raws && AssociationValid(s.db.raws[s.txns[t].call.rawId], s.txns[t].call)
    requires Free(s, t, RawLock(s.txns[t].call.rawId))
    ensures Reachable(hash, Put(s, t, Txn(s.txns[t].call, RawLocked, {RawLock(s.txns[t].call.rawId)})))
  {
    hide Reachable, AssociationValid;
    ReachableStep(hash, s, LockRaw(t));
    assert {} + {RawLock(s.txns[t].call.rawId)} == {RawLock(s.txns[t].call.rawId)};
  }

  lemma LocksKey(hash: HashFunction, s: State, t: TxnId, number: int)
    requires Reachable(hash, s) && t in s.txns && s.txns[t].phase.RawLocked?
    requires NaturalLock(hash, s.txns[t].call.key) == Some(number) && Free(s, t, Advisory(number))
    ensures Reachable(hash, Put(s, t, Txn(s.txns[t].call, KeyLocked, s.txns[t].held + {Advisory(number)})))
  {
    hide Reachable, NaturalLock;
    ReachableStep(hash, s, LockKey(t));
  }

  lemma ProbesKey(hash: HashFunction, s: State, t: TxnId, filter: Filter)
    requires Reachable(hash, s) && t in s.txns && s.txns[t].phase.KeyLocked?
    requires Matching(s.db, s.txns[t].call.key) == {} && TierFilter(s.txns[t].call) == Some(filter)
    ensures Reachable(hash, Put(s, t, Txn(s.txns[t].call, Missed(filter), s.txns[t].held)))
  {
    hide Reachable, Matching, TierFilter;
    ReachableStep(hash, s, ProbeKey(t));
    assert s.txns[t].held + {} == s.txns[t].held;
  }

  lemma LocksTier(hash: HashFunction, s: State, t: TxnId, number: int)
    requires Reachable(hash, s) && t in s.txns && s.txns[t].phase.Missed?
    requires TierLock(hash, s.txns[t].phase.wanted) == Some(number) && Free(s, t, Advisory(number))
    ensures Reachable(hash, Put(s, t, Txn(s.txns[t].call, TierLocked(s.txns[t].phase.wanted),
                                          s.txns[t].held + {Advisory(number)})))
  {
    hide Reachable, TierLock;
    ReachableStep(hash, s, LockTier(t));
  }

  lemma ProbesNothing(hash: HashFunction, s: State, t: TxnId)
    requires Reachable(hash, s) && t in s.txns && s.txns[t].phase.TierLocked?
    requires Candidates(s.db, s.txns[t].phase.wanted) == {}
    ensures Reachable(hash, Put(s, t, Txn(s.txns[t].call, Resolved(Some(s.txns[t].phase.wanted), Insert, 0, None),
                                          s.txns[t].held)))
  {
    hide Reachable, Candidates;
    ReachableStep(hash, s, Probe(t, []));
    assert s.txns[t].held + {} == s.txns[t].held;
  }

  lemma Writes(hash: HashFunction, s: State, t: TxnId, newJob: JobId, newOccurrence: OccurrenceId)
    requires Reachable(hash, s) && t in s.txns && s.txns[t].phase.Resolved? && FreshIds(s, t, newJob, newOccurrence)
    ensures var phase := s.txns[t].phase;
            Reachable(hash, Put(s, t, Txn(s.txns[t].call,
              PendingNew(phase.filter, phase.decision, phase.jobLastSeen, phase.locked, newJob, newOccurrence), s.txns[t].held)))
  {
    hide Reachable, FreshIds;
    ReachableStep(hash, s, Write(t, newJob, newOccurrence));
    assert s.txns[t].held + {} == s.txns[t].held;
  }

  // ---------- A call running while its locks are free ----------

  function WithRaw(db: Db, call: Call): Db {
    db.(raws := db.raws[call.rawId := FetchedRow(call.posting)])
  }

  predicate NothingHeld(hash: HashFunction, s: State, t: TxnId, call: Call)
    requires Admissible(hash, call)
  {
    Free(s, t, RawLock(call.rawId)) && Free(s, t, KeyLock(hash, call))
  }

  // Fetched, begun, past its key probe with nothing found.
  function PastProbe(hash: HashFunction, s: State, t: TxnId, call: Call): State
    requires Admissible(hash, call)
  {
    Put(State(WithRaw(s.db, call), s.txns), t,
        Txn(call, Missed(TierFilter(call).value), {RawLock(call.rawId)} + {KeyLock(hash, call)}))
  }

  lemma ReachesPastProbe(hash: HashFunction, s: State, t: TxnId, call: Call)
    requires Reachable(hash, s) && t !in s.txns && Admissible(hash, call) && call.rawId !in s.db.raws
    requires Matching(s.db, call.key) == {} && NothingHeld(hash, s, t, call)
    ensures Reachable(hash, PastProbe(hash, s, t, call))
  {
    GenuineIsAccepted(call);
    hide AssociationValid, FetchedRow, TierFilter, NaturalLock, TierLock, Reachable, Genuine, Matching, Put, Free;
    var raw, key := RawLock(call.rawId), NaturalLock(hash, call.key).value;
    var s0 := State(WithRaw(s.db, call), s.txns);
    Fetches(hash, s, call.rawId, call.posting);
    SameTxns(s, s0, t);
    Begins(hash, s0, t, call);
    PutAgain(s0, t, Txn(call, Started, {}), Txn(call, RawLocked, {raw}));
    LocksRaw(hash, Put(s0, t, Txn(call, Started, {})), t);
    PutAgain(s0, t, Txn(call, RawLocked, {raw}), Txn(call, KeyLocked, {raw} + {Advisory(key)}));
    LocksKey(hash, Put(s0, t, Txn(call, RawLocked, {raw})), t, key);
    SameOccurrences(s.db, s0.db, call.key);
    PutAgain(s0, t, Txn(call, KeyLocked, {raw} + {Advisory(key)}),
             Txn(call, Missed(TierFilter(call).value), {raw} + {Advisory(key)}));
    ProbesKey(hash, Put(s0, t, Txn(call, KeyLocked, {raw} + {Advisory(key)})), t, TierFilter(call).value);
  }

  lemma SameTxns(s: State, s': State, t: TxnId)
    requires s.txns == s'.txns
    ensures forall lock :: Free(s, t, lock) <==> Free(s', t, lock)
  {
  }

  lemma SameOccurrences(db: Db, db': Db, key: NaturalKey)
    requires db.occurrences == db'.occurrences
    ensures Matching(db, key) == Matching(db', key)
    ensures forall filter :: Candidates(db, filter) == Candidates(db', filter)
  {
  }

  // Decided to insert, with its rows flushed and not yet committed.
  function Inserting(hash: HashFunction, s: State, t: TxnId, call: Call, newJob: JobId, newOccurrence: OccurrenceId): State
    requires Admissible(hash, call)
  {
    Put(State(WithRaw(s.db, call), s.txns), t,
        Txn(call, PendingNew(TierFilter(call), Insert, 0, None, newJob, newOccurrence),
            {RawLock(call.rawId)} + {KeyLock(hash, call)} + {OwnTierLock(hash, call)}))
  }

  lemma ReachesInserting(hash: HashFunction, s: State, t: TxnId, call: Call, newJob: JobId, newOccurrence: OccurrenceId)
    requires Reachable(hash, s) && t !in s.txns && Admissible(hash, call) && call.rawId !in s.db.raws
    requires Matching(s.db, call.key) == {} && Candidates(s.db, TierFilter(call).value) == {}
    requires NothingHeld(hash, s, t, call) && Free(s, t, OwnTierLock(hash, call)) && FreshIds(s, t, newJob, newOccurrence)
    ensures Reachable(hash, Inserting(hash, s, t, call, newJob, newOccurrence))
  {
    ReachesPastProbe(hash, s, t, call);
    var s0 := State(WithRaw(s.db, call), s.txns);
    SameTxns(s, s0, t);
    SameOccurrences(s.db, s0.db, call.key);
    var filter, number := TierFilter(call).value, TierLock(hash, TierFilter(call).value).value;
    var held := {RawLock(call.rawId)} + {KeyLock(hash, call)};
    var all := held + {Advisory(number)};
    var waiting, probing := Txn(call, Missed(filter), held), Txn(call, TierLocked(filter), all);
    var deciding := Txn(call, Resolved(Some(filter), Insert, 0, None), all);
    FreshStays(s, s0, t, deciding, newJob, newOccurrence);
    hide FetchedRow, TierFilter, NaturalLock, TierLock, Reachable, Genuine, Matching, Candidates, Put, Free, FreshIds;
    PutAgain(s0, t, waiting, probing);
    LocksTier(hash, Put(s0, t, waiting), t, number);
    PutAgain(s0, t, probing, deciding);
    ProbesNothing(hash, Put(s0, t, probing), t);
    PutAgain(s0, t, deciding, Txn(call, PendingNew(Some(filter), Insert, 0, None, newJob, newOccurrence), all));
    Writes(hash, Put(s0, t, deciding), t, newJob, newOccurrence);
  }

  lemma FreshStays(s: State, s': State, t: TxnId, txn: Txn, newJob: JobId, newOccurrence: OccurrenceId)
    requires FreshIds(s, t, newJob, newOccurrence)
    requires s'.txns == s.txns && s'.db.jobs == s.db.jobs && s'.db.occurrences == s.db.occurrences
    ensures FreshIds(Put(s', t, txn), t, newJob, newOccurrence)
  {
  }

  // The whole call, alone: a new job, its occurrence, and the raw row linked to it.
  function Inserted(s: State, t: TxnId, call: Call, newJob: JobId, newOccurrence: OccurrenceId): State {
    State(WriteNew(WithRaw(s.db, call), call, Insert, 0, newJob, newOccurrence),
          s.txns[t := Txn(call, Committed(NewOutcome(Insert, newJob, newOccurrence)), {})])
  }

  lemma CommitsInsertion(hash: HashFunction, s: State, t: TxnId, call: Call, filter: Option<Filter>, newJob: JobId,
                         newOccurrence: OccurrenceId, held: set<Lock>)
    requires Reachable(hash, Put(s, t, Txn(call, PendingNew(filter, Insert, 0, None, newJob, newOccurrence), held)))
    requires call.rawId in s.db.raws
    ensures Reachable(hash, State(WriteNew(s.db, call, Insert, 0, newJob, newOccurrence),
                                  s.txns[t := Txn(call, Committed(NewOutcome(Insert, newJob, newOccurrence)), {})]))
  {
    hide Reachable, WriteNew;
    var pending, done := Txn(call, PendingNew(filter, Insert, 0, None, newJob, newOccurrence), held),
                         Txn(call, Committed(NewOutcome(Insert, newJob, newOccurrence)), {});
    ReachableStep(hash, Put(s, t, pending), Commit(t));
    assert s.txns[t := pending][t := done] == s.txns[t := done];
  }

  lemma ReachesInserted(hash: HashFunction, s: State, t: TxnId, call: Call, newJob: JobId, newOccurrence: OccurrenceId)
    requires Reachable(hash, s) && t !in s.txns && Admissible(hash, call) && call.rawId !in s.db.raws
    requires Matching(s.db, call.key) == {} && Candidates(s.db, TierFilter(call).value) == {}
    requires NothingHeld(hash, s, t, call) && Free(s, t, OwnTierLock(hash, call)) && FreshIds(s, t, newJob, newOccurrence)
    ensures Reachable(hash, Inserted(s, t, call, newJob, newOccurrence))
  {
    ReachesInserting(hash, s, t, call, newJob, newOccurrence);
    hide FetchedRow, TierFilter, NaturalLock, TierLock, Reachable, Genuine, Matching, Candidates, WriteNew, Free, FreshIds, Put;
    CommitsInsertion(hash, State(WithRaw(s.db, call), s.txns), t, call, TierFilter(call), newJob, newOccurrence,
                     {RawLock(call.rawId)} + {KeyLock(hash, call)} + {OwnTierLock(hash, call)});
  }
}
