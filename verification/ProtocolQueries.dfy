/** Where decisions come from: each tier decision is the specification's on the candidates of one
    definite moment, seen under the tier's lock. */
module ProtocolQueries {
  import opened Options
  import opened Ingestion
  import opened TableWrites
  import opened NaturalKeys
  import opened Protocol
  import opened ProtocolInvariant
  import opened ProtocolTheorems
  import opened ProtocolSerial
  import opened ProtocolRuns

  // The tier's lock is held and a candidate query is next.
  predicate Querying(phase: Phase, filter: Filter) {
    (phase.TierLocked? || phase.CandidateLocked? || phase.ProbedMany?) && phase.wanted == filter
  }

  predicate Deciding(phase: Phase, filter: Filter, decision: Decision) {
    (phase.Resolved? || phase.PendingNew?) && phase.filter == Some(filter) && phase.decision == decision
  }

  lemma ProbeDecides(hash: HashFunction, s: State, t: TxnId, rows: seq<JobId>, filter: Filter, decision: Decision)
    requires Inv(hash, s) && CanProbe(s, t, rows) && Deciding(DoProbe(s, t, rows).txns[t].phase, filter, decision)
    ensures Querying(s.txns[t].phase, filter) && decision == Decide(Candidates(s.db, filter))
  {
    hide Inv, Candidates;
  }

  lemma RecheckDecides(hash: HashFunction, s: State, t: TxnId, rows: seq<JobId>, filter: Filter, decision: Decision)
    requires Inv(hash, s) && CanRecheck(s, t, rows) && Deciding(DoRecheck(s, t, rows).txns[t].phase, filter, decision)
    ensures Querying(s.txns[t].phase, filter) && decision == Decide(Candidates(s.db, filter))
  {
    hide Inv, Candidates, ValidDb, RawReady, NaturalLock, TierLock, Unmatched, TierFilter, ExpectedLocks;
    InvGives(hash, s, t);
    RecheckRows(rows, Candidates(s.db, s.txns[t].phase.wanted), s.txns[t].phase.job);
  }

  lemma RequeryDecides(hash: HashFunction, s: State, t: TxnId, filter: Filter, decision: Decision)
    requires Inv(hash, s) && CanRequery(s, t) && Deciding(DoRequery(s, t).txns[t].phase, filter, decision)
    ensures Querying(s.txns[t].phase, filter) && decision == Decide(Candidates(s.db, filter))
  {
    hide Inv, Candidates, ValidDb, RawReady, NaturalLock, TierLock, Unmatched, TierFilter, ExpectedLocks, Only, SortedIds;
    InvGives(hash, s, t);
  }

  /** A decision is either kept from the step before, or taken right now on the current candidates. */
  lemma DecisionStep(hash: HashFunction, s: State, a: Action, t: TxnId, filter: Filter, decision: Decision)
    requires Inv(hash, s) && Enabled(hash, s, a) && t in Next(hash, s, a).txns
    requires Deciding(Next(hash, s, a).txns[t].phase, filter, decision)
    ensures t in s.txns
    ensures Deciding(s.txns[t].phase, filter, decision)
            || (Querying(s.txns[t].phase, filter) && decision == Decide(Candidates(s.db, filter)))
  {
    if t !in s.txns {
      StepBegins(hash, s, a, t);
    } else if Actor(a) != Some(t) {
      StepIsLocal(hash, s, a, t);
    } else {
      OwnDecisionStep(hash, s, a, t, filter, decision);
    }
  }

  lemma OwnDecisionStep(hash: HashFunction, s: State, a: Action, t: TxnId, filter: Filter, decision: Decision)
    requires Inv(hash, s) && Enabled(hash, s, a) && t in s.txns && t in Next(hash, s, a).txns && Actor(a) == Some(t)
    requires Deciding(Next(hash, s, a).txns[t].phase, filter, decision)
    ensures Deciding(s.txns[t].phase, filter, decision)
            || (Querying(s.txns[t].phase, filter) && decision == Decide(Candidates(s.db, filter)))
  {
    hide Inv, LimitTwo, Candidates, Decide, Matching, NaturalLock, TierLock, TierFilter, CommittedDb, PendingOutcome,
      AssociationValid, FreshIds, IsMismatch, CanWrite;
    match a {
      case Probe(_, rows) => ProbeDecides(hash, s, t, rows, filter, decision);
      case Recheck(_, rows) => RecheckDecides(hash, s, t, rows, filter, decision);
      case Requery(_) => RequeryDecides(hash, s, t, filter, decision);
      case _ =>
    }
  }

  // About to query the tier's candidates, holding its lock.
  predicate QueriesLocked(hash: HashFunction, s: State, t: TxnId, filter: Filter) {
    && t in s.txns && Querying(s.txns[t].phase, filter) && TierFilter(s.txns[t].call) == Some(filter)
    && TierLock(hash, filter).Some? && Advisory(TierLock(hash, filter).value) in s.txns[t].held
  }

  lemma QueryingIsLocked(hash: HashFunction, s: State, t: TxnId, filter: Filter)
    requires Inv(hash, s) && t in s.txns && Querying(s.txns[t].phase, filter)
    ensures QueriesLocked(hash, s, t, filter)
  {
    hide Inv, ValidDb, RawReady, NaturalLock, TierLock, Unmatched, TierFilter, Candidates;
    InvGives(hash, s, t);
  }

  lemma {:induction false} DecisionWasQueried(hash: HashFunction, states: seq<State>, actions: seq<Action>, i: nat, t: TxnId,
                                              filter: Filter, decision: Decision) returns (j: nat)
    requires Execution(hash, states, actions) && i < |states|
    requires t in states[i].txns && Deciding(states[i].txns[t].phase, filter, decision)
    ensures j < i && QueriesLocked(hash, states[j], t, filter) && decision == Decide(Candidates(states[j].db, filter))
    ensures forall k :: j < k <= i ==> t in states[k].txns && Deciding(states[k].txns[t].phase, filter, decision)
  {
    hide Inv, Enabled, Next, Candidates, Decide, Querying, Deciding, QueriesLocked;
    if i == 0 {
      assert false;
    } else {
      ReachableInv(hash, states, actions, i - 1);
      DecisionStep(hash, states[i - 1], actions[i - 1], t, filter, decision);
      if Deciding(states[i - 1].txns[t].phase, filter, decision) {
        j := DecisionWasQueried(hash, states, actions, i - 1, t, filter, decision);
      } else {
        j := i - 1;
        QueryingIsLocked(hash, states[j], t, filter);
      }
    }
  }

  // A committed creation leaves the outcome of the decision that was pending.
  lemma CreationWasPending(hash: HashFunction, s: State, a: Action, t: TxnId)
    requires Inv(hash, s) && Enabled(hash, s, a) && t in Next(hash, s, a).txns
    requires Next(hash, s, a).txns[t].phase.Committed? && Creates(Next(hash, s, a).txns[t].phase.outcome.kind)
    ensures t in s.txns
    ensures s.txns[t] == Next(hash, s, a).txns[t]
            || (a == Commit(t) && s.txns[t].phase.PendingNew? && s.txns[t].phase.filter == TierFilter(s.txns[t].call)
                && Next(hash, s, a).txns[t].call == s.txns[t].call
                && Next(hash, s, a).txns[t].phase.outcome
                   == NewOutcome(s.txns[t].phase.decision, s.txns[t].phase.newJob, s.txns[t].phase.newOccurrence))
  {
    hide Inv;
    if t !in s.txns {
      StepBegins(hash, s, a, t);
    } else if Actor(a) != Some(t) {
      StepIsLocal(hash, s, a, t);
    } else {
      OwnCreation(hash, s, a, t);
    }
  }

  lemma OwnCreation(hash: HashFunction, s: State, a: Action, t: TxnId)
    requires Inv(hash, s) && Enabled(hash, s, a) && t in s.txns && t in Next(hash, s, a).txns && Actor(a) == Some(t)
    requires Next(hash, s, a).txns[t].phase.Committed? && Creates(Next(hash, s, a).txns[t].phase.outcome.kind)
    ensures a == Commit(t) && s.txns[t].phase.PendingNew? && s.txns[t].phase.filter == TierFilter(s.txns[t].call)
    ensures Next(hash, s, a).txns[t].call == s.txns[t].call
    ensures Next(hash, s, a).txns[t].phase.outcome
         == NewOutcome(s.txns[t].phase.decision, s.txns[t].phase.newJob, s.txns[t].phase.newOccurrence)
  {
    hide Inv, LimitTwo, Candidates, Decide, Matching, NaturalLock, TierLock, TierFilter, CommittedDb, FilterCandidates,
      AssociationValid, FreshIds, IsMismatch, ValidDb, ExpectedLocks, Unmatched, Seen;
    assert a == Commit(t);
    InvGives(hash, s, t);
  }

  /** Every committed creation under a tier is the simple rule's on the complete candidate set of one
      moment under the tier's lock: none inserts, the only one is attached to, more are ambiguous
      and listed completely. */
  lemma {:induction false} CreationsFollowAQuery(hash: HashFunction, states: seq<State>, actions: seq<Action>, i: nat, t: TxnId,
                                                 filter: Filter) returns (j: nat)
    requires Execution(hash, states, actions) && i < |states| && t in states[i].txns
    requires states[i].txns[t].phase.Committed? && Creates(states[i].txns[t].phase.outcome.kind)
    requires TierFilter(states[i].txns[t].call) == Some(filter)
    ensures j < i && QueriesLocked(hash, states[j], t, filter)
    ensures var outcome := states[i].txns[t].phase.outcome;
            outcome == NewOutcome(Decide(Candidates(states[j].db, filter)), outcome.job, outcome.occurrence)
  {
    hide Inv, Enabled, Next, Candidates, Decide, QueriesLocked, TierFilter;
    if i == 0 {
      assert false;
    } else {
      ReachableInv(hash, states, actions, i - 1);
      CreationWasPending(hash, states[i - 1], actions[i - 1], t);
      if states[i - 1].txns[t] == states[i].txns[t] {
        j := CreationsFollowAQuery(hash, states, actions, i - 1, t, filter);
      } else {
        var phase := states[i - 1].txns[t].phase;
        j := DecisionWasQueried(hash, states, actions, i - 1, t, filter, phase.decision);
      }
    }
  }

  // The commit had exactly the tables and the outcome the whole call would have had, run alone.
  predicate CommittedAsAlone(hash: HashFunction, s: State, s': State, t: TxnId) {
    && t in s.txns && t in s'.txns && s'.txns[t].phase.Committed?
    && Alone(hash, s.db, s.txns[t]) == Ok((s'.db, s'.txns[t].phase.outcome))
  }

  lemma CommittedAsAloneExactly(hash: HashFunction, s: State, t: TxnId)
    requires Inv(hash, s) && Enabled(hash, s, Commit(t))
    ensures t in s.txns && (CommittedAsAlone(hash, s, Next(hash, s, Commit(t)), t) <==> UpToDate(s.db, s.txns[t].phase))
  {
    hide Inv, Alone, CommittedDb, PendingOutcome, UpToDate, CanWrite;
    CommitIsEnabled(hash, s, t);
    CommitIsSerialExactly(hash, s, t);
  }

  /** A commit under a tier is serial if and only if the candidates are still those its last query saw. */
  lemma CommitIsSerialSinceItsQuery(hash: HashFunction, states: seq<State>, actions: seq<Action>, i: nat, t: TxnId,
                                    filter: Filter) returns (j: nat)
    requires Execution(hash, states, actions) && i < |actions| && actions[i] == Commit(t)
    requires t in states[i].txns && states[i].txns[t].phase.PendingNew? && states[i].txns[t].phase.filter == Some(filter)
    ensures j < i && QueriesLocked(hash, states[j], t, filter)
    ensures forall k :: j < k <= i ==> t in states[k].txns && !Querying(states[k].txns[t].phase, filter)
    ensures CommittedAsAlone(hash, states[i], states[i + 1], t)
       <==> Candidates(states[i].db, filter) == Candidates(states[j].db, filter)
  {
    hide Inv, Enabled, Next, CommittedAsAlone, Candidates, Decide, QueriesLocked;
    ReachableInv(hash, states, actions, i);
    assert Enabled(hash, states[i], actions[i]) && states[i + 1] == Next(hash, states[i], actions[i]);
    CommittedAsAloneExactly(hash, states[i], t);
    j := DecisionWasQueried(hash, states, actions, i, t, filter, states[i].txns[t].phase.decision);
    SeenIsDecidedOn(Candidates(states[j].db, filter));
  }

  lemma SeenIsDecidedOn(all: set<JobId>)
    ensures Seen(Decide(all)) == all
  {
    hide SortedIds;
    if |all| == 0 {
      assert all == {};
    } else if |all| == 1 {
      assert all == {Only(all)};
    }
  }
}
