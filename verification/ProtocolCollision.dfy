/** Exactly when the posting transactions can deadlock: when lock numbers collide in a ring. */
module ProtocolCollision {
  import opened Options
  import opened NaturalKeys
  import opened Ingestion
  import opened Protocol
  import opened ProtocolInvariant
  import opened ProtocolTheorems
  import opened ProtocolProgress
  import opened ProtocolRuns
  import opened ProtocolRequisition

  function After(i: nat, n: nat): nat
    requires i < n
  {
    if i + 1 < n then i + 1 else 0
  }

  function KeyNumber(hash: HashFunction, call: Call): int
    requires Admissible(hash, call)
  {
    NaturalLock(hash, call.key).value
  }

  function TierNumber(hash: HashFunction, call: Call): int
    requires Admissible(hash, call)
  {
    TierLock(hash, TierFilter(call).value).value
  }

  /** Two or more calls on different raw rows, with different natural-key lock numbers, each of whose
      tier lock number is the next one's natural-key lock number. */
  ghost predicate LockRing(hash: HashFunction, ring: seq<Call>) {
    && |ring| >= 2 && (forall i :: 0 <= i < |ring| ==> Admissible(hash, ring[i]))
    && (forall i, j :: 0 <= i < j < |ring| ==>
          ring[i].rawId != ring[j].rawId && KeyNumber(hash, ring[i]) != KeyNumber(hash, ring[j]))
    && (forall i :: 0 <= i < |ring| ==> TierNumber(hash, ring[i]) == KeyNumber(hash, ring[After(i, |ring|)]))
  }

  ghost predicate Deadlocked(hash: HashFunction, s: State) {
    (exists t :: t in s.txns && !Finished(s.txns[t])) && !SomeCanStep(hash, s)
  }

  // ---------- A ring deadlocks ----------

  // The first `k` calls of the ring, each past its key probe and waiting for its tier lock.
  function RingUpTo(hash: HashFunction, ring: seq<Call>, k: nat): State
    requires k <= |ring| && forall i :: 0 <= i < |ring| ==> Admissible(hash, ring[i])
  {
    if k == 0 then INITIAL else PastProbe(hash, RingUpTo(hash, ring, k - 1), k - 1, ring[k - 1])
  }

  function Waiting(hash: HashFunction, call: Call): Txn
    requires Admissible(hash, call)
  {
    Txn(call, Missed(TierFilter(call).value), {RawLock(call.rawId)} + {KeyLock(hash, call)})
  }

  lemma {:induction false} RingStates(hash: HashFunction, ring: seq<Call>, k: nat)
    requires k <= |ring| && forall i :: 0 <= i < |ring| ==> Admissible(hash, ring[i])
    ensures var s := RingUpTo(hash, ring, k);
            && s.db.occurrences == map[] && (forall t: TxnId :: t in s.txns <==> t < k)
            && (forall t :: t in s.txns ==> s.txns[t] == Waiting(hash, ring[t]))
            && (forall raw :: raw in s.db.raws ==> exists i :: 0 <= i < k && ring[i].rawId == raw)
  {
    hide Admissible, TierFilter, NaturalLock, TierLock, FetchedRow;
    if k > 0 {
      RingStates(hash, ring, k - 1);
      var before, s := RingUpTo(hash, ring, k - 1), RingUpTo(hash, ring, k);
      assert s.txns == before.txns[k - 1 := Waiting(hash, ring[k - 1])];
    }
  }

  lemma {:induction false} RingIsReachable(hash: HashFunction, ring: seq<Call>, k: nat)
    requires LockRing(hash, ring) && k <= |ring|
    ensures (forall i :: 0 <= i < |ring| ==> Admissible(hash, ring[i])) && Reachable(hash, RingUpTo(hash, ring, k))
  {
    hide Reachable, LockRing, Admissible, PastProbe, Matching, NothingHeld;
    RingIsAdmissible(hash, ring);
    if k == 0 {
      StartIsReachable(hash);
    } else {
      RingIsReachable(hash, ring, k - 1);
      NextIsFree(hash, ring, k - 1);
      ReachesPastProbe(hash, RingUpTo(hash, ring, k - 1), k - 1, ring[k - 1]);
    }
  }

  lemma NextIsFree(hash: HashFunction, ring: seq<Call>, k: nat)
    requires LockRing(hash, ring) && k < |ring|
    ensures Admissible(hash, ring[k])
    ensures var s := RingUpTo(hash, ring, k);
            && NothingHeld(hash, s, k, ring[k]) && ring[k].rawId !in s.db.raws && k !in s.txns
            && Matching(s.db, ring[k].key) == {}
  {
    hide TierFilter, NaturalLock, TierLock, FetchedRow, Genuine, PastProbe, RingUpTo, Matches;
    RingStates(hash, ring, k);
    var s := RingUpTo(hash, ring, k);
    forall u | u in s.txns
      ensures RawLock(ring[k].rawId) !in s.txns[u].held && KeyLock(hash, ring[k]) !in s.txns[u].held
    {
      assert ring[u].rawId != ring[k].rawId && KeyNumber(hash, ring[u]) != KeyNumber(hash, ring[k]);
    }
  }

  /** Every ring is reached by an execution in which each of its calls waits for the next, for ever. */
  lemma RingDeadlocks(hash: HashFunction, ring: seq<Call>)
    requires LockRing(hash, ring)
    ensures Reachable(hash, RingUpTo(hash, ring, |ring|)) && Deadlocked(hash, RingUpTo(hash, ring, |ring|))
  {
    hide Reachable, TierFilter, NaturalLock, TierLock, Admissible, RingUpTo;
    var n, s := |ring|, RingUpTo(hash, ring, |ring|);
    RingIsReachable(hash, ring, n);
    RingStates(hash, ring, n);
    assert 0 in s.txns && !Finished(s.txns[0]);
    forall t, a | t in s.txns && StepOf(a, t)
      ensures !Enabled(hash, s, a)
    {
      WaitsForNext(hash, ring, s, t, a);
    }
  }

  lemma WaitsForNext(hash: HashFunction, ring: seq<Call>, s: State, t: TxnId, a: Action)
    requires LockRing(hash, ring) && (forall u: TxnId :: u in s.txns <==> u < |ring|)
    requires forall u :: u in s.txns ==> s.txns[u] == Waiting(hash, ring[u])
    requires t in s.txns && StepOf(a, t)
    ensures !Enabled(hash, s, a)
  {
    hide TierFilter, NaturalLock, TierLock, Genuine, LimitTwo, Matching, AssociationValid, FreshIds;
    var u := After(t, |ring|);
    assert u in s.txns && s.txns[u] == Waiting(hash, ring[u]) && s.txns[t] == Waiting(hash, ring[t]);
    assert TierNumber(hash, ring[t]) == KeyNumber(hash, ring[u]);
    assert Advisory(TierNumber(hash, ring[t])) in s.txns[u].held;
  }

  // ---------- A deadlock has a ring ----------

  // Whoever waits for a row lock, following the holders upward, ends at one that steps.
  lemma {:induction false} RowWaitersMove(hash: HashFunction, s: State, t: TxnId)
    requires Inv(hash, s) && t in s.txns && !Finished(s.txns[t]) && WantedRank(s.txns[t].phase) >= 3
    ensures SomeCanStep(hash, s)
    decreases 5 - WantedRank(s.txns[t].phase)
  {
    hide Inv, CanStep;
    if WantedRank(s.txns[t].phase) == 5 {
      NotWaiting(hash, s, t);
    } else {
      var u := WaitsOrSteps(hash, s, t);
      if !CanStep(hash, s, t) {
        RowWaitersMove(hash, s, u);
      }
    }
  }

  // Past its key's lock, a transaction in a deadlock waits for its tier's.
  lemma StuckIsMissed(hash: HashFunction, s: State, t: TxnId)
    requires Inv(hash, s) && !SomeCanStep(hash, s) && t in s.txns && !Finished(s.txns[t])
    requires !s.txns[t].phase.Started? && !s.txns[t].phase.RawLocked?
    ensures s.txns[t].phase.Missed?
  {
    hide Inv, SomeCanStep;
    if WantedRank(s.txns[t].phase) >= 3 {
      RowWaitersMove(hash, s, t);
    }
  }

  lemma HoldersAreUnfinished(hash: HashFunction, s: State, t: TxnId, lock: Lock)
    requires Inv(hash, s) && t in s.txns && lock in s.txns[t].held
    ensures !Finished(s.txns[t]) && !s.txns[t].phase.Started?
    ensures lock.Advisory? ==> !s.txns[t].phase.RawLocked?
    ensures lock.Advisory? && s.txns[t].phase.Missed? ==> Numbered(NaturalLock(hash, s.txns[t].call.key)) == {lock}
  {
    hide Inv, ValidDb, PhaseInv, NaturalLock, TierLock;
    InvGives(hash, s, t);
  }

  lemma StepsAreSteps(hash: HashFunction, s: State, t: TxnId, a: Action)
    requires t in s.txns && !Finished(s.txns[t]) && StepOf(a, t) && Enabled(hash, s, a)
    ensures SomeCanStep(hash, s)
  {
    hide Enabled;
    assert CanStep(hash, s, t);
  }

  // Some transaction of a deadlock waits for a tier lock.
  lemma {:induction false} SomeMissed(hash: HashFunction, s: State, t: TxnId) returns (u: TxnId)
    requires Inv(hash, s) && !SomeCanStep(hash, s) && t in s.txns && !Finished(s.txns[t])
    ensures u in s.txns && s.txns[u].phase.Missed?
    decreases if s.txns[t].phase.Started? then 1 else 0
  {
    hide Inv, SomeCanStep, NaturalLock, Enabled;
    var phase := s.txns[t].phase;
    if phase.Started? {
      var v := RawHolder(hash, s, t);
      u := SomeMissed(hash, s, v);
    } else if phase.RawLocked? {
      u := KeyHolder(hash, s, t);
    } else {
      StuckIsMissed(hash, s, t);
      u := t;
    }
  }

  lemma RawHolder(hash: HashFunction, s: State, t: TxnId) returns (u: TxnId)
    requires Inv(hash, s) && !SomeCanStep(hash, s) && t in s.txns && s.txns[t].phase.Started?
    ensures u in s.txns && !Finished(s.txns[u]) && !s.txns[u].phase.Started?
  {
    hide Inv, SomeCanStep, NaturalLock;
    var lock := RawLock(s.txns[t].call.rawId);
    if Free(s, t, lock) {
      StepsAreSteps(hash, s, t, LockRaw(t));
      u := t;
    } else {
      u :| u in s.txns && u != t && lock in s.txns[u].held;
      HoldersAreUnfinished(hash, s, u, lock);
    }
  }

  lemma KeyHolder(hash: HashFunction, s: State, t: TxnId) returns (u: TxnId)
    requires Inv(hash, s) && !SomeCanStep(hash, s) && t in s.txns && s.txns[t].phase.RawLocked?
    ensures u in s.txns && s.txns[u].phase.Missed?
  {
    hide Inv, SomeCanStep, NaturalLock;
    var number := NaturalLock(hash, s.txns[t].call.key);
    if number.Some? ==> Free(s, t, Advisory(number.value)) {
      StepsAreSteps(hash, s, t, LockKey(t));
      u := t;
    } else {
      var lock := Advisory(number.value);
      u :| u in s.txns && u != t && lock in s.txns[u].held;
      HoldersAreUnfinished(hash, s, u, lock);
      StuckIsMissed(hash, s, u);
    }
  }

  // What a transaction waiting for its tier lock waits for.
  ghost predicate WaitsOn(hash: HashFunction, s: State, t: TxnId, u: TxnId) {
    && t in s.txns && u in s.txns && t != u && s.txns[t].phase.Missed? && s.txns[u].phase.Missed?
    && Numbered(TierLock(hash, s.txns[t].phase.wanted)) == Numbered(NaturalLock(hash, s.txns[u].call.key)) != {}
  }

  lemma TierHolder(hash: HashFunction, s: State, t: TxnId) returns (u: TxnId)
    requires Inv(hash, s) && !SomeCanStep(hash, s) && t in s.txns && s.txns[t].phase.Missed?
    ensures WaitsOn(hash, s, t, u)
  {
    hide Inv, SomeCanStep, NaturalLock, TierLock;
    var number := TierLock(hash, s.txns[t].phase.wanted);
    if number.Some? ==> Free(s, t, Advisory(number.value)) {
      StepsAreSteps(hash, s, t, LockTier(t));
      u := t;
    } else {
      var lock := Advisory(number.value);
      u :| u in s.txns && u != t && lock in s.txns[u].held;
      HoldersAreUnfinished(hash, s, u, lock);
      StuckIsMissed(hash, s, u);
      assert lock in {lock};
    }
  }

  // A chain of waiting transactions, no one twice.
  ghost predicate WaitingChain(hash: HashFunction, s: State, chain: seq<TxnId>) {
    && chain != [] && (forall i :: 0 <= i < |chain| ==> chain[i] in s.txns && s.txns[chain[i]].phase.Missed?)
    && (forall i, j :: 0 <= i < j < |chain| ==> chain[i] != chain[j])
    && (forall i :: 0 <= i < |chain| - 1 ==> WaitsOn(hash, s, chain[i], chain[i + 1]))
  }

  // Following who waits for whom, the chain comes back to one of its own.
  lemma {:induction false} FindRing(hash: HashFunction, s: State, chain: seq<TxnId>, rest: set<TxnId>) returns (ring: seq<TxnId>)
    requires Inv(hash, s) && !SomeCanStep(hash, s) && WaitingChain(hash, s, chain)
    requires forall t :: t in rest <==> t in s.txns && t !in chain
    ensures WaitingChain(hash, s, ring) && WaitsOn(hash, s, ring[|ring| - 1], ring[0])
    decreases rest
  {
    hide Inv, SomeCanStep, WaitsOn;
    var last := chain[|chain| - 1];
    var u := TierHolder(hash, s, last);
    WaitersAreThere(hash, s, last, u);
    if u in chain {
      var p :| 0 <= p < |chain| && chain[p] == u;
      ring := chain[p..];
    } else {
      ring := FindRing(hash, s, chain + [u], rest - {u});
    }
  }

  lemma WaitersAreThere(hash: HashFunction, s: State, t: TxnId, u: TxnId)
    requires WaitsOn(hash, s, t, u)
    ensures u in s.txns && u != t && s.txns[u].phase.Missed?
  {
  }

  // What a waiting transaction's call is known to be.
  lemma MissedIsAdmissible(hash: HashFunction, s: State, t: TxnId)
    requires Inv(hash, s) && t in s.txns && s.txns[t].phase.Missed? && TierLock(hash, s.txns[t].phase.wanted).Some?
    ensures Admissible(hash, s.txns[t].call) && TierFilter(s.txns[t].call) == Some(s.txns[t].phase.wanted)
    ensures RawLock(s.txns[t].call.rawId) in s.txns[t].held && KeyLock(hash, s.txns[t].call) in s.txns[t].held
  {
    hide Inv, ValidDb, NaturalLock, TierLock, TierFilter, Unmatched, ResolveIdentity;
    InvGives(hash, s, t);
  }

  function CallsOf(s: State, chain: seq<TxnId>): seq<Call>
    requires forall i :: 0 <= i < |chain| ==> chain[i] in s.txns
  {
    seq(|chain|, i requires 0 <= i < |chain| => s.txns[chain[i]].call)
  }

  lemma LinkIsNumber(hash: HashFunction, s: State, t: TxnId, u: TxnId)
    requires Inv(hash, s) && WaitsOn(hash, s, t, u)
    ensures Admissible(hash, s.txns[t].call) && NaturalLock(hash, s.txns[u].call.key).Some?
    ensures TierNumber(hash, s.txns[t].call) == NaturalLock(hash, s.txns[u].call.key).value
  {
    hide Inv, NaturalLock, TierLock, TierFilter, Genuine;
    MissedIsAdmissible(hash, s, t);
    var a, b := TierLock(hash, s.txns[t].phase.wanted), NaturalLock(hash, s.txns[u].call.key);
    assert Advisory(a.value) in Numbered(a);
    assert Advisory(a.value) in Numbered(b);
  }

  lemma WaitersDiffer(hash: HashFunction, s: State, t: TxnId, u: TxnId)
    requires Inv(hash, s) && t in s.txns && u in s.txns && t != u && s.txns[t].phase.Missed? && s.txns[u].phase.Missed?
    requires Admissible(hash, s.txns[t].call) && Admissible(hash, s.txns[u].call)
    ensures s.txns[t].call.rawId != s.txns[u].call.rawId
    ensures KeyNumber(hash, s.txns[t].call) != KeyNumber(hash, s.txns[u].call)
  {
    hide Inv, NaturalLock, TierLock, TierFilter, Genuine;
    MissedHolds(hash, s, t);
    MissedHolds(hash, s, u);
    LocksAreExclusive(hash, s, t, u);
  }

  lemma MissedHolds(hash: HashFunction, s: State, t: TxnId)
    requires Inv(hash, s) && t in s.txns && s.txns[t].phase.Missed? && Admissible(hash, s.txns[t].call)
    ensures RawLock(s.txns[t].call.rawId) in s.txns[t].held && KeyLock(hash, s.txns[t].call) in s.txns[t].held
  {
    hide Inv, ValidDb, PhaseInv, NaturalLock, TierLock, TierFilter, Genuine;
    InvGives(hash, s, t);
  }

  lemma LocksAreExclusive(hash: HashFunction, s: State, t: TxnId, u: TxnId)
    requires Inv(hash, s) && t in s.txns && u in s.txns && t != u
    ensures s.txns[t].held !! s.txns[u].held
  {
    hide ValidDb, TxnInv, PendingFresh, HistoryInv;
  }

  lemma ChainIsRing(hash: HashFunction, s: State, chain: seq<TxnId>)
    requires Inv(hash, s) && WaitingChain(hash, s, chain) && WaitsOn(hash, s, chain[|chain| - 1], chain[0])
    ensures LockRing(hash, CallsOf(s, chain))
  {
    hide Inv, WaitsOn, Admissible, KeyNumber, TierNumber, NaturalLock;
    var n := |chain|;
    WaitersAreThere(hash, s, chain[n - 1], chain[0]);
    forall i | 0 <= i < n
      ensures Admissible(hash, s.txns[chain[i]].call)
      ensures NaturalLock(hash, s.txns[chain[After(i, n)]].call.key).Some?
      ensures TierNumber(hash, s.txns[chain[i]].call) == NaturalLock(hash, s.txns[chain[After(i, n)]].call.key).value
    {
      LinkIsNumber(hash, s, chain[i], chain[After(i, n)]);
    }
    forall i, j | 0 <= i < j < n
      ensures s.txns[chain[i]].call.rawId != s.txns[chain[j]].call.rawId
      ensures KeyNumber(hash, s.txns[chain[i]].call) != KeyNumber(hash, s.txns[chain[j]].call)
    {
      WaitersDiffer(hash, s, chain[i], chain[j]);
    }
    forall i | 0 <= i < n
      ensures TierNumber(hash, CallsOf(s, chain)[i]) == KeyNumber(hash, CallsOf(s, chain)[After(i, n)])
    {
      NumberIs(hash, s.txns[chain[After(i, n)]].call);
    }
  }

  lemma NumberIs(hash: HashFunction, call: Call)
    requires Admissible(hash, call)
    ensures NaturalLock(hash, call.key).Some? && KeyNumber(hash, call) == NaturalLock(hash, call.key).value
  {
  }

  /** Some interleaving deadlocks if and only if the lock numbers of some calls form a ring. */
  lemma DeadlockExactly(hash: HashFunction)
    ensures (exists s :: Reachable(hash, s) && Deadlocked(hash, s)) <==> (exists ring :: LockRing(hash, ring))
  {
    hide Reachable, LockRing, RingUpTo;
    if ring :| LockRing(hash, ring) {
      RingIsAdmissible(hash, ring);
      RingDeadlocks(hash, ring);
    }
    if s :| Reachable(hash, s) && Deadlocked(hash, s) {
      DeadlockHasRing(hash, s);
    }
  }

  lemma RingIsAdmissible(hash: HashFunction, ring: seq<Call>)
    requires LockRing(hash, ring)
    ensures forall i :: 0 <= i < |ring| ==> Admissible(hash, ring[i])
  {
    hide Admissible;
  }

  /** A deadlock's own waiting transactions form the ring. */
  lemma DeadlockHasRing(hash: HashFunction, s: State)
    requires Reachable(hash, s) && Deadlocked(hash, s)
    ensures exists chain: seq<TxnId> ::
      (forall i :: 0 <= i < |chain| ==> chain[i] in s.txns) && LockRing(hash, CallsOf(s, chain))
  {
    hide Reachable, Inv, SomeCanStep, LockRing, WaitsOn;
    ReachableHasInv(hash, s);
    var t :| t in s.txns && !Finished(s.txns[t]);
    var first := SomeMissed(hash, s, t);
    var chain := FindRing(hash, s, [first], s.txns.Keys - {first});
    ChainIsRing(hash, s, chain);
  }

  // What the two postings' bytes must be for a hash to be free to close a ring.
  ghost predicate Crossable(c: Call, d: Call) {
    && c.key.WellFormed() && Encodable(c.key.Components()) && d.key.WellFormed() && Encodable(d.key.Components())
    && TierFilter(c).Some? && TierBytes(TierFilter(c).value).Some?
    && TierFilter(d).Some? && TierBytes(TierFilter(d).value).Some?
    && !SameIdentity(c.key, d.key) && TierBytes(TierFilter(c).value) != TierBytes(TierFilter(d).value)
  }

  /** The encodings alone do not prevent it: for any two encodable postings of different identities
      and different tier evidence, some hash function closes a ring of the two. */
  lemma SomeHashCrosses(c: Call, d: Call) returns (hash: HashFunction)
    requires Crossable(c, d) && c.rawId != d.rawId && Genuine(c) && Genuine(d)
    ensures LockRing(hash, [c, d])
  {
    hide Genuine, TierFilter, TierBytes, SameIdentity, LockNumber;
    var zeros: Digest := seq(32, _ => 0);
    var ones: Digest := seq(32, _ => 1);
    assert zeros[..8][0] != ones[..8][0];
    LockNumberBijection(zeros, ones, 0);
    var key, tier := c.key.CanonicalBytes(), TierBytes(TierFilter(d).value).value;
    hash := bytes => if bytes == key || bytes == tier then zeros else ones;
    CanonicalBytesInjective(c.key, d.key);
    KeyBytesAreNotTierBytes(d.key, TierFilter(d).value);
    KeyBytesAreNotTierBytes(c.key, TierFilter(c).value);
  }

  /** So under some hash function an interleaving of two postings deadlocks. */
  lemma DeadlocksHappen()
    ensures exists hash, s :: Reachable(hash, s) && Deadlocked(hash, s)
  {
    var c, d := Sample(1, 'y', Some("u")), Sample(0, 'x', None);
    SamplesAreEncodable();
    SampleIsGenuine(1, 'y', Some("u"));
    SampleIsGenuine(0, 'x', None);
    SamplesDiffer();
    hide Genuine, Reachable, Deadlocked, LockRing, RingUpTo, TierFilter, TierBytes, SameIdentity, Encodable;
    var hash := SomeHashCrosses(c, d);
    RingIsAdmissible(hash, [c, d]);
    RingDeadlocks(hash, [c, d]);
  }
}
