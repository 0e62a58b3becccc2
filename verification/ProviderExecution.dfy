/** Executing one provider's query: the checks a discovery result must pass, the telemetry recorded
    before any row is written, and the postings stored and counted one transaction at a time, with
    a failure or cancellation possible before or after any of those transactions commits. */
module ProviderExecution {
  import opened Options
  import opened NaturalKeys
  import opened Ingestion
  import opened TableWrites
  import opened PostingEffects
  import opened Persistence
  import opened Sums

  datatype SourceStats = SourceStats(
    source: string, completed: bool, jobsFound: int, incompleteResults: bool, rateLimited: bool, retryCount: int)

  datatype ProviderError = ProviderError(
    source: string, category: string, retryable: bool, detail: Option<string>, occurredAt: Time)

  datatype DiscoveryResult = DiscoveryResult(
    provider: string, jobs: seq<Posting>, stats: seq<SourceStats>, errors: seq<ProviderError>)
  {
    // The result type's own validator; a result that fails it cannot be built.
    ghost predicate Consistent() {
      && (forall i, j :: 0 <= i < j < |stats| ==> stats[i].source != stats[j].source)
      && (forall e :: e in errors ==> HasSource(e.source))
      && (forall p :: p in jobs ==> HasSource(p.source))
      && (forall s :: s in stats && !s.completed ==> s.jobsFound == 0)
    }

    ghost predicate HasSource(source: string) {
      exists i :: 0 <= i < |stats| && stats[i].source == source
    }

    ghost predicate PossiblyIncomplete() {
      errors != [] || exists s :: s in stats && (!s.completed || s.incompleteResults)
    }
  }

  // One entry of a run's failures.
  datatype Failure = PlanningFailure(provider: string, detail: string) | SourceFailure(provider: string, error: ProviderError)

  function Reports(result: DiscoveryResult): (r: seq<Failure>)
    ensures |r| == |result.errors| && forall i :: 0 <= i < |r| ==> r[i] == SourceFailure(result.provider, result.errors[i])
  {
    seq(|result.errors|, i requires 0 <= i < |result.errors| => SourceFailure(result.provider, result.errors[i]))
  }

  // What came of one posting.
  datatype Fate = Unresolved | Stored(kind: UpsertKind)
  datatype Bucket = ParseErrors | Inserted | Updated

  function BucketOf(fate: Fate): Bucket {
    match fate
    case Unresolved => ParseErrors
    case Stored(kind) => if CreatesJob(kind) then Inserted else Updated
  }

  function FateStatus(fate: Fate): RawStatus {
    match fate
    case Unresolved => ParseError
    case Stored(kind) => if RecordsConflict(kind) then IdentityConflict else Normalized
  }

  function Count(jobs: seq<Posting>, source: string): nat {
    if jobs == [] then 0
    else Count(jobs[..|jobs| - 1], source) + (if jobs[|jobs| - 1].source == source then 1 else 0)
  }

  function Tally(jobs: seq<Posting>, fates: seq<Fate>, source: string, bucket: Bucket): nat
    requires |fates| <= |jobs|
  {
    if fates == [] then 0
    else
      var n := |fates| - 1;
      Tally(jobs, fates[..n], source, bucket) + (if jobs[n].source == source && BucketOf(fates[n]) == bucket then 1 else 0)
  }

  function Total(fates: seq<Fate>, bucket: Bucket): nat {
    if fates == [] then 0
    else Total(fates[..|fates| - 1], bucket) + (if BucketOf(fates[|fates| - 1]) == bucket then 1 else 0)
  }

  function Conflicts(fates: seq<Fate>): nat {
    if fates == [] then 0
    else Conflicts(fates[..|fates| - 1]) + (if FateStatus(fates[|fates| - 1]) == IdentityConflict then 1 else 0)
  }

  /** Every posting of a source falls into exactly one of the three buckets. */
  lemma {:induction false} BucketsPartition(jobs: seq<Posting>, fates: seq<Fate>, source: string)
    requires |fates| <= |jobs|
    ensures Count(jobs[..|fates|], source)
         == Tally(jobs, fates, source, ParseErrors) + Tally(jobs, fates, source, Inserted) + Tally(jobs, fates, source, Updated)
  {
    if fates == [] {
    } else {
      var n := |fates| - 1;
      BucketsPartition(jobs, fates[..n], source);
      assert jobs[..|fates|][..n] == jobs[..n];
    }
  }

  // The postings of a source, and those of them that have an identity.
  function PostingsOf(jobs: seq<Posting>, source: string): set<nat> {
    set i: nat | i < |jobs| && jobs[i].source == source
  }

  function Identified(jobs: seq<Posting>, source: string): set<nat> {
    set i: nat | i < |jobs| && jobs[i].source == source && ResolveIdentity(jobs[i]).Some?
  }

  // A posting came to a parse error exactly when it has no identity.
  ghost predicate ResolvedAs(jobs: seq<Posting>, fates: seq<Fate>) {
    |fates| <= |jobs| && forall i :: 0 <= i < |fates| ==> (fates[i].Unresolved? <==> ResolveIdentity(jobs[i]).None?)
  }

  lemma {:induction false} CountIsHowMany(jobs: seq<Posting>, source: string)
    ensures Count(jobs, source) == |PostingsOf(jobs, source)|
  {
    if jobs == [] {
      assert PostingsOf(jobs, source) == {};
    } else {
      var n := |jobs| - 1;
      CountIsHowMany(jobs[..n], source);
      assert PostingsOf(jobs, source) == PostingsOf(jobs[..n], source) + (if jobs[n].source == source then {n} else {});
    }
  }

  /** Inserted and updated together are the postings dealt with that have an identity. */
  lemma {:induction false} StoredAreIdentified(jobs: seq<Posting>, fates: seq<Fate>, source: string)
    requires ResolvedAs(jobs, fates)
    ensures Tally(jobs, fates, source, Inserted) + Tally(jobs, fates, source, Updated) == |Identified(jobs[..|fates|], source)|
  {
    hide ResolveIdentity, Identified;
    if fates == [] {
      NoneIdentified(source);
      assert jobs[..0] == [];
    } else {
      var n := |fates| - 1;
      StoredAreIdentified(jobs, fates[..n], source);
      IdentifiedNext(jobs, n, source);
    }
  }

  lemma NoneIdentified(source: string)
    ensures Identified([], source) == {}
  {
  }

  lemma IdentifiedNext(jobs: seq<Posting>, n: nat, source: string)
    requires n < |jobs|
    ensures |Identified(jobs[..n + 1], source)|
         == |Identified(jobs[..n], source)| + (if jobs[n].source == source && ResolveIdentity(jobs[n]).Some? then 1 else 0)
  {
    hide ResolveIdentity;
    assert Identified(jobs[..n + 1], source) == Identified(jobs[..n], source)
      + (if jobs[n].source == source && ResolveIdentity(jobs[n]).Some? then {n} else {});
  }

  lemma NothingResolved(jobs: seq<Posting>)
    ensures ResolvedAs(jobs, [])
  {
  }

  lemma IdentifiedGrows(jobs: seq<Posting>, n: nat, source: string)
    requires n <= |jobs|
    ensures |Identified(jobs[..n], source)| <= |Identified(jobs, source)|
  {
    hide ResolveIdentity;
    var some, all := Identified(jobs[..n], source), Identified(jobs, source);
    assert some <= all;
    assert |all - some| == |all| - |some|;
  }

  // ---------- Checking a result ----------

  predicate StatHolds(stat: SourceStats, actual: nat) {
    && (stat.completed || (actual == 0 && !stat.incompleteResults))
    && stat.jobsFound == actual
  }

  ghost predicate SameSources(result: DiscoveryResult, sources: seq<string>) {
    forall s :: result.HasSource(s) <==> s in sources
  }

  ghost predicate StatsHold(result: DiscoveryResult) {
    forall i :: 0 <= i < |result.stats| ==> StatHolds(result.stats[i], Count(result.jobs, result.stats[i].source))
  }

  predicate OfProvider(jobs: seq<Posting>, provider: string) {
    forall i :: 0 <= i < |jobs| ==> jobs[i].provider == provider
  }

  // The caller's checks: what the result claims about itself adds up, for this provider and query.
  ghost predicate SelfConsistent(result: DiscoveryResult, provider: string, sources: seq<string>) {
    && result.provider == provider && SameSources(result, sources)
    && OfProvider(result.jobs, result.provider) && StatsHold(result)
  }

  function CountAt(counts: map<string, nat>, source: string): nat {
    if source in counts then counts[source] else 0
  }

  method CheckSources(result: DiscoveryResult, sources: seq<string>) returns (same: bool)
    ensures same <==> SameSources(result, sources)
  {
    var declared := set i | 0 <= i < |result.stats| :: result.stats[i].source;
    var asked := set s | s in sources;
    forall s
      ensures s in declared <==> result.HasSource(s)
    {
      if result.HasSource(s) {
        var i :| 0 <= i < |result.stats| && result.stats[i].source == s;
      }
    }
    same := declared == asked;
    if SameSources(result, sources) {
      assert forall s :: s in declared <==> s in asked;
    }
  }

  method CountJobs(jobs: seq<Posting>) returns (counts: map<string, nat>)
    ensures forall s :: CountAt(counts, s) == Count(jobs, s)
  {
    counts := map[];
    for i := 0 to |jobs|
      invariant forall s :: CountAt(counts, s) == Count(jobs[..i], s)
    {
      var source := jobs[i].source;
      assert jobs[..i + 1][..i] == jobs[..i];
      counts := counts[source := CountAt(counts, source) + 1];
    }
    assert jobs[..|jobs|] == jobs;
  }

  lemma ConsistencyMeans(result: DiscoveryResult, provider: string, sources: seq<string>)
    ensures SelfConsistent(result, provider, sources) <==>
      && result.provider == provider && (forall s :: (exists i :: 0 <= i < |result.stats| && result.stats[i].source == s) <==> s in sources)
      && (forall i :: 0 <= i < |result.jobs| ==> result.jobs[i].provider == provider)
      && (forall i :: 0 <= i < |result.stats| ==> result.stats[i].jobsFound == |PostingsOf(result.jobs, result.stats[i].source)|)
      && (forall i :: 0 <= i < |result.stats| && !result.stats[i].completed ==>
            PostingsOf(result.jobs, result.stats[i].source) == {} && !result.stats[i].incompleteResults)
  {
    hide Count, PostingsOf;
    forall s
      ensures Count(result.jobs, s) == |PostingsOf(result.jobs, s)|
    {
      CountIsHowMany(result.jobs, s);
    }
    assert (forall s :: (exists i :: 0 <= i < |result.stats| && result.stats[i].source == s) <==> s in sources) <==> SameSources(result, sources);
  }

  method CheckResult(result: DiscoveryResult, provider: string, sources: seq<string>) returns (valid: bool)
    ensures valid <==> SelfConsistent(result, provider, sources)
    ensures valid <==>
      && result.provider == provider && (forall s :: (exists i :: 0 <= i < |result.stats| && result.stats[i].source == s) <==> s in sources)
      && (forall i :: 0 <= i < |result.jobs| ==> result.jobs[i].provider == provider)
      && (forall i :: 0 <= i < |result.stats| ==> result.stats[i].jobsFound == |PostingsOf(result.jobs, result.stats[i].source)|)
      && (forall i :: 0 <= i < |result.stats| && !result.stats[i].completed ==>
            PostingsOf(result.jobs, result.stats[i].source) == {} && !result.stats[i].incompleteResults)
  {
    ConsistencyMeans(result, provider, sources);
    hide SameSources, Count, StatHolds, PostingsOf;
    if result.provider != provider {
      return false;
    }
    var same := CheckSources(result, sources);
    if !same || !OfProvider(result.jobs, result.provider) {
      return false;
    }
    var counts := CountJobs(result.jobs);
    for i := 0 to |result.stats|
      invariant forall k :: 0 <= k < i ==> StatHolds(result.stats[k], Count(result.jobs, result.stats[k].source))
    {
      if !StatHolds(result.stats[i], CountAt(counts, result.stats[i].source)) {
        return false;
      }
    }
    return true;
  }

  // ---------- The selected error of each source ----------

  // The chronologically latest error of its source, ties going to the later position.
  ghost predicate IsLatest(errors: seq<ProviderError>, i: nat) {
    && i < |errors|
    && forall j :: 0 <= j < |errors| && errors[j].source == errors[i].source ==>
         errors[j].occurredAt <= errors[i].occurredAt && (j > i ==> errors[j].occurredAt < errors[i].occurredAt)
  }

  ghost predicate SelectedAt(errors: seq<ProviderError>, source: string, error: ProviderError) {
    exists i: nat :: IsLatest(errors, i) && errors[i] == error && error.source == source
  }

  ghost predicate Selects(errors: seq<ProviderError>, latest: map<string, ProviderError>) {
    && (forall j :: 0 <= j < |errors| ==> errors[j].source in latest)
    && forall s :: s in latest ==> SelectedAt(errors, s, latest[s])
  }

  function Newer(latest: map<string, ProviderError>, error: ProviderError): map<string, ProviderError> {
    if error.source !in latest || error.occurredAt >= latest[error.source].occurredAt then latest[error.source := error]
    else latest
  }

  lemma SelectNext(errors: seq<ProviderError>, latest: map<string, ProviderError>, error: ProviderError, s: string)
    requires Selects(errors, latest) && s in Newer(latest, error)
    ensures SelectedAt(errors + [error], s, Newer(latest, error)[s])
  {
    var all := errors + [error];
    if s in latest {
      var i: nat :| IsLatest(errors, i) && errors[i] == latest[s] && errors[i].source == s;
      assert all[i] == errors[i];
      if Newer(latest, error)[s] == latest[s] && !(s == error.source && error.occurredAt >= latest[s].occurredAt) {
        assert IsLatest(all, i);
      } else {
        assert IsLatest(all, |errors|);
      }
    } else {
      assert IsLatest(all, |errors|);
    }
  }

  lemma SelectsNext(errors: seq<ProviderError>, latest: map<string, ProviderError>, error: ProviderError)
    requires Selects(errors, latest)
    ensures Selects(errors + [error], Newer(latest, error))
  {
    hide SelectedAt;
    forall s | s in Newer(latest, error)
      ensures SelectedAt(errors + [error], s, Newer(latest, error)[s])
    {
      SelectNext(errors, latest, error, s);
    }
  }

  method SelectErrors(errors: seq<ProviderError>) returns (latest: map<string, ProviderError>)
    ensures Selects(errors, latest)
  {
    hide Selects;
    latest := map[];
    assert Selects([], latest) by {
      NothingSelected();
    }
    for n := 0 to |errors|
      invariant Selects(errors[..n], latest)
    {
      var error := errors[n];
      assert errors[..n + 1] == errors[..n] + [error];
      SelectsNext(errors[..n], latest, error);
      if error.source !in latest || error.occurredAt >= latest[error.source].occurredAt {
        latest := latest[error.source := error];
      }
    }
    assert errors[..|errors|] == errors;
  }

  lemma NothingSelected()
    ensures Selects([], map[])
  {
  }

  // ---------- The accumulated state of one provider's execution ----------

  class ProviderExecutionState {
    var discovered: map<string, nat>
    var inserted: map<string, nat>
    var updated: map<string, nat>
    var failures: seq<Failure>
    var hadParseError: bool
    var hadConflict: bool
    var possiblyIncomplete: bool
    var stats: map<string, SourceStats>
    var selected: map<string, ProviderError>

    constructor ()
      ensures discovered == inserted == updated == map[] && failures == []
      ensures !hadParseError && !hadConflict && !possiblyIncomplete && stats == map[] && selected == map[]
    {
      discovered, inserted, updated := map[], map[], map[];
      failures, hadParseError, hadConflict, possiblyIncomplete, stats, selected := [], false, false, false, map[], map[];
    }

    // Every counter covers the queried sources and no others.
    ghost predicate Covers(sources: seq<string>)
      reads this
    {
      && (forall s :: s in discovered <==> s in sources)
      && (forall s :: s in inserted <==> s in sources)
      && (forall s :: s in updated <==> s in sources)
    }

    // Nothing has been learned or counted yet.
    ghost predicate Blank(sources: seq<string>)
      reads this
    {
      && Covers(sources) && failures == [] && stats == map[] && selected == map[] && !possiblyIncomplete
      && !hadParseError && !hadConflict
      && forall s :: s in sources ==> discovered[s] == inserted[s] == updated[s] == 0
    }

    ghost predicate Recorded(result: DiscoveryResult)
      reads `failures, `possiblyIncomplete, `stats, `selected
    {
      && failures == Reports(result)
      && (possiblyIncomplete <==> result.PossiblyIncomplete())
      && (forall i :: 0 <= i < |result.stats| ==>
            result.stats[i].source in stats && stats[result.stats[i].source] == result.stats[i])
      && Selects(result.errors, selected)
    }

    method SetDefaults(sources: seq<string>)
      modifies `discovered, `inserted, `updated
      ensures discovered == Defaulted(old(discovered), sources)
      ensures inserted == Defaulted(old(inserted), sources)
      ensures updated == Defaulted(old(updated), sources)
    {
      for i := 0 to |sources|
        invariant discovered == Defaulted(old(discovered), sources[..i])
        invariant inserted == Defaulted(old(inserted), sources[..i])
        invariant updated == Defaulted(old(updated), sources[..i])
      {
        var s := sources[i];
        assert sources[..i + 1][..i] == sources[..i];
        discovered := SetDefault(discovered, s);
        inserted := SetDefault(inserted, s);
        updated := SetDefault(updated, s);
      }
      assert sources[..|sources|] == sources;
    }

    // One posting of a source, counted in the bucket its fate belongs to.
    method CountFate(source: string, fate: Fate)
      modifies `inserted, `updated, `hadParseError, `hadConflict
      ensures inserted == Bumped(old(inserted), source, BucketOf(fate) == Inserted)
      ensures updated == Bumped(old(updated), source, BucketOf(fate) == Updated)
      ensures hadParseError == (old(hadParseError) || fate.Unresolved?)
      ensures hadConflict == (old(hadConflict) || FateStatus(fate) == IdentityConflict)
    {
      match fate {
        case Unresolved => hadParseError := true;
        case Stored(kind) =>
          match kind {
            case INSERTED => inserted := inserted[source := CountAt(inserted, source) + 1];
            case UPDATED => updated := updated[source := CountAt(updated, source) + 1];
            case ATTACHED => updated := updated[source := CountAt(updated, source) + 1];
            case QUARANTINED =>
              updated := updated[source := CountAt(updated, source) + 1];
              hadConflict := true;
            case AMBIGUOUS =>
              inserted := inserted[source := CountAt(inserted, source) + 1];
              hadConflict := true;
          }
      }
    }
  }

  function SetDefault(m: map<string, nat>, source: string): map<string, nat> {
    if source in m then m else m[source := 0]
  }

  function Defaulted(m: map<string, nat>, sources: seq<string>): map<string, nat> {
    if sources == [] then m else SetDefault(Defaulted(m, sources[..|sources| - 1]), sources[|sources| - 1])
  }

  /** Defaulting adds the missing sources with a zero count and changes no count. */
  lemma {:induction false} DefaultedAt(m: map<string, nat>, sources: seq<string>, s: string)
    ensures s in Defaulted(m, sources) <==> s in m || s in sources
    ensures CountAt(Defaulted(m, sources), s) == CountAt(m, s)
  {
    if sources == [] {
    } else {
      DefaultedAt(m, sources[..|sources| - 1], s);
      assert sources == sources[..|sources| - 1] + [sources[|sources| - 1]];
    }
  }

  lemma DefaultedCovered(m: map<string, nat>, sources: seq<string>)
    requires forall s :: s in m <==> s in sources
    ensures Defaulted(m, sources) == m
  {
    forall s
      ensures s in Defaulted(m, sources) <==> s in m
      ensures s in m ==> Defaulted(m, sources)[s] == m[s]
    {
      DefaultedAt(m, sources, s);
    }
  }

  function Bumped(m: map<string, nat>, source: string, bump: bool): map<string, nat> {
    if bump then m[source := CountAt(m, source) + 1] else m
  }

  // ---------- Storing the postings ----------

  // Where a failure or cancellation strikes a transaction, if at all.
  datatype Fault = Clear | BeforeCommit | AfterCommit

  // Chosen by the environment at every wait for a transaction.
  method Await() returns (fault: Fault)
  {
    fault := *;
  }

  method FreshId(used: set<nat>) returns (id: nat)
    ensures id !in used
  {
    id := 0;
    var rest := used;
    while rest != {}
      invariant forall x :: x in used && x !in rest ==> x < id
      decreases |rest|
    {
      var x :| x in rest;
      rest := rest - {x};
      id := if x < id then id else x + 1;
    }
  }

  // What storing one posting changed, according to its fate.
  ghost predicate FateTells(db: Db, raw: RawId, db': Db, fate: Fate) {
    && raw in db.raws && db'.raws.Keys == db.raws.Keys
    && (forall r :: r in db.raws && r != raw ==> db'.raws[r] == db.raws[r])
    && db'.raws[raw].status == FateStatus(fate)
    && |db'.jobs| == |db.jobs| + (if BucketOf(fate) == Inserted then 1 else 0)
    && |db'.conflicts| == |db.conflicts| + (if FateStatus(fate) == IdentityConflict then 1 else 0)
  }

  lemma KindIsFate(db: Db, call: Call, newJob: JobId, db': Db, kind: UpsertKind)
    requires KindTells(db, call, newJob, db', kind) && newJob !in db.jobs
    ensures FateTells(db, call.rawId, db', Stored(kind))
  {
    assert |db'.jobs| == |db'.jobs.Keys| && |db.jobs| == |db.jobs.Keys|;
  }

  lemma MarkIsFate(db: Db, raw: RawId)
    requires raw in db.raws && db.raws[raw].occurrence.None?
    ensures FateTells(db, raw, MarkedParseError(db, raw), Unresolved)
  {
  }

  /** One posting stored, row by row: marked as a parse error and nothing else when it has no identity, and
      otherwise all the effects of persisting it, under its own key, as observed then. */
  ghost predicate PostingStored(db: Db, posting: Posting, raw: RawId, at: Time, db': Db, fate: Fate) {
    match fate
    case Unresolved =>
      ResolveIdentity(posting).None? && raw in db.raws && db' == db.(raws := db.raws[raw := db.raws[raw].(status := ParseError)])
    case Stored(kind) =>
      ResolveIdentity(posting).Some? && exists outcome: Outcome ::
        outcome.kind == kind && PersistedAs(db, Call(ResolveIdentity(posting).value, posting, at, raw), db', outcome)
  }

  ghost predicate PersistedAs(db: Db, call: Call, db': Db, outcome: Outcome) {
    Effects(db, call, db', outcome) && ChosenAmong(db, call, outcome) && KeyDecides(db, call, outcome)
  }

  /** The postings stored one after the other, each on the tables the one before it left. */
  ghost predicate StoredInOrder(db: Db, jobs: seq<Posting>, raws: seq<RawId>, at: Time, db': Db, fates: seq<Fate>) {
    exists chain: seq<Db> :: Chain(chain, jobs, raws, at, fates) && chain[0] == db && chain[|fates|] == db'
  }

  ghost predicate Chain(chain: seq<Db>, jobs: seq<Posting>, raws: seq<RawId>, at: Time, fates: seq<Fate>) {
    && |fates| <= |jobs| && |fates| <= |raws| && |chain| == |fates| + 1
    && forall i :: 0 <= i < |fates| ==> PostingStored(chain[i], jobs[i], raws[i], at, chain[i + 1], fates[i])
  }

  lemma NothingInOrder(db: Db, jobs: seq<Posting>, raws: seq<RawId>, at: Time)
    ensures StoredInOrder(db, jobs, raws, at, db, [])
  {
    assert Chain([db], jobs, raws, at, []);
  }

  lemma OneMoreInOrder(db: Db, jobs: seq<Posting>, raws: seq<RawId>, at: Time, middle: Db, fates: seq<Fate>, db': Db, fate: Fate)
    requires StoredInOrder(db, jobs, raws, at, middle, fates) && |fates| < |jobs| && |fates| < |raws|
    requires PostingStored(middle, jobs[|fates|], raws[|fates|], at, db', fate)
    ensures StoredInOrder(db, jobs, raws, at, db', fates + [fate])
  {
    hide PostingStored;
    var chain :| Chain(chain, jobs, raws, at, fates) && chain[0] == db && chain[|fates|] == middle;
    assert Chain(chain + [db'], jobs, raws, at, fates + [fate]);
  }

  // Nothing happened, or the posting was stored without the caller learning of it.
  ghost predicate AtMostStored(db: Db, raw: RawId, db': Db) {
    db' == db || exists fate :: FateTells(db, raw, db', fate)
  }

  lemma MarkIsStored(db: Db, posting: Posting, raw: RawId, at: Time)
    requires raw in db.raws && db.raws[raw].occurrence.None? && ResolveIdentity(posting).None?
    ensures PostingStored(db, posting, raw, at, MarkedParseError(db, raw), Unresolved)
    ensures MarkedParseError(db, raw).jobs == db.jobs && MarkedParseError(db, raw).occurrences == db.occurrences
  {
    hide ResolveIdentity;
  }

  /** Stores one posting whose raw row is already fetched; None when this aborts the provider, which
      may be after the posting was stored. */
  method StorePosting(db: Database, hash: HashFunction, posting: Posting, raw: RawId, observedAt: Time)
    returns (fate: Option<Fate>)
    requires ValidDb(db.Contents()) && raw in db.raws && db.raws[raw] == FetchedRow(posting)
    modifies db
    ensures ValidDb(db.Contents()) && Extends(old(db.Contents()), db.Contents())
    ensures fate.Some? ==> FateTells(old(db.Contents()), raw, db.Contents(), fate.value)
    ensures fate.Some? ==> (fate.value.Unresolved? <==> ResolveIdentity(posting).None?)
    ensures fate.None? ==> AtMostStored(old(db.Contents()), raw, db.Contents())
    ensures fate.Some? ==> PostingStored(old(db.Contents()), posting, raw, observedAt, db.Contents(), fate.value)
    ensures SightedAt(old(db.Contents()), db.Contents(), observedAt)
  {
    hide ValidDb, FetchedRow, ResolveIdentity, Persist, MarkedParseError, FateTells, KindTells, AssociationValid, Effects, ChosenAmong,
      KeyDecides, SightedAt;
    ghost var before := db.Contents();
    ExtendsReflexive(before);
    SameSightings(before, before, observedAt);
    FetchedRowIsFetched(posting);
    var fault := Await();
    if fault == BeforeCommit {
      return None;
    }
    var key := ResolveIdentity(posting);
    if key.None? {
      MarkIsFate(before, raw);
      MarkIsStored(before, posting, raw, observedAt);
      var ok := db.MarkParseError(raw);
      SameSightings(before, db.Contents(), observedAt);
      assert FateTells(before, raw, db.Contents(), Unresolved);
      return if ok && fault == Clear then Some(Unresolved) else None;
    }
    var newJob := FreshId(db.jobs.Keys);
    var newOccurrence := FreshId(db.occurrences.Keys);
    var call := Call(key.value, posting, observedAt, raw);
    var outcome := db.PersistPosting(hash, call, newJob, newOccurrence);
    if outcome.Err? {
      return None;
    }
    EffectsSight(before, call, db.Contents(), outcome.value);
    assert PersistedAs(before, call, db.Contents(), outcome.value);
    PersistKindTells(hash, before, call, newJob, newOccurrence);
    KindIsFate(before, call, newJob, db.Contents(), outcome.value.kind);
    if fault == AfterCommit {
      return None;
    }
    return Some(Stored(outcome.value.kind));
  }

  // Every posting stored so far has a raw row of its own, nothing else was added, and the rows of
  // the postings already dealt with are in the status their fate calls for.
  ghost predicate RowsStored(before: map<RawId, Raw>, now: map<RawId, Raw>, jobs: seq<Posting>, raws: seq<RawId>,
                             fates: seq<Fate>) {
    && |fates| <= |raws| <= |jobs| && RowsAdded(before, now, raws)
    && (forall i :: 0 <= i < |fates| ==> now[raws[i]].status == FateStatus(fates[i]))
    && (forall i :: |fates| <= i < |raws| ==> now[raws[i]] == FetchedRow(jobs[i]))
  }

  ghost predicate RowsAdded(before: map<RawId, Raw>, now: map<RawId, Raw>, raws: seq<RawId>) {
    && |now| == |before| + |raws|
    && (forall i, j :: 0 <= i < j < |raws| ==> raws[i] != raws[j])
    && (forall i :: 0 <= i < |raws| ==> raws[i] !in before && raws[i] in now)
    && (forall r :: r in before ==> r in now && now[r] == before[r])
  }

  // How far storing a result's postings has come, against the tables it started on.
  ghost predicate Storing(before: Db, db: Db, jobs: seq<Posting>, raws: seq<RawId>, fates: seq<Fate>) {
    && RowsStored(before.raws, db.raws, jobs, raws, fates)
    && |db.jobs| == |before.jobs| + Total(fates, Inserted)
    && |db.conflicts| == |before.conflicts| + Conflicts(fates)
  }

  lemma RowAdded(before: map<RawId, Raw>, now: map<RawId, Raw>, raws: seq<RawId>, raw: RawId, row: Raw)
    requires RowsAdded(before, now, raws) && raw !in now
    ensures RowsAdded(before, now[raw := row], raws + [raw])
  {
    AddOne(now, raw, row);
  }

  lemma RowFetched(before: map<RawId, Raw>, now: map<RawId, Raw>, jobs: seq<Posting>, raws: seq<RawId>, raw: RawId)
    requires RowsStored(before, now, jobs, raws, []) && |raws| < |jobs| && raw !in now
    ensures RowsStored(before, now[raw := FetchedRow(jobs[|raws|])], jobs, raws + [raw], [])
  {
    hide FetchedRow, FateStatus;
    var row := FetchedRow(jobs[|raws|]);
    var now', raws' := now[raw := row], raws + [raw];
    RowAdded(before, now, raws, raw, row);
    forall i | 0 <= i < |raws'|
      ensures now'[raws'[i]] == FetchedRow(jobs[i])
    {
      if i < |raws| {
        assert raws'[i] == raws[i] && now[raws[i]] == FetchedRow(jobs[i]);
      }
    }
  }

  lemma AddOne<K, V>(m: map<K, V>, k: K, v: V)
    requires k !in m
    ensures |m[k := v]| == |m| + 1
  {
    assert m[k := v].Keys == m.Keys + {k};
    assert |m| == |m.Keys| && |m[k := v]| == |m[k := v].Keys|;
  }

  lemma RowFinished(before: map<RawId, Raw>, now: map<RawId, Raw>, jobs: seq<Posting>, raws: seq<RawId>, fates: seq<Fate>,
                    now': map<RawId, Raw>, fate: Fate)
    requires RowsStored(before, now, jobs, raws, fates) && |fates| < |raws|
    requires now'.Keys == now.Keys && forall r :: r in now && r != raws[|fates|] ==> now'[r] == now[r]
    requires now'[raws[|fates|]].status == FateStatus(fate)
    ensures RowsStored(before, now', jobs, raws, fates + [fate])
  {
    hide FetchedRow, FateStatus;
    assert |now| == |now.Keys| && |now'| == |now'.Keys|;
  }

  lemma StoringFate(before: Db, db: Db, jobs: seq<Posting>, raws: seq<RawId>, fates: seq<Fate>, db': Db, fate: Fate)
    requires Storing(before, db, jobs, raws, fates) && |fates| < |raws|
    requires FateTells(db, raws[|fates|], db', fate)
    ensures Storing(before, db', jobs, raws, fates + [fate])
  {
    hide RowsStored, FateStatus, BucketOf;
    RowFinished(before.raws, db.raws, jobs, raws, fates, db'.raws, fate);
    assert (fates + [fate])[..|fates|] == fates;
  }

  // All raw rows first, one transaction each, before any posting is resolved.
  method FetchPostings(db: Database, jobs: seq<Posting>) returns (ok: bool, raws: seq<RawId>)
    requires ValidDb(db.Contents())
    modifies db`raws
    ensures ValidDb(db.Contents()) && Extends(old(db.Contents()), db.Contents())
    ensures ok ==> |raws| == |jobs| && Storing(old(db.Contents()), db.Contents(), jobs, raws, [])
    ensures |db.raws| <= |old(db.raws)| + |jobs|
  {
    hide ValidDb, Extends, FetchedRow, RowsStored;
    ghost var before := db.Contents();
    ExtendsReflexive(before);
    assert RowsStored(before.raws, before.raws, jobs, [], []) by {
      NothingStored(before.raws, jobs);
    }
    ok, raws := false, [];
    for i := 0 to |jobs|
      invariant |raws| == i && ValidDb(db.Contents()) && Extends(before, db.Contents())
      invariant Storing(before, db.Contents(), jobs, raws, []) && |db.raws| == |before.raws| + i
    {
      var fault := Await();
      if fault == BeforeCommit {
        return;
      }
      var raw := FreshId(db.raws.Keys);
      AddOne(db.raws, raw, FetchedRow(jobs[i]));
      RowFetched(before.raws, db.raws, jobs, raws, raw);
      ghost var middle := db.Contents();
      db.WriteFetchedRow(jobs[i], raw);
      ExtendsTransitive(before, middle, db.Contents());
      if fault == AfterCommit {
        return;
      }
      raws := raws + [raw];
    }
    ok := true;
  }

  lemma NothingStored(before: map<RawId, Raw>, jobs: seq<Posting>)
    ensures RowsStored(before, before, jobs, [], [])
  {
  }

  // A per-source counter holds exactly its bucket's share of the postings dealt with.
  ghost predicate Counted(m: map<string, nat>, jobs: seq<Posting>, fates: seq<Fate>, sources: seq<string>, bucket: Bucket) {
    && |fates| <= |jobs|
    && (forall s :: s in m <==> s in sources)
    && (forall s :: s in m ==> m[s] == Tally(jobs, fates, s, bucket))
    && Sum(m) == Total(fates, bucket)
  }

  lemma CountedStep(m: map<string, nat>, jobs: seq<Posting>, fates: seq<Fate>, sources: seq<string>, bucket: Bucket, fate: Fate)
    requires Counted(m, jobs, fates, sources, bucket) && |fates| < |jobs| && jobs[|fates|].source in sources
    ensures Counted(Bumped(m, jobs[|fates|].source, BucketOf(fate) == bucket), jobs, fates + [fate], sources, bucket)
  {
    hide BucketOf, Sum;
    assert (fates + [fate])[..|fates|] == fates;
    SumUpdate(m, jobs[|fates|].source, CountAt(m, jobs[|fates|].source) + 1);
  }

  // Every source's discovered count, and their sum.
  ghost predicate AllDiscovered(m: map<string, nat>, jobs: seq<Posting>, sources: seq<string>) {
    && (forall s :: s in m <==> s in sources)
    && (forall s :: s in m ==> m[s] == Count(jobs, s))
    && Sum(m) == |jobs|
  }

  lemma DiscoveredStep(m: map<string, nat>, jobs: seq<Posting>, i: nat, sources: seq<string>)
    requires i < |jobs| && AllDiscovered(m, jobs[..i], sources) && jobs[i].source in sources
    ensures AllDiscovered(Bumped(m, jobs[i].source, true), jobs[..i + 1], sources)
  {
    hide Sum;
    assert jobs[..i + 1][..i] == jobs[..i];
    SumUpdate(m, jobs[i].source, CountAt(m, jobs[i].source) + 1);
  }

  // The counters and flags agree with what became of the postings dealt with.
  ghost predicate Accounts(state: ProviderExecutionState, jobs: seq<Posting>, fates: seq<Fate>, sources: seq<string>)
    reads state
  {
    && Counted(state.inserted, jobs, fates, sources, Inserted)
    && Counted(state.updated, jobs, fates, sources, Updated)
    && (state.hadParseError <==> Total(fates, ParseErrors) > 0)
    && (state.hadConflict <==> Conflicts(fates) > 0)
  }

  // The postings counted are stored, and beyond them at most the next one, its caller struck after the commit.
  ghost predicate StoredAsCounted(before: Db, now: Db, jobs: seq<Posting>, raws: seq<RawId>, fates: seq<Fate>) {
    exists counted: Db ::
      Storing(before, counted, jobs, raws, fates)
      && (now == counted || (|fates| < |raws| && AtMostStored(counted, raws[|fates|], now)))
  }

  method StorePostings(db: Database, hash: HashFunction, jobs: seq<Posting>, raws: seq<RawId>, observedAt: Time,
                       state: ProviderExecutionState, ghost before: Db, ghost sources: seq<string>)
    returns (ok: bool, ghost fates: seq<Fate>)
    requires ValidDb(db.Contents()) && |raws| == |jobs| && Storing(before, db.Contents(), jobs, raws, [])
    requires Accounts(state, jobs, [], sources) && forall i :: 0 <= i < |jobs| ==> jobs[i].source in sources
    modifies db, state`inserted, state`updated, state`hadParseError, state`hadConflict
    ensures ValidDb(db.Contents()) && Extends(old(db.Contents()), db.Contents())
    ensures |fates| <= |jobs| && (ok ==> |fates| == |jobs|)
    ensures Accounts(state, jobs, fates, sources) && ResolvedAs(jobs, fates)
    ensures ok ==> Storing(before, db.Contents(), jobs, raws, fates)
    ensures StoredAsCounted(before, db.Contents(), jobs, raws, fates)
    ensures ok ==> StoredInOrder(old(db.Contents()), jobs, raws, observedAt, db.Contents(), fates)
    ensures SightedAt(old(db.Contents()), db.Contents(), observedAt)
  {
    hide AtMostStored, PostingStored, StoredInOrder, SightedAt;
    hide ValidDb, Extends, FetchedRow, RowsStored, Counted, Bumped, Storing, FateTells, Total, Conflicts, BucketOf, FateStatus,
      ResolveIdentity;
    ghost var start := db.Contents();
    ExtendsReflexive(start);
    SameSightings(start, start, observedAt);
    NothingInOrder(start, jobs, raws, observedAt);
    ok, fates := false, [];
    for i := 0 to |jobs|
      invariant StoredInOrder(start, jobs, raws, observedAt, db.Contents(), fates) && SightedAt(start, db.Contents(), observedAt)
      invariant |fates| == i && ValidDb(db.Contents()) && Extends(start, db.Contents())
      invariant Storing(before, db.Contents(), jobs, raws, fates)
      invariant Accounts(state, jobs, fates, sources) && ResolvedAs(jobs, fates)
    {
      ghost var middle := db.Contents();
      StoringNext(before, middle, jobs, raws, fates);
      var fate := StorePosting(db, hash, jobs[i], raws[i], observedAt);
      ExtendsTransitive(start, middle, db.Contents());
      SightedTwice(start, middle, db.Contents(), observedAt);
      if fate.None? {
        return;
      }
      OneMoreInOrder(start, jobs, raws, observedAt, middle, fates, db.Contents(), fate.value);
      StoringFate(before, middle, jobs, raws, fates, db.Contents(), fate.value);
      CountedStep(state.inserted, jobs, fates, sources, Inserted, fate.value);
      CountedStep(state.updated, jobs, fates, sources, Updated, fate.value);
      FlagsStep(fates, fate.value);
      state.CountFate(jobs[i].source, fate.value);
      fates := fates + [fate.value];
    }
    ok := true;
  }

  lemma StoringNext(before: Db, db: Db, jobs: seq<Posting>, raws: seq<RawId>, fates: seq<Fate>)
    requires Storing(before, db, jobs, raws, fates) && |fates| < |raws|
    ensures raws[|fates|] in db.raws && db.raws[raws[|fates|]] == FetchedRow(jobs[|fates|])
  {
    hide FetchedRow, FateStatus, Total, Conflicts;
  }

  lemma FlagsStep(fates: seq<Fate>, fate: Fate)
    ensures Total(fates + [fate], ParseErrors) > 0 <==> Total(fates, ParseErrors) > 0 || fate.Unresolved?
    ensures Conflicts(fates + [fate]) > 0 <==> Conflicts(fates) > 0 || FateStatus(fate) == IdentityConflict
  {
    assert (fates + [fate])[..|fates|] == fates;
  }

  // ---------- One provider's execution ----------

  /** What a normal completion of one provider amounts to. */
  ghost predicate CompletedNormally(state: ProviderExecutionState, result: DiscoveryResult, sources: seq<string>,
                            before: Db, after: Db, raws: seq<RawId>, fates: seq<Fate>)
    reads state
  {
    && SelfConsistent(result, result.provider, sources) && state.Recorded(result)
    && AllDiscovered(state.discovered, result.jobs, sources)
    && Accounts(state, result.jobs, fates, sources) && ResolvedAs(result.jobs, fates)
    && |fates| == |raws| == |result.jobs|
    && Storing(before, after, result.jobs, raws, fates)
  }

  // Discovery returned, and what it returned passed every check.
  ghost predicate Accepted(discovery: Option<DiscoveryResult>, provider: string, sources: seq<string>) {
    discovery.Some? && SelfConsistent(discovery.value, provider, sources)
  }

  /** What any ending leaves the caller to report from: all that an accepted result says, and the
      counts of exactly the postings dealt with; nothing at all when there is no accepted result. */
  ghost predicate Reportable(state: ProviderExecutionState, provider: string, discovery: Option<DiscoveryResult>,
                             sources: seq<string>, fates: seq<Fate>)
    reads state
  {
    && state.Covers(sources)
    && if Accepted(discovery, provider, sources) then
         && state.Recorded(discovery.value)
         && AllDiscovered(state.discovered, discovery.value.jobs, sources)
         && Accounts(state, discovery.value.jobs, fates, sources) && ResolvedAs(discovery.value.jobs, fates)
       else state.Blank(sources) && fates == []
  }

  /** However an execution ends, the counters miss at most the last job created, and count every raw row. */
  ghost predicate StoredWithin(before: Db, after: Db, inserted: map<string, nat>, discovered: map<string, nat>) {
    && |before.jobs| + Sum(inserted) <= |after.jobs| <= |before.jobs| + Sum(inserted) + 1
    && |after.raws| <= |before.raws| + Sum(discovered)
  }

  lemma BrokenOffWithin(before: Db, now: Db, jobs: seq<Posting>, raws: seq<RawId>, fates: seq<Fate>, sources: seq<string>,
                        state: ProviderExecutionState)
    requires StoredAsCounted(before, now, jobs, raws, fates) && |raws| == |jobs|
    requires Accounts(state, jobs, fates, sources) && AllDiscovered(state.discovered, jobs, sources)
    ensures StoredWithin(before, now, state.inserted, state.discovered)
  {
    hide Total, Conflicts, FetchedRow, Sum, Tally, Count, FateStatus, BucketOf;
    var counted :| Storing(before, counted, jobs, raws, fates)
      && (now == counted || (|fates| < |raws| && AtMostStored(counted, raws[|fates|], now)));
    assert |now.raws| == |now.raws.Keys| && |counted.raws| == |counted.raws.Keys|;
  }

  lemma BlankWithin(state: ProviderExecutionState, sources: seq<string>, db: Db)
    requires state.Blank(sources)
    ensures StoredWithin(db, db, state.inserted, state.discovered)
  {
    SumZero(state.inserted);
    SumZero(state.discovered);
  }

  lemma FetchedWithin(before: Db, now: Db, jobs: seq<Posting>, sources: seq<string>, state: ProviderExecutionState)
    requires now.jobs == before.jobs && |now.raws| <= |before.raws| + |jobs|
    requires Accounts(state, jobs, [], sources) && AllDiscovered(state.discovered, jobs, sources)
    ensures StoredWithin(before, now, state.inserted, state.discovered)
  {
    hide Sum, Tally, Count;
  }

  /** All postings fetched first, one new raw row each and nothing else; then stored one after the other. */
  ghost predicate FetchedThenStored(before: Db, jobs: seq<Posting>, raws: seq<RawId>, at: Time, after: Db, fates: seq<Fate>) {
    exists middle: Db ::
      && RowsStored(before.raws, middle.raws, jobs, raws, []) && middle == before.(raws := middle.raws)
      && StoredInOrder(middle, jobs, raws, at, after, fates)
  }

  method RecordResult(result: DiscoveryResult, state: ProviderExecutionState)
    requires result.Consistent()
    modifies state`stats, state`possiblyIncomplete, state`selected, state`failures
    ensures state.Recorded(result)
    ensures forall s :: s in state.stats ==> state.stats[s].source == s
  {
    var stats: map<string, SourceStats> := map[];
    for i := 0 to |result.stats|
      invariant forall s :: s in stats ==> stats[s].source == s
      invariant forall k :: 0 <= k < i ==>
        result.stats[k].source in stats && stats[result.stats[k].source] == result.stats[k]
    {
      stats := stats[result.stats[i].source := result.stats[i]];
    }
    state.stats := stats;
    state.possiblyIncomplete := result.errors != []
      || (exists i :: 0 <= i < |result.stats| && !result.stats[i].completed)
      || (exists i :: 0 <= i < |result.stats| && result.stats[i].incompleteResults);
    state.selected := SelectErrors(result.errors);
    state.failures := Reports(result);
  }

  method CountDiscovered(jobs: seq<Posting>, sources: seq<string>, state: ProviderExecutionState)
    requires AllDiscovered(state.discovered, [], sources)
    requires forall i :: 0 <= i < |jobs| ==> jobs[i].source in sources
    modifies state`discovered
    ensures AllDiscovered(state.discovered, jobs, sources)
  {
    hide AllDiscovered;
    for i := 0 to |jobs|
      invariant AllDiscovered(state.discovered, jobs[..i], sources)
    {
      DiscoveredStep(state.discovered, jobs, i, sources);
      state.discovered := state.discovered[jobs[i].source := CountAt(state.discovered, jobs[i].source) + 1];
    }
    assert jobs[..|jobs|] == jobs;
  }

  lemma BlankAccounts(state: ProviderExecutionState, jobs: seq<Posting>, sources: seq<string>)
    requires state.Blank(sources)
    ensures Accounts(state, jobs, [], sources) && AllDiscovered(state.discovered, [], sources)
  {
    SumZero(state.inserted);
    SumZero(state.updated);
    SumZero(state.discovered);
  }

  lemma AccountsCover(state: ProviderExecutionState, jobs: seq<Posting>, fates: seq<Fate>, sources: seq<string>)
    requires Accounts(state, jobs, fates, sources) && AllDiscovered(state.discovered, jobs, sources)
    ensures state.Covers(sources)
  {
    hide Sum;
  }

  lemma JobsAreAsked(result: DiscoveryResult, provider: string, sources: seq<string>)
    requires result.Consistent() && SelfConsistent(result, provider, sources)
    ensures forall i :: 0 <= i < |result.jobs| ==> result.jobs[i].source in sources
  {
    forall i | 0 <= i < |result.jobs|
      ensures result.jobs[i].source in sources
    {
      assert result.jobs[i] in result.jobs && result.HasSource(result.jobs[i].source);
    }
  }

  // Everything known about the result is on the state before any row is written.
  method RecordAndCount(result: DiscoveryResult, sources: seq<string>, state: ProviderExecutionState)
    requires state.Blank(sources) && result.Consistent()
    requires forall i :: 0 <= i < |result.jobs| ==> result.jobs[i].source in sources
    modifies state
    ensures state.Recorded(result) && forall s :: s in state.stats ==> state.stats[s].source == s
    ensures Accounts(state, result.jobs, [], sources) && AllDiscovered(state.discovered, result.jobs, sources)
  {
    hide AllDiscovered, Counted, Total, Conflicts, Selects, Reports, Defaulted;
    BlankAccounts(state, result.jobs, sources);
    RecordResult(result, state);
    DefaultedCovered(state.discovered, sources);
    DefaultedCovered(state.inserted, sources);
    DefaultedCovered(state.updated, sources);
    state.SetDefaults(sources);
    CountDiscovered(result.jobs, sources, state);
  }

  // Both loops over the postings: all are fetched, then each is stored.
  method FetchAndStore(db: Database, hash: HashFunction, jobs: seq<Posting>, observedAt: Time, state: ProviderExecutionState,
                       ghost sources: seq<string>)
    returns (ok: bool, ghost raws: seq<RawId>, ghost fates: seq<Fate>)
    requires ValidDb(db.Contents()) && forall i :: 0 <= i < |jobs| ==> jobs[i].source in sources
    requires Accounts(state, jobs, [], sources) && AllDiscovered(state.discovered, jobs, sources)
    modifies db, state`inserted, state`updated, state`hadParseError, state`hadConflict
    ensures ValidDb(db.Contents()) && Extends(old(db.Contents()), db.Contents())
    ensures Accounts(state, jobs, fates, sources) && ResolvedAs(jobs, fates)
    ensures StoredWithin(old(db.Contents()), db.Contents(), state.inserted, state.discovered)
    ensures SightedAt(old(db.Contents()), db.Contents(), observedAt)
    ensures ok ==> |fates| == |raws| == |jobs| && Storing(old(db.Contents()), db.Contents(), jobs, raws, fates)
    ensures ok ==> FetchedThenStored(old(db.Contents()), jobs, raws, observedAt, db.Contents(), fates)
  {
    hide ValidDb, Extends, Storing, StoredWithin, StoredAsCounted, ResolvedAs, StoredInOrder, SightedAt, RowsStored, Accounts, AllDiscovered;
    ghost var before := db.Contents();
    ok, raws, fates := false, [], [];
    NothingResolved(jobs);
    var fetched, rawIds := FetchPostings(db, jobs);
    ghost var middle := db.Contents();
    FetchedWithin(before, middle, jobs, sources, state);
    SameSightings(before, middle, observedAt);
    if !fetched {
      return;
    }
    raws := rawIds;
    StoringRows(before, middle, jobs, rawIds);
    ok, fates := StorePostings(db, hash, jobs, rawIds, observedAt, state, before, sources);
    ExtendsTransitive(before, middle, db.Contents());
    SightedTwice(before, middle, db.Contents(), observedAt);
    BrokenOffWithin(before, db.Contents(), jobs, rawIds, fates, sources, state);
  }

  /** `discovery` is None when discovering raises, or when the result's own validator would. */
  method ExecuteProviderQuery(db: Database, hash: HashFunction, provider: string, sources: seq<string>,
                              discovery: Option<DiscoveryResult>, observedAt: Time, state: ProviderExecutionState)
    returns (ok: bool, ghost raws: seq<RawId>, ghost fates: seq<Fate>)
    requires ValidDb(db.Contents()) && state.Blank(sources) && (discovery.Some? ==> discovery.value.Consistent())
    modifies db, state
    ensures ValidDb(db.Contents()) && Extends(old(db.Contents()), db.Contents())
    ensures Reportable(state, provider, discovery, sources, fates)
    ensures Accepted(discovery, provider, sources) ==>
      |state.failures| == |discovery.value.errors|
      && forall i :: 0 <= i < |state.failures| ==> state.failures[i] == SourceFailure(provider, discovery.value.errors[i])
    ensures !Accepted(discovery, provider, sources) ==> state.failures == []
    ensures StoredWithin(old(db.Contents()), db.Contents(), state.inserted, state.discovered)
    ensures !Accepted(discovery, provider, sources) ==> db.Contents() == old(db.Contents())
    ensures ok ==> Accepted(discovery, provider, sources) && discovery.value.provider == provider
    ensures ok ==> CompletedNormally(state, discovery.value, sources, old(db.Contents()), db.Contents(), raws, fates)
    ensures ok ==> FetchedThenStored(old(db.Contents()), discovery.value.jobs, raws, observedAt, db.Contents(), fates)
    ensures SightedAt(old(db.Contents()), db.Contents(), observedAt)
  {
    hide ValidDb, Extends, Storing, AllDiscovered, SelfConsistent, Selects, Reports, StoredWithin, ResolvedAs, FetchedThenStored, SightedAt,
      Accounts, ProviderExecutionState.Recorded;
    ghost var before := db.Contents();
    ExtendsReflexive(before);
    BlankWithin(state, sources, before);
    SameSightings(before, before, observedAt);
    ok, raws, fates := false, [], [];
    if discovery.None? {
      return;
    }
    var result := discovery.value;
    var valid := CheckResult(result, provider, sources);
    if !valid {
      return;
    }
    ProviderIsChecked(result, provider, sources);
    JobsAreAsked(result, provider, sources);
    RecordAndCount(result, sources, state);
    NothingResolved(result.jobs);
    RecordedLists(state, result);
    ok, raws, fates := FetchAndStore(db, hash, result.jobs, observedAt, state, sources);
    AccountsCover(state, result.jobs, fates, sources);
  }

  lemma RecordedLists(state: ProviderExecutionState, result: DiscoveryResult)
    requires state.Recorded(result)
    ensures |state.failures| == |result.errors|
    ensures forall i :: 0 <= i < |state.failures| ==> state.failures[i] == SourceFailure(result.provider, result.errors[i])
  {
    hide Selects;
  }

  lemma StoringRows(before: Db, middle: Db, jobs: seq<Posting>, raws: seq<RawId>)
    requires Storing(before, middle, jobs, raws, [])
    ensures RowsStored(before.raws, middle.raws, jobs, raws, [])
  {
    hide RowsStored, Total, Conflicts;
  }

  lemma ProviderIsChecked(result: DiscoveryResult, provider: string, sources: seq<string>)
    requires SelfConsistent(result, provider, sources)
    ensures result.provider == provider
  {
  }

  // ---------- Conservation on normal completion ----------

  // The postings of a source whose raw row ended as a parse error.
  ghost function Unparsed(jobs: seq<Posting>, raws: seq<RawId>, now: map<RawId, Raw>, source: string): nat
    requires |raws| <= |jobs| && forall i :: 0 <= i < |raws| ==> raws[i] in now
  {
    if raws == [] then 0
    else
      var n := |raws| - 1;
      Unparsed(jobs, raws[..n], now, source) + (if jobs[n].source == source && now[raws[n]].status == ParseError then 1 else 0)
  }

  lemma {:induction false} UnparsedIsTally(jobs: seq<Posting>, raws: seq<RawId>, fates: seq<Fate>, now: map<RawId, Raw>, source: string)
    requires |fates| == |raws| <= |jobs| && forall i :: 0 <= i < |raws| ==> raws[i] in now
    requires forall i :: 0 <= i < |raws| ==> now[raws[i]].status == FateStatus(fates[i])
    ensures Unparsed(jobs, raws, now, source) == Tally(jobs, fates, source, ParseErrors)
  {
    if raws != [] {
      UnparsedIsTally(jobs, raws[..|raws| - 1], fates[..|raws| - 1], now, source);
    }
  }

  lemma {:induction false} TotalsPartition(fates: seq<Fate>)
    ensures |fates| == Total(fates, ParseErrors) + Total(fates, Inserted) + Total(fates, Updated)
  {
    if fates != [] {
      TotalsPartition(fates[..|fates| - 1]);
    }
  }

  /** The new raw rows that ended as parse errors. */
  ghost function NewUnparsed(before: Db, after: Db): set<RawId> {
    set r | r in after.raws && r !in before.raws && after.raws[r].status == ParseError
  }

  // A map that grew by as many keys as are listed, all of them new, has exactly those new keys.
  lemma {:induction false} ListedKeys<V>(before: map<nat, V>, now: map<nat, V>, keys: seq<nat>, k: nat)
    requires |now| == |before| + |keys| && (forall r :: r in before ==> r in now)
    requires forall i, j :: 0 <= i < j < |keys| ==> keys[i] != keys[j]
    requires forall i :: 0 <= i < |keys| ==> keys[i] !in before && keys[i] in now
    requires k in now && k !in before
    ensures k in keys
  {
    if keys == [] {
      SameKeys(before.Keys, now.Keys);
    } else {
      var last := keys[|keys| - 1];
      if k != last {
        RemoveShrinks(now, last);
        ListedKeys(before, now - {last}, keys[..|keys| - 1], k);
      }
    }
  }

  lemma {:induction false} SameKeys(a: set<nat>, b: set<nat>)
    requires a <= b && |a| == |b|
    ensures a == b
  {
    if x :| x in a {
      SameKeys(a - {x}, b - {x});
    } else {
      assert a == {};
    }
  }

  function UnresolvedRaws(raws: seq<RawId>, fates: seq<Fate>): set<RawId>
    requires |fates| <= |raws|
  {
    set i | 0 <= i < |fates| && fates[i].Unresolved? :: raws[i]
  }

  lemma {:induction false} UnresolvedAreCounted(raws: seq<RawId>, fates: seq<Fate>)
    requires |fates| <= |raws| && forall i, j :: 0 <= i < j < |raws| ==> raws[i] != raws[j]
    ensures |UnresolvedRaws(raws, fates)| == Total(fates, ParseErrors)
  {
    if fates != [] {
      var n := |fates| - 1;
      UnresolvedAreCounted(raws, fates[..n]);
      assert UnresolvedRaws(raws, fates) == UnresolvedRaws(raws, fates[..n]) + (if fates[n].Unresolved? then {raws[n]} else {});
    }
  }

  lemma NewUnparsedAreCounted(before: Db, after: Db, jobs: seq<Posting>, raws: seq<RawId>, fates: seq<Fate>)
    requires Storing(before, after, jobs, raws, fates) && |fates| == |raws|
    ensures |NewUnparsed(before, after)| == Total(fates, ParseErrors)
  {
    hide Total, Conflicts, FetchedRow;
    UnresolvedAreCounted(raws, fates);
    forall r | r in NewUnparsed(before, after)
      ensures r in UnresolvedRaws(raws, fates)
    {
      ListedKeys(before.raws, after.raws, raws, r);
      var i :| 0 <= i < |raws| && raws[i] == r;
      assert after.raws[raws[i]].status == FateStatus(fates[i]);
    }
    forall r | r in UnresolvedRaws(raws, fates)
      ensures r in NewUnparsed(before, after)
    {
      var i :| 0 <= i < |fates| && fates[i].Unresolved? && raws[i] == r;
      assert after.raws[raws[i]].status == FateStatus(fates[i]);
    }
    assert UnresolvedRaws(raws, fates) == NewUnparsed(before, after);
  }

  /** What a completed execution's counters sum to, in rows of the tables: discovered the new raw rows, inserted
      the new jobs, updated what remains of the new raw rows that are no parse errors. */
  lemma CompletionIsCounted(state: ProviderExecutionState, result: DiscoveryResult, sources: seq<string>,
                            before: Db, after: Db, raws: seq<RawId>, fates: seq<Fate>)
    requires CompletedNormally(state, result, sources, before, after, raws, fates)
    ensures |after.raws| == |before.raws| + Sum(state.discovered)
    ensures |after.jobs| == |before.jobs| + Sum(state.inserted)
    ensures Sum(state.discovered) == Sum(state.inserted) + Sum(state.updated) + |NewUnparsed(before, after)|
    ensures forall r :: r in before.raws ==> r in after.raws && after.raws[r] == before.raws[r]
  {
    hide Selects, Count, Tally, Sum, Total, Conflicts, FetchedRow, Reports, Storing, NewUnparsed;
    RowsAreFinished(before, after, result.jobs, raws, fates);
    NewUnparsedAreCounted(before, after, result.jobs, raws, fates);
    TotalsPartition(fates);
    RowsAreKept(before, after, result.jobs, raws, fates);
  }

  lemma RowsAreKept(before: Db, after: Db, jobs: seq<Posting>, raws: seq<RawId>, fates: seq<Fate>)
    requires Storing(before, after, jobs, raws, fates)
    ensures forall r :: r in before.raws ==> r in after.raws && after.raws[r] == before.raws[r]
  {
    hide Total, Conflicts, FetchedRow;
  }

  /** On normal completion every queried source's discovered count is what the result declared, the number
      of its postings, and is its inserted plus its updated count plus its raw rows left as parse errors;
      inserted and updated are its postings with an identity; the inserted counts sum to the jobs created,
      and every posting has exactly one new raw row, none of them still merely fetched. */
  lemma CompletionConserves(state: ProviderExecutionState, result: DiscoveryResult, sources: seq<string>,
                            before: Db, after: Db, raws: seq<RawId>, fates: seq<Fate>, i: nat)
    requires CompletedNormally(state, result, sources, before, after, raws, fates) && i < |result.stats|
    ensures forall k :: 0 <= k < |raws| ==> raws[k] in after.raws && after.raws[raws[k]].status != Fetched
    ensures var s := result.stats[i].source;
            s in sources && state.Covers(sources)
            && state.discovered[s] == result.stats[i].jobsFound
            && state.discovered[s] == |PostingsOf(result.jobs, s)|
            && state.discovered[s] == state.inserted[s] + state.updated[s] + Unparsed(result.jobs, raws, after.raws, s)
            && state.inserted[s] + state.updated[s] == |Identified(result.jobs, s)|
    ensures |after.raws| == |before.raws| + Sum(state.discovered)
    ensures |after.jobs| == |before.jobs| + Sum(state.inserted)
    ensures Sum(state.inserted) + Sum(state.updated) <= Sum(state.discovered)
  {
    hide Selects, Count, Tally, Sum, Total, Conflicts, FetchedRow, Reports, Storing, Unparsed, PostingsOf, Identified, ResolvedAs;
    var s := result.stats[i].source;
    CountIsHowMany(result.jobs, s);
    StoredAreIdentified(result.jobs, fates, s);
    assert result.HasSource(s);
    RowsAreFinished(before, after, result.jobs, raws, fates);
    UnparsedIsTally(result.jobs, raws, fates, after.raws, s);
    BucketsPartition(result.jobs, fates, s);
    assert result.jobs[..|fates|] == result.jobs;
    TotalsPartition(fates);
  }

  lemma RowsAreFinished(before: Db, after: Db, jobs: seq<Posting>, raws: seq<RawId>, fates: seq<Fate>)
    requires Storing(before, after, jobs, raws, fates) && |fates| == |raws|
    ensures forall k :: 0 <= k < |raws| ==>
      raws[k] in after.raws && after.raws[raws[k]].status == FateStatus(fates[k]) != Fetched
    ensures |after.raws| == |before.raws| + |raws| && |after.jobs| == |before.jobs| + Total(fates, Inserted)
  {
    hide Total, Conflicts, FetchedRow;
  }
}
