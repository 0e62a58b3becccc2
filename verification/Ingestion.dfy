/** The four ingestion tables, the identity rules over them, and `Persist`: what one posting's
    transaction does to the tables when it runs alone. */
module Ingestion {
  import opened Options
  import opened CoveredText
  import opened NaturalKeys

  type JobId = nat
  type OccurrenceId = nat
  type RawId = nat
  type Time = int

  // A URL in normalized form: never blank, never with covered whitespace at an end.
  type NormalizedUrl = s: string | s != [] && IsTrimmed(s) witness "u"

  /** A discovered job, reduced to what identity resolution reads.  The URLs are the results of
      URL normalization and the hash that of the raw payload. */
  datatype Posting = Posting(
    provider: string, source: string, tenant: Option<string>, sourceJobId: Option<string>,
    requisition: Option<string>, sourceUrl: Option<NormalizedUrl>, canonicalUrl: Option<NormalizedUrl>,
    contentHash: string, discoveredAt: Time)

  datatype Job = Job(firstSeen: Time, lastSeen: Time)

  datatype Occurrence = Occurrence(
    job: JobId, provider: string, source: string, tenant: Option<string>, sourceJobId: Option<string>,
    requisition: Option<string>, sourceUrl: Option<string>, canonicalUrl: Option<string>,
    firstSeen: Time, lastSeen: Time, active: bool)

  datatype RawStatus = Fetched | ParseError | Normalized | IdentityConflict

  datatype Raw = Raw(
    provider: string, source: string, identifier: Option<string>, contentHash: string, fetchedAt: Time,
    status: RawStatus, occurrence: Option<OccurrenceId>)

  datatype ConflictDetail =
    | EvidenceMismatch(occurrence: OccurrenceId, existing: Option<string>, incoming: Option<string>)
    | AmbiguousMatch(candidates: seq<JobId>, created: OccurrenceId)

  datatype Conflict = Conflict(raw: RawId, detail: ConflictDetail)

  datatype Db = Db(
    jobs: map<JobId, Job>, occurrences: map<OccurrenceId, Occurrence>,
    raws: map<RawId, Raw>, conflicts: seq<Conflict>)

  const EMPTY_DB := Db(map[], map[], map[], [])

  // One request to persist a posting against an already written raw row.
  datatype Call = Call(key: NaturalKey, posting: Posting, observedAt: Time, rawId: RawId)

  function Later(a: Time, b: Time): Time {
    if a < b then b else a
  }

  // ---------- Identity ----------

  function ResolveIdentity(p: Posting): Option<NaturalKey> {
    Resolve(p.provider, p.source, p.tenant, p.sourceJobId, p.sourceUrl)
  }

  // The row a posting is stored as, after the row validators have canonicalized its columns.
  function NewRow(call: Call, job: JobId): Occurrence {
    var p := call.posting;
    Occurrence(
      job, CanonicalizeIdentifier(p.provider), CanonicalizeIdentifier(p.source),
      CanonicalizeNullableText(p.tenant), CanonicalizeNullableText(p.sourceJobId),
      CanonicalizeNullableText(p.requisition), CanonicalizeNullableText(call.key.urlNormalized),
      CanonicalizeNullableText(p.canonicalUrl), call.observedAt, call.observedAt, true)
  }

  // The natural key a stored row resolves to from its own columns.
  function OwnKey(row: Occurrence): Option<NaturalKey> {
    Resolve(row.provider, row.source, row.tenant, row.sourceJobId, row.sourceUrl)
  }

  predicate StoredForm(row: Occurrence) {
    && CanonicalIdentifier(row.provider) && CanonicalIdentifier(row.source)
    && CanonicalNullable(row.tenant) && CanonicalNullable(row.sourceJobId)
    && CanonicalNullable(row.requisition) && CanonicalNullable(row.sourceUrl)
    && CanonicalNullable(row.canonicalUrl)
    && (row.sourceJobId.Some? || row.sourceUrl.Some?)
  }

  // The domain-scoped lookup conditions of the exact natural-key match.
  predicate Matches(key: NaturalKey, row: Occurrence) {
    && row.provider == key.provider
    && row.source == key.source
    && match key.domain
       case Tenant => row.tenant == key.tenantId && row.sourceJobId == key.jobId
       case NoTenant => row.tenant.None? && row.sourceJobId == key.jobId
       case Url => row.sourceJobId.None? && row.sourceUrl == key.urlNormalized
  }

  /** The lookup conditions match a stored row exactly when the row's own key is the key
      looked up, for every key and every row in stored form. */
  lemma MatchesExactlyOwnKey(key: NaturalKey, row: Occurrence)
    requires key.WellFormed() && StoredForm(row)
    ensures OwnKey(row).Some? && (Matches(key, row) <==> SameIdentity(OwnKey(row).value, key))
  {
    StoredKey(row);
    var own := OwnKey(row).value;
    if own.domain == key.domain {
      var a, b := own.Components(), key.Components();
      if a == b {
        assert a[0] == b[0] && a[1] == b[1] && a[2] == b[2];
        if key.domain.Tenant? {
          assert a[3] == b[3];
        }
      }
    }
  }

  // The key of a stored row, read off its columns.
  lemma StoredKey(row: Occurrence)
    requires StoredForm(row)
    ensures OwnKey(row).Some? && OwnKey(row).value ==
      if row.sourceJobId.Some? && row.tenant.Some? then
        NaturalKey(Tenant, row.provider, row.source, row.tenant, row.sourceJobId, row.sourceUrl)
      else if row.sourceJobId.Some? then
        NaturalKey(NoTenant, row.provider, row.source, None, row.sourceJobId, row.sourceUrl)
      else NaturalKey(Url, row.provider, row.source, None, None, row.sourceUrl)
  {
    CanonicalizationIsStable(row.provider, row.tenant);
    CanonicalizationIsStable(row.source, row.sourceJobId);
  }

  /** A row written for a validated posting is in stored form, carries the posting's canonical
      URL unchanged, and resolves back to exactly the key it was written under. */
  lemma NewRowResolvesToItsKey(call: Call, job: JobId)
    requires ResolveIdentity(call.posting) == Some(call.key)
    ensures var row := NewRow(call, job);
            StoredForm(row) && OwnKey(row) == Some(call.key) && row.canonicalUrl == call.posting.canonicalUrl
  {
    var p := call.posting;
    CanonicalizationIsStable(CanonicalizeIdentifier(p.provider), CanonicalizeNullableText(p.tenant));
    CanonicalizationIsStable(CanonicalizeIdentifier(p.source), CanonicalizeNullableText(p.sourceJobId));
    CanonicalizationIsStable("", p.sourceUrl);
    CanonicalizationIsStable("", p.canonicalUrl);
  }

  function Matching(db: Db, key: NaturalKey): set<OccurrenceId> {
    set o | o in db.occurrences && Matches(key, db.occurrences[o])
  }

  // ---------- Cross-occurrence tiers ----------

  datatype Filter =
    | CanonicalUrl(url: string)
    | TenantRequisition(provider: string, source: string, tenant: string, requisition: string)

  // Tier 2 when a canonical URL is usable; otherwise tier 3 when tenant and requisition are present.
  function TierFilter(call: Call): Option<Filter> {
    var tenant := CanonicalizeNullableText(call.posting.tenant);
    var requisition := CanonicalizeNullableText(call.posting.requisition);
    if call.posting.canonicalUrl.Some? then Some(CanonicalUrl(call.posting.canonicalUrl.value))
    else if tenant.Some? && requisition.Some? then
      Some(TenantRequisition(call.key.provider, call.key.source, tenant.value, requisition.value))
    else None
  }

  predicate FilterMatches(filter: Filter, row: Occurrence) {
    match filter
    case CanonicalUrl(url) => row.canonicalUrl == Some(url)
    case TenantRequisition(provider, source, tenant, requisition) =>
      row.provider == provider && row.source == source && row.tenant == Some(tenant)
      && row.requisition == Some(requisition)
  }

  function Candidates(db: Db, filter: Filter): set<JobId> {
    set o | o in db.occurrences && FilterMatches(filter, db.occurrences[o]) :: db.occurrences[o].job
  }

  // What a limit-2 query for distinct jobs may return: any two of them, or all when fewer.
  predicate LimitTwo(rows: seq<JobId>, all: set<JobId>) {
    && |rows| == (if |all| < 2 then |all| else 2)
    && (forall i :: 0 <= i < |rows| ==> rows[i] in all)
    && (|rows| == 2 ==> rows[0] != rows[1])
  }

  function Least(ids: set<nat>): (m: nat)
    requires ids != {}
    ensures m in ids && forall x :: x in ids ==> m <= x
  {
    LeastExists(ids);
    var m :| m in ids && forall x :: x in ids ==> m <= x;
    m
  }

  lemma LeastOf(ids: set<nat>) returns (m: nat)
    requires ids != {}
    ensures m in ids && forall x :: x in ids ==> m <= x
  {
    var y :| y in ids;
    var rest := ids - {y};
    assert forall x :: x in ids ==> x == y || x in rest;
    if rest == {} {
      m := y;
    } else {
      var least := LeastOf(rest);
      m := if y < least then y else least;
    }
  }

  lemma LeastExists(ids: set<nat>)
    requires ids != {}
    ensures exists m :: m in ids && forall x :: x in ids ==> m <= x
  {
    var m := LeastOf(ids);
  }

  predicate StrictlyIncreasing(s: seq<nat>) {
    forall i, j :: 0 <= i < j < |s| ==> s[i] < s[j]
  }

  function SortedIds(ids: set<nat>): (s: seq<nat>)
    ensures StrictlyIncreasing(s) && |s| == |ids|
    ensures forall x :: x in s <==> x in ids
  {
    if ids == {} then []
    else
      var m := Least(ids);
      var rest := SortedIds(ids - {m});
      assert forall i :: 0 <= i < |rest| ==> rest[i] in ids - {m};
      [m] + rest
  }

  lemma SortedIdsInjective(a: set<nat>, b: set<nat>)
    ensures SortedIds(a) == SortedIds(b) <==> a == b
  {
    if SortedIds(a) == SortedIds(b) {
      assert forall x :: x in a <==> x in SortedIds(a);
      assert forall x :: x in b <==> x in SortedIds(b);
    }
  }

  function Only(ids: set<nat>): (x: nat)
    requires |ids| == 1
    ensures ids == {x}
  {
    var x := Least(ids);
    assert |ids - {x}| == 0;
    assert ids == {x} + (ids - {x});
    x
  }

  // ---------- Decisions ----------

  datatype Decision =
    | Insert
    | AttachTo(job: JobId)
    | Ambiguous(candidates: seq<JobId>)

  // The simple specification of the tiers: none inserts, one attaches, more are ambiguous.
  function Decide(candidates: set<JobId>): Decision {
    if |candidates| == 0 then Insert
    else if |candidates| == 1 then AttachTo(Only(candidates))
    else Ambiguous(SortedIds(candidates))
  }

  lemma DecideInjective(a: set<JobId>, b: set<JobId>)
    ensures Decide(a) == Decide(b) <==> a == b
  {
    hide SortedIds;
    SortedIdsInjective(a, b);
    assert |a| == 0 ==> a == {};
    assert |b| == 0 ==> b == {};
    assert |a| == 1 ==> a == {Only(a)};
    assert |b| == 1 ==> b == {Only(b)};
  }

  function FilterCandidates(db: Db, filter: Option<Filter>): set<JobId> {
    if filter.None? then {} else Candidates(db, filter.value)
  }

  // ---------- Outcomes ----------

  datatype UpsertKind = INSERTED | UPDATED | QUARANTINED | ATTACHED | AMBIGUOUS

  datatype Outcome = Outcome(job: JobId, occurrence: OccurrenceId, kind: UpsertKind, candidates: Option<seq<JobId>>)
  {
    // Candidate jobs are carried exactly by ambiguous outcomes: two or more, distinct, sorted.
    predicate Valid() {
      if kind == AMBIGUOUS then candidates.Some? && |candidates.value| >= 2 && StrictlyIncreasing(candidates.value)
      else candidates.None?
    }
  }

  datatype Error = NoRawRow | InvalidAssociation | EncodingOverflow | MultipleOccurrences | Unstable
  datatype Result<+T> = Ok(value: T) | Err(error: Error)

  // ---------- Writes ----------

  // The raw row's terminal update, with the conflict row when the outcome calls for one.
  function FinishRaw(db: Db, call: Call, occurrence: OccurrenceId, detail: Option<ConflictDetail>): Db
    requires call.rawId in db.raws
  {
    var status := if detail.Some? then IdentityConflict else Normalized;
    db.(raws := db.raws[call.rawId := db.raws[call.rawId].(status := status, occurrence := Some(occurrence))],
        conflicts := if detail.Some? then db.conflicts + [Conflict(call.rawId, detail.value)] else db.conflicts)
  }

  predicate IsMismatch(row: Occurrence, call: Call) {
    row.canonicalUrl.Some? && call.posting.canonicalUrl.Some? && row.canonicalUrl.value != call.posting.canonicalUrl.value
  }

  // Writes of the found branch: only observational columns, plus the raw row.
  function WriteTouch(db: Db, call: Call, occurrence: OccurrenceId, lastSeen: Time, jobLastSeen: Time, mismatch: bool): Db
    requires occurrence in db.occurrences && db.occurrences[occurrence].job in db.jobs && call.rawId in db.raws
  {
    var row := db.occurrences[occurrence];
    var touched := db.(
      occurrences := db.occurrences[occurrence := row.(lastSeen := lastSeen, active := true)],
      jobs := db.jobs[row.job := db.jobs[row.job].(lastSeen := jobLastSeen)]);
    FinishRaw(touched, call, occurrence,
      if mismatch then Some(EvidenceMismatch(occurrence, row.canonicalUrl, call.posting.canonicalUrl)) else None)
  }

  // Writes of the miss branch: attach under an existing job, or create a standalone one.
  function WriteNew(db: Db, call: Call, decision: Decision, jobLastSeen: Time, newJob: JobId, newOccurrence: OccurrenceId): Db
    requires call.rawId in db.raws && (decision.AttachTo? ==> decision.job in db.jobs)
  {
    match decision
    case AttachTo(job) =>
      FinishRaw(db.(
        jobs := db.jobs[job := db.jobs[job].(lastSeen := Later(jobLastSeen, call.observedAt))],
        occurrences := db.occurrences[newOccurrence := NewRow(call, job)]),
        call, newOccurrence, None)
    case _ =>
      FinishRaw(db.(
        jobs := db.jobs[newJob := Job(call.observedAt, call.observedAt)],
        occurrences := db.occurrences[newOccurrence := NewRow(call, newJob)]),
        call, newOccurrence,
        if decision.Ambiguous? then Some(AmbiguousMatch(decision.candidates, newOccurrence)) else None)
  }

  function TouchOutcome(row: Occurrence, occurrence: OccurrenceId, mismatch: bool): Outcome {
    Outcome(row.job, occurrence, if mismatch then QUARANTINED else UPDATED, None)
  }

  function NewOutcome(decision: Decision, newJob: JobId, newOccurrence: OccurrenceId): Outcome {
    match decision
    case Insert => Outcome(newJob, newOccurrence, INSERTED, None)
    case AttachTo(job) => Outcome(job, newOccurrence, ATTACHED, None)
    case Ambiguous(candidates) => Outcome(newJob, newOccurrence, AMBIGUOUS, Some(candidates))
  }

  // Everything checked under the raw row's lock before any write.
  predicate AssociationValid(raw: Raw, call: Call) {
    && raw.status == Fetched && raw.occurrence.None?
    && raw.provider == call.key.provider && raw.source == call.key.source
    && raw.identifier == call.key.jobId
    && raw.contentHash == call.posting.contentHash
    && raw.fetchedAt == call.posting.discoveredAt
    && ResolveIdentity(call.posting) == Some(call.key)
  }

  // None when the key cannot be encoded, which raises before any lock is requested.
  function NaturalLock(hash: HashFunction, key: NaturalKey): Option<int> {
    if key.WellFormed() && Encodable(key.Components()) then Some(LockNumber(hash(key.CanonicalBytes()))) else None
  }

  function TierBytes(filter: Filter): Option<seq<Byte>> {
    match filter
    case CanonicalUrl(url) => if Encodable([url]) then Some(CanonicalUrlBytes(url)) else None
    case TenantRequisition(p, s, t, r) =>
      if Encodable([p, s, t, r]) then Some(TenantRequisitionBytes(p, s, t, r)) else None
  }

  function TierLock(hash: HashFunction, filter: Filter): Option<int> {
    if TierBytes(filter).None? then None else Some(LockNumber(hash(TierBytes(filter).value)))
  }

  // The existing occurrence's branch: advance the sightings, quarantine on a URL disagreement.
  function PersistFound(db: Db, call: Call, o: OccurrenceId): Result<(Db, Outcome)>
    requires o in db.occurrences && call.rawId in db.raws
  {
    var row := db.occurrences[o];
    var mismatch := IsMismatch(row, call);
    if row.job !in db.jobs then Err(Unstable)
    else Ok((WriteTouch(db, call, o, Later(row.lastSeen, call.observedAt),
               Later(db.jobs[row.job].lastSeen, call.observedAt), mismatch),
             TouchOutcome(row, o, mismatch)))
  }

  // The new occurrence's branch: under the one candidate job, or under a job of its own.
  function PersistMissed(hash: HashFunction, db: Db, call: Call, newJob: JobId, newOccurrence: OccurrenceId): Result<(Db, Outcome)>
    requires call.rawId in db.raws
  {
    var filter := TierFilter(call);
    if filter.Some? && TierLock(hash, filter.value).None? then Err(EncodingOverflow)
    else
      var decision := Decide(FilterCandidates(db, filter));
      if decision.AttachTo? && decision.job !in db.jobs then Err(Unstable)
      else
        var jobLastSeen := if decision.AttachTo? then db.jobs[decision.job].lastSeen else 0;
        Ok((WriteNew(db, call, decision, jobLastSeen, newJob, newOccurrence),
            NewOutcome(decision, newJob, newOccurrence)))
  }

  /** What one transaction does when nothing else runs: the specification both the statement-by-
      statement method and the interleaved protocol are held against. */
  function Persist(hash: HashFunction, db: Db, call: Call, newJob: JobId, newOccurrence: OccurrenceId): Result<(Db, Outcome)>
  {
    if call.rawId !in db.raws then Err(NoRawRow)
    else if !AssociationValid(db.raws[call.rawId], call) then Err(InvalidAssociation)
    else if NaturalLock(hash, call.key).None? then Err(EncodingOverflow)
    else
      var matching := Matching(db, call.key);
      if |matching| > 1 then Err(MultipleOccurrences)
      else if |matching| == 1 then PersistFound(db, call, Only(matching))
      else PersistMissed(hash, db, call, newJob, newOccurrence)
  }

  // ---------- Raw rows outside the posting transaction ----------

  function FetchedRow(p: Posting): Raw {
    Raw(CanonicalizeIdentifier(p.provider), CanonicalizeIdentifier(p.source), CanonicalizeNullableText(p.sourceJobId),
        p.contentHash, p.discoveredAt, Fetched, None)
  }

  // Marking overwrites the status unconditionally; the row constraint that an unprocessed row has
  // no occurrence refuses it for a linked row, and the whole transaction then rolls back.
  function MarkedParseError(db: Db, raw: RawId): Db
    requires raw in db.raws
  {
    if db.raws[raw].occurrence.Some? then db
    else db.(raws := db.raws[raw := db.raws[raw].(status := ParseError)])
  }

  // ---------- Table invariants ----------

  ghost predicate ValidOccurrences(db: Db) {
    forall o :: o in db.occurrences ==>
      var row := db.occurrences[o];
      StoredForm(row) && row.job in db.jobs
      && row.firstSeen <= row.lastSeen <= db.jobs[row.job].lastSeen
  }

  // Each job's last sighting is that of one of its occurrences (and, above, bounds them all).
  ghost predicate ValidJobs(db: Db) {
    forall j :: j in db.jobs ==>
      && db.jobs[j].firstSeen <= db.jobs[j].lastSeen
      && exists o :: o in db.occurrences && db.occurrences[o].job == j
                     && db.occurrences[o].lastSeen == db.jobs[j].lastSeen
  }

  // No two stored rows resolve to the same natural key.
  predicate SameOwnKey(row: Occurrence, row': Occurrence) {
    OwnKey(row).Some? && OwnKey(row').Some? && SameIdentity(OwnKey(row).value, OwnKey(row').value)
  }

  ghost predicate UniqueNaturalKeys(db: Db) {
    forall o, o' :: o in db.occurrences && o' in db.occurrences && o != o' ==>
      !SameOwnKey(db.occurrences[o], db.occurrences[o'])
  }

  ghost predicate OneJobPerCanonicalUrl(db: Db) {
    forall o, o' :: o in db.occurrences && o' in db.occurrences
      && db.occurrences[o].canonicalUrl.Some? && db.occurrences[o].canonicalUrl == db.occurrences[o'].canonicalUrl
      ==> db.occurrences[o].job == db.occurrences[o'].job
  }

  // Processed rows are linked, unprocessed ones are not; conflict rows and conflicted raw rows
  // correspond one to one.
  ghost predicate ValidRaws(db: Db) {
    && (forall r :: r in db.raws ==>
          match db.raws[r].status
          case Fetched => db.raws[r].occurrence.None?
          case ParseError => db.raws[r].occurrence.None?
          case _ => db.raws[r].occurrence.Some? && db.raws[r].occurrence.value in db.occurrences)
    && (forall i :: 0 <= i < |db.conflicts| ==>
          db.conflicts[i].raw in db.raws && db.raws[db.conflicts[i].raw].status == IdentityConflict)
    && (forall i, i' :: 0 <= i < i' < |db.conflicts| ==> db.conflicts[i].raw != db.conflicts[i'].raw)
    && (forall r :: r in db.raws && db.raws[r].status == IdentityConflict ==>
          exists i :: 0 <= i < |db.conflicts| && db.conflicts[i].raw == r)
  }

  ghost predicate ValidDb(db: Db) {
    ValidOccurrences(db) && ValidJobs(db) && UniqueNaturalKeys(db) && OneJobPerCanonicalUrl(db) && ValidRaws(db)
  }

  lemma MatchingPair(db: Db, key: NaturalKey, o: OccurrenceId, o': OccurrenceId)
    requires ValidOccurrences(db) && UniqueNaturalKeys(db) && key.WellFormed()
    requires o in Matching(db, key) && o' in Matching(db, key)
    ensures o == o'
  {
    MatchesExactlyOwnKey(key, db.occurrences[o]);
    MatchesExactlyOwnKey(key, db.occurrences[o']);
  }

  lemma Subsingleton(ids: set<nat>)
    requires forall x, y :: x in ids && y in ids ==> x == y
    ensures |ids| <= 1 && forall x :: x in ids ==> ids == {x}
  {
    if x :| x in ids {
      assert ids == {x};
    }
  }

  lemma MatchingAtMostOne(db: Db, key: NaturalKey)
    requires ValidOccurrences(db) && UniqueNaturalKeys(db) && key.WellFormed()
    ensures |Matching(db, key)| <= 1
    ensures forall o :: o in Matching(db, key) ==> Matching(db, key) == {o}
  {
    forall o, o' | o in Matching(db, key) && o' in Matching(db, key)
      ensures o == o'
    {
      MatchingPair(db, key, o, o');
    }
    Subsingleton(Matching(db, key));
  }

  // A canonical URL already on file names at most one candidate job.
  lemma CanonicalCandidatesAtMostOne(db: Db, url: string)
    requires OneJobPerCanonicalUrl(db)
    ensures |Candidates(db, CanonicalUrl(url))| <= 1
  {
    Subsingleton(Candidates(db, CanonicalUrl(url)));
  }
}
