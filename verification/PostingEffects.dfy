/** What a stored posting leaves in the tables, row by row and column by column, and which of the five
    outcomes it comes to. */
module PostingEffects {
  import opened Options
  import opened CoveredText
  import opened NaturalKeys
  import opened Ingestion

  // Only the row `k` may differ.
  ghost predicate SameBut<V(!new)>(before: map<nat, V>, after: map<nat, V>, k: nat) {
    && (forall x :: x in before && x != k ==> x in after && after[x] == before[x])
    && (forall x :: x in after && x != k ==> x in before)
  }

  predicate Latest(time: Time, a: Time, b: Time) {
    a <= time && b <= time && (time == a || time == b)
  }

  // ---------- The rows ----------

  // A job is sighted again: nothing moves but its last sighting, forward.
  predicate JobSighted(before: Job, after: Job, at: Time) {
    after.firstSeen == before.firstSeen && Latest(after.lastSeen, before.lastSeen, at)
  }

  predicate OccurrenceSighted(before: Occurrence, after: Occurrence, at: Time) {
    after == before.(lastSeen := after.lastSeen, active := true) && Latest(after.lastSeen, before.lastSeen, at)
  }

  // A new occurrence: the posting's own columns under its own key, first and last seen now.
  predicate OccurrenceWritten(row: Occurrence, call: Call, job: JobId) {
    && row.job == job && row.firstSeen == call.observedAt && row.lastSeen == call.observedAt && row.active
    && OwnKey(row) == Some(call.key) && row.canonicalUrl == call.posting.canonicalUrl
    && row.tenant == CanonicalizeNullableText(call.posting.tenant)
    && row.requisition == CanonicalizeNullableText(call.posting.requisition)
  }

  predicate UrlsDisagree(row: Occurrence, call: Call) {
    row.canonicalUrl.Some? && call.posting.canonicalUrl.Some? && row.canonicalUrl != call.posting.canonicalUrl
  }

  // The raw row is linked to the occurrence, and in conflict when a conflict row was written for it.
  ghost predicate RawLinked(db: Db, call: Call, db': Db, occurrence: OccurrenceId, added: seq<Conflict>) {
    && SameBut(db.raws, db'.raws, call.rawId) && call.rawId in db.raws && call.rawId in db'.raws
    && db'.raws[call.rawId] == db.raws[call.rawId].(
         status := if added == [] then Normalized else IdentityConflict, occurrence := Some(occurrence))
    && db'.conflicts == db.conflicts + added
  }

  /** An occurrence that was there: it and its job are sighted again. */
  ghost predicate Resighted(db: Db, call: Call, db': Db, job: JobId, o: OccurrenceId) {
    && SameBut(db.jobs, db'.jobs, job) && SameBut(db.occurrences, db'.occurrences, o)
    && job in db.jobs && job in db'.jobs && JobSighted(db.jobs[job], db'.jobs[job], call.observedAt)
    && o in db.occurrences && o in db'.occurrences && db.occurrences[o].job == job
    && Matches(call.key, db.occurrences[o])
    && OccurrenceSighted(db.occurrences[o], db'.occurrences[o], call.observedAt)
  }

  /** A new occurrence under a job that was there, which is sighted again. */
  ghost predicate Joined(db: Db, call: Call, db': Db, job: JobId, o: OccurrenceId) {
    && SameBut(db.jobs, db'.jobs, job) && SameBut(db.occurrences, db'.occurrences, o)
    && job in db.jobs && job in db'.jobs && JobSighted(db.jobs[job], db'.jobs[job], call.observedAt)
    && o !in db.occurrences && o in db'.occurrences && OccurrenceWritten(db'.occurrences[o], call, job)
  }

  /** A new occurrence under a new job, first and last seen when the posting was observed. */
  ghost predicate Founded(db: Db, call: Call, db': Db, job: JobId, o: OccurrenceId) {
    && SameBut(db.jobs, db'.jobs, job) && SameBut(db.occurrences, db'.occurrences, o)
    && job !in db.jobs && job in db'.jobs
    && db'.jobs[job].firstSeen == call.observedAt && db'.jobs[job].lastSeen == call.observedAt
    && o !in db.occurrences && o in db'.occurrences && OccurrenceWritten(db'.occurrences[o], call, job)
  }

  /** What a posting changed among jobs and occurrences, by the outcome it reported. */
  ghost predicate RowEffects(db: Db, call: Call, db': Db, outcome: Outcome) {
    var job, o := outcome.job, outcome.occurrence;
    match outcome.kind
    case UPDATED => Resighted(db, call, db', job, o) && !UrlsDisagree(db.occurrences[o], call)
    case QUARANTINED => Resighted(db, call, db', job, o) && UrlsDisagree(db.occurrences[o], call)
    case ATTACHED => Joined(db, call, db', job, o)
    case _ => Founded(db, call, db', job, o)
  }

  // The conflict row that goes with an outcome, if any: both URLs as found, or all tied jobs.
  ghost predicate ConflictAdded(db: Db, call: Call, outcome: Outcome, added: seq<Conflict>) {
    match outcome.kind
    case QUARANTINED =>
      outcome.occurrence in db.occurrences
      && added == [Conflict(call.rawId, EvidenceMismatch(outcome.occurrence, db.occurrences[outcome.occurrence].canonicalUrl,
                                                         call.posting.canonicalUrl))]
    case AMBIGUOUS =>
      outcome.candidates.Some? && added == [Conflict(call.rawId, AmbiguousMatch(outcome.candidates.value, outcome.occurrence))]
    case _ => added == []
  }

  /** Everything a stored posting changed. */
  ghost predicate Effects(db: Db, call: Call, db': Db, outcome: Outcome) {
    && RowEffects(db, call, db', outcome)
    && exists added :: ConflictAdded(db, call, outcome, added) && RawLinked(db, call, db', outcome.occurrence, added)
  }

  // ---------- Which outcome ----------

  // The evidence a posting goes by when its key is new: its canonical URL if it has one, and otherwise
  // tenant and requisition within provider and source.
  predicate SharesEvidence(row: Occurrence, call: Call) {
    if call.posting.canonicalUrl.Some? then row.canonicalUrl == call.posting.canonicalUrl
    else
      && row.provider == call.key.provider && row.source == call.key.source
      && row.tenant.Some? && row.tenant == CanonicalizeNullableText(call.posting.tenant)
      && row.requisition.Some? && row.requisition == CanonicalizeNullableText(call.posting.requisition)
  }

  ghost predicate Holds(db: Db, call: Call, job: JobId) {
    exists o :: o in db.occurrences && db.occurrences[o].job == job && SharesEvidence(db.occurrences[o], call)
  }

  /** Where the evidence leads: no job holds it, exactly the one attached to, or exactly those listed. */
  ghost predicate ChosenAmong(db: Db, call: Call, outcome: Outcome) {
    match outcome.kind
    case INSERTED => forall job :: !Holds(db, call, job)
    case ATTACHED => forall job :: Holds(db, call, job) <==> job == outcome.job
    case AMBIGUOUS =>
      outcome.candidates.Some? && |outcome.candidates.value| >= 2 && StrictlyIncreasing(outcome.candidates.value)
      && forall job :: Holds(db, call, job) <==> job in outcome.candidates.value
    case _ => true
  }

  // An occurrence is found again exactly when one with the posting's key was there.
  ghost predicate KeyDecides(db: Db, call: Call, outcome: Outcome) {
    (outcome.kind == UPDATED || outcome.kind == QUARANTINED)
    <==> exists o :: o in db.occurrences && Matches(call.key, db.occurrences[o])
  }

  lemma SharingIsMatching(row: Occurrence, call: Call)
    ensures SharesEvidence(row, call) <==> TierFilter(call).Some? && FilterMatches(TierFilter(call).value, row)
  {
  }

  lemma HoldersAreCandidates(db: Db, call: Call, job: JobId)
    ensures Holds(db, call, job) <==> job in FilterCandidates(db, TierFilter(call))
  {
    hide SharesEvidence, FilterMatches, TierFilter;
    if Holds(db, call, job) {
      var o :| o in db.occurrences && db.occurrences[o].job == job && SharesEvidence(db.occurrences[o], call);
      SharingIsMatching(db.occurrences[o], call);
    }
    if job in FilterCandidates(db, TierFilter(call)) {
      var o :| o in db.occurrences && FilterMatches(TierFilter(call).value, db.occurrences[o]) && db.occurrences[o].job == job;
      SharingIsMatching(db.occurrences[o], call);
    }
  }

  /** The outcome of a decision on some candidate set is where the evidence leads. */
  lemma DecisionIsChosen(db: Db, call: Call, newJob: JobId, newOccurrence: OccurrenceId)
    ensures ChosenAmong(db, call, NewOutcome(Decide(FilterCandidates(db, TierFilter(call))), newJob, newOccurrence))
  {
    hide Holds, FilterCandidates, SortedIds;
    var all := FilterCandidates(db, TierFilter(call));
    forall job
      ensures Holds(db, call, job) <==> job in all
    {
      HoldersAreCandidates(db, call, job);
    }
  }

  // ---------- The writes have these effects ----------

  lemma WrittenRow(call: Call, job: JobId)
    requires ResolveIdentity(call.posting) == Some(call.key)
    ensures OccurrenceWritten(NewRow(call, job), call, job)
  {
    NewRowResolvesToItsKey(call, job);
  }

  lemma TouchEffects(db: Db, call: Call, o: OccurrenceId)
    requires o in db.occurrences && Matches(call.key, db.occurrences[o]) && call.rawId in db.raws
    requires db.occurrences[o].job in db.jobs
    ensures var row, mismatch := db.occurrences[o], IsMismatch(db.occurrences[o], call);
            Effects(db, call, WriteTouch(db, call, o, Later(row.lastSeen, call.observedAt),
                                         Later(db.jobs[row.job].lastSeen, call.observedAt), mismatch),
                    TouchOutcome(row, o, mismatch))
  {
    hide Matches, OwnKey;
    var row, mismatch := db.occurrences[o], IsMismatch(db.occurrences[o], call);
    var db' := WriteTouch(db, call, o, Later(row.lastSeen, call.observedAt), Later(db.jobs[row.job].lastSeen, call.observedAt), mismatch);
    var added := if mismatch then [Conflict(call.rawId, EvidenceMismatch(o, row.canonicalUrl, call.posting.canonicalUrl))] else [];
    assert ConflictAdded(db, call, TouchOutcome(row, o, mismatch), added) && RawLinked(db, call, db', o, added);
  }

  lemma NewEffects(db: Db, call: Call, decision: Decision, jobLastSeen: Time, newJob: JobId, newOccurrence: OccurrenceId)
    requires ResolveIdentity(call.posting) == Some(call.key) && call.rawId in db.raws
    requires newJob !in db.jobs && newOccurrence !in db.occurrences
    requires decision.AttachTo? ==> decision.job in db.jobs && jobLastSeen == db.jobs[decision.job].lastSeen
    ensures Effects(db, call, WriteNew(db, call, decision, jobLastSeen, newJob, newOccurrence),
                    NewOutcome(decision, newJob, newOccurrence))
  {
    hide OccurrenceWritten, NewRow, ResolveIdentity;
    WrittenRow(call, if decision.AttachTo? then decision.job else newJob);
    var db', outcome := WriteNew(db, call, decision, jobLastSeen, newJob, newOccurrence), NewOutcome(decision, newJob, newOccurrence);
    var added := if decision.Ambiguous? then [Conflict(call.rawId, AmbiguousMatch(decision.candidates, newOccurrence))] else [];
    assert ConflictAdded(db, call, outcome, added) && RawLinked(db, call, db', newOccurrence, added);
  }

  // ---------- Sightings ----------

  // Seen at `at` and not before, or as it was.
  predicate SeenAgain(before: Time, after: Time, at: Time) {
    after == before || (after == at && before <= at)
  }

  /** Everything new is first and last seen at one time, and what was there is at most sighted again then. */
  ghost predicate SightedAt(db: Db, db': Db, at: Time) {
    && (forall j :: j in db.jobs ==> j in db'.jobs && db'.jobs[j].firstSeen == db.jobs[j].firstSeen
                                     && SeenAgain(db.jobs[j].lastSeen, db'.jobs[j].lastSeen, at))
    && (forall j :: j in db'.jobs && j !in db.jobs ==> db'.jobs[j].firstSeen == at && db'.jobs[j].lastSeen == at)
    && (forall o :: o in db.occurrences ==> o in db'.occurrences && db'.occurrences[o].firstSeen == db.occurrences[o].firstSeen
                                            && SeenAgain(db.occurrences[o].lastSeen, db'.occurrences[o].lastSeen, at))
    && (forall o :: o in db'.occurrences && o !in db.occurrences ==>
          db'.occurrences[o].firstSeen == at && db'.occurrences[o].lastSeen == at)
  }

  lemma SameSightings(db: Db, db': Db, at: Time)
    requires db'.jobs == db.jobs && db'.occurrences == db.occurrences
    ensures SightedAt(db, db', at)
  {
  }

  lemma SightedTwice(a: Db, b: Db, c: Db, at: Time)
    requires SightedAt(a, b, at) && SightedAt(b, c, at)
    ensures SightedAt(a, c, at)
  {
  }

  lemma EffectsSight(db: Db, call: Call, db': Db, outcome: Outcome)
    requires Effects(db, call, db', outcome)
    ensures SightedAt(db, db', call.observedAt)
  {
    hide Matches, OwnKey, UrlsDisagree, ConflictAdded, RawLinked;
  }

  // ---------- One call run alone ----------

  // The stored evidence of the posting fits the length prefix of its lock's encoding.
  predicate EvidenceFits(call: Call) {
    var tenant, requisition := CanonicalizeNullableText(call.posting.tenant), CanonicalizeNullableText(call.posting.requisition);
    if call.posting.canonicalUrl.Some? then Encodable([call.posting.canonicalUrl.value])
    else tenant.Some? && requisition.Some? ==>
      Encodable([call.key.provider, call.key.source, tenant.value, requisition.value])
  }

  /** The raw row is accepted exactly when it is still as it was fetched for this very posting, and the
      key is the posting's own. */
  lemma AssociationExactly(raw: Raw, call: Call)
    ensures AssociationValid(raw, call) <==> raw == FetchedRow(call.posting) && ResolveIdentity(call.posting) == Some(call.key)
  {
    if ResolveIdentity(call.posting) == Some(call.key) {
      KeyIsFetched(call);
      hide ResolveIdentity, FetchedRow;
    }
  }

  // The row fetched for a posting and its key agree.
  lemma KeyIsFetched(call: Call)
    requires ResolveIdentity(call.posting) == Some(call.key)
    ensures FetchedRow(call.posting) ==
      Raw(call.key.provider, call.key.source, call.key.jobId, call.posting.contentHash, call.posting.discoveredAt, Fetched, None)
  {
    hide CanonicalizeIdentifier, CanonicalizeNullableText;
  }

  /** Two postings are fetched as the same row exactly when provider, source and job id agree but for case and
      surrounding whitespace, and payload hash and discovery time agree. */
  lemma FetchedAlike(p: Posting, q: Posting)
    ensures FetchedRow(p) == FetchedRow(q) <==>
      && CanonicalizeIdentifier(p.provider) == CanonicalizeIdentifier(q.provider)
      && CanonicalizeIdentifier(p.source) == CanonicalizeIdentifier(q.source)
      && CanonicalizeNullableText(p.sourceJobId) == CanonicalizeNullableText(q.sourceJobId)
      && p.contentHash == q.contentHash && p.discoveredAt == q.discoveredAt
    ensures FetchedRow(p).status == Fetched && FetchedRow(p).occurrence.None?
  {
    hide CanonicalizeIdentifier, CanonicalizeNullableText;
  }

  // What a finished call shows in the tables, against those it started on.
  ghost predicate Told(db: Db, call: Call, r: Result<(Db, Outcome)>) {
    r.Ok? && Effects(db, call, r.value.0, r.value.1) && ChosenAmong(db, call, r.value.1) && KeyDecides(db, call, r.value.1)
  }

  lemma FoundTold(db: Db, call: Call, o: OccurrenceId)
    requires o in db.occurrences && Matches(call.key, db.occurrences[o]) && call.rawId in db.raws
    requires PersistFound(db, call, o).Ok?
    ensures Told(db, call, PersistFound(db, call, o))
  {
    hide Matches, IsMismatch, Effects, WriteTouch;
    TouchEffects(db, call, o);
  }

  lemma MissedTold(hash: HashFunction, db: Db, call: Call, newJob: JobId, newOccurrence: OccurrenceId)
    requires ResolveIdentity(call.posting) == Some(call.key) && call.rawId in db.raws
    requires newJob !in db.jobs && newOccurrence !in db.occurrences
    requires forall o :: o in db.occurrences ==> !Matches(call.key, db.occurrences[o])
    requires PersistMissed(hash, db, call, newJob, newOccurrence).Ok?
    ensures Told(db, call, PersistMissed(hash, db, call, newJob, newOccurrence))
  {
    hide ResolveIdentity, Matches, TierFilter, TierLock, FilterCandidates, Effects, ChosenAmong, Decide, WriteNew;
    var decision := Decide(FilterCandidates(db, TierFilter(call)));
    NewEffects(db, call, decision, if decision.AttachTo? then db.jobs[decision.job].lastSeen else 0, newJob, newOccurrence);
    DecisionIsChosen(db, call, newJob, newOccurrence);
  }

  /** What a call run alone does, in terms of the tables and the posting only. */
  lemma PersistTold(hash: HashFunction, db: Db, call: Call, newJob: JobId, newOccurrence: OccurrenceId)
    requires newJob !in db.jobs && newOccurrence !in db.occurrences && Persist(hash, db, call, newJob, newOccurrence).Ok?
    ensures Told(db, call, Persist(hash, db, call, newJob, newOccurrence))
  {
    AssociationExactly(db.raws[call.rawId], call);
    hide AssociationValid, NaturalLock, ResolveIdentity, Matches, PersistFound, PersistMissed, Told, Matching;
    MatchingRows(db, call.key);
    if |Matching(db, call.key)| == 1 {
      FoundTold(db, call, Only(Matching(db, call.key)));
    } else {
      MissedTold(hash, db, call, newJob, newOccurrence);
    }
  }

  lemma MatchingRows(db: Db, key: NaturalKey)
    ensures forall o :: o in Matching(db, key) <==> o in db.occurrences && Matches(key, db.occurrences[o])
    ensures |Matching(db, key)| == 0 ==> forall o :: o in db.occurrences ==> !Matches(key, db.occurrences[o])
  {
    hide Matches;
    if |Matching(db, key)| == 0 {
      assert forall o :: o !in Matching(db, key);
    }
  }

  ghost predicate Known(db: Db, key: NaturalKey) {
    exists o :: o in db.occurrences && Matches(key, db.occurrences[o])
  }

  // The raw row is there for this posting, and untouched.
  predicate Untouched(db: Db, call: Call) {
    call.rawId in db.raws && db.raws[call.rawId] == FetchedRow(call.posting) && ResolveIdentity(call.posting) == Some(call.key)
  }

  predicate KeyFits(key: NaturalKey) {
    key.WellFormed() && Encodable(key.Components())
  }

  /** When a call run alone on valid tables fails, and how. */
  ghost predicate FailsExactly(db: Db, call: Call, error: Option<Error>) {
    && (error == Some(NoRawRow) <==> call.rawId !in db.raws)
    && (error == Some(InvalidAssociation) <==> call.rawId in db.raws && !Untouched(db, call))
    && (error == Some(EncodingOverflow) <==>
          Untouched(db, call) && (!KeyFits(call.key) || (!Known(db, call.key) && !EvidenceFits(call))))
    && error != Some(MultipleOccurrences) && error != Some(Unstable)
  }

  lemma TierLockFits(hash: HashFunction, call: Call)
    ensures EvidenceFits(call) <==> (TierFilter(call).Some? ==> TierLock(hash, TierFilter(call).value).Some?)
  {
  }

  lemma MissedFails(hash: HashFunction, db: Db, call: Call, newJob: JobId, newOccurrence: OccurrenceId)
    requires call.rawId in db.raws
    ensures var r := PersistMissed(hash, db, call, newJob, newOccurrence);
            (EvidenceFits(call) <==> r != Err(EncodingOverflow)) && r != Err(NoRawRow) && r != Err(InvalidAssociation)
  {
    hide TierFilter, TierLock, FilterCandidates, Decide, WriteNew, EvidenceFits;
    TierLockFits(hash, call);
  }

  lemma KeyLockFits(hash: HashFunction, key: NaturalKey)
    ensures KeyFits(key) <==> NaturalLock(hash, key).Some?
  {
  }

  lemma FoundFails(db: Db, call: Call, o: OccurrenceId)
    requires o in db.occurrences && call.rawId in db.raws
    ensures var r := PersistFound(db, call, o); r.Err? ==> r.error == Unstable
  {
    hide IsMismatch, WriteTouch;
  }

  lemma AcceptedFails(hash: HashFunction, db: Db, call: Call, newJob: JobId, newOccurrence: OccurrenceId)
    requires call.rawId in db.raws && AssociationValid(db.raws[call.rawId], call)
    requires var r := Persist(hash, db, call, newJob, newOccurrence); r.Err? ==> r.error != MultipleOccurrences && r.error != Unstable
    ensures var r := Persist(hash, db, call, newJob, newOccurrence);
            && (r.Err? ==> r.error == EncodingOverflow)
            && (r.Err? <==> !KeyFits(call.key) || (!Known(db, call.key) && !EvidenceFits(call)))
  {
    hide AssociationValid, Matches, PersistMissed, PersistFound, EvidenceFits, KeyFits, NaturalLock, Matching;
    MissedFails(hash, db, call, newJob, newOccurrence);
    KeyLockFits(hash, call.key);
    MatchingRows(db, call.key);
    if |Matching(db, call.key)| == 1 {
      FoundFails(db, call, Only(Matching(db, call.key)));
      assert Known(db, call.key);
    }
  }

  lemma RefusedFails(hash: HashFunction, db: Db, call: Call, newJob: JobId, newOccurrence: OccurrenceId)
    ensures call.rawId !in db.raws ==> Persist(hash, db, call, newJob, newOccurrence) == Err(NoRawRow)
    ensures call.rawId in db.raws && !AssociationValid(db.raws[call.rawId], call) ==>
              Persist(hash, db, call, newJob, newOccurrence) == Err(InvalidAssociation)
  {
    hide AssociationValid, PersistMissed, PersistFound, NaturalLock, Matching;
  }

  lemma PersistFails(hash: HashFunction, db: Db, call: Call, newJob: JobId, newOccurrence: OccurrenceId)
    requires var r := Persist(hash, db, call, newJob, newOccurrence); r.Err? ==> r.error != MultipleOccurrences && r.error != Unstable
    ensures var r := Persist(hash, db, call, newJob, newOccurrence);
            FailsExactly(db, call, if r.Ok? then None else Some(r.error))
  {
    hide AssociationValid, ResolveIdentity, FetchedRow, Persist, EvidenceFits, KeyFits, Known;
    RefusedFails(hash, db, call, newJob, newOccurrence);
    if call.rawId in db.raws {
      AssociationExactly(db.raws[call.rawId], call);
      if Untouched(db, call) {
        AcceptedFails(hash, db, call, newJob, newOccurrence);
      }
    }
  }
}
